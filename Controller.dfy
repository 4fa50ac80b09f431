/**
 * The page's controller as an object: the session fields the handlers update
 * in place, one method per handler, each proved to change the session exactly
 * as `Session.Step` says the corresponding event does.
 */
module Controller {
  import opened Wrappers
  import opened Text
  import opened Opinion
  import Session

  class SessionController {
    var agentName: string
    var topic: string
    var persona: string
    var isListening: bool
    var statusText: string
    var statusActive: bool
    var transcript: seq<Session.Entry>
    var speaking: Option<string>
    const hasRecognizer: bool

    /** The session as a value. */
    function Snapshot(): Session.State
      reads this
    {
      Session.State(agentName, topic, persona, isListening, Session.Status(statusText, statusActive),
                    transcript, speaking, hasRecognizer)
    }

    ghost predicate Valid()
      reads this
    {
      Session.Inv(Snapshot())
    }

    /** Page load: the default session, and the status shows "Agent idle". */
    constructor (hasRecognizer: bool)
      ensures Valid() && Snapshot() == Session.Init(hasRecognizer)
      ensures agentName == "Agent" && topic == "" && persona == "curious analyst" && !isListening
      ensures statusText == "Agent idle" && !statusActive && transcript == [] && speaking == None
      ensures this.hasRecognizer == hasRecognizer
    {
      agentName, topic, persona, isListening := Session.DefaultName, "", CuriousAnalyst, false;
      transcript, speaking := [], None;
      this.hasRecognizer := hasRecognizer;
      statusText, statusActive := "", false;
      new;
      UpdateStatus(Session.IdleText, false);
      Session.InitInv(hasRecognizer);
    }

    method UpdateStatus(message: string, isActive: bool)
      modifies this
      ensures Snapshot() == Session.UpdateStatus(old(Snapshot()), message, isActive)
      ensures statusText == message && statusActive == isActive
    {
      statusText, statusActive := message, isActive;
    }

    method AddMessage(speaker: string, text: string)
      modifies this
      ensures Snapshot() == Session.AddMessage(old(Snapshot()), speaker, text)
      ensures transcript == old(transcript) + [Session.Entry(speaker, text)]
    {
      transcript := transcript + [Session.Entry(speaker, text)];
    }

    method StopSpeaking()
      modifies this
      ensures Snapshot() == Session.StopSpeaking(old(Snapshot()))
      ensures speaking == None
    {
      speaking := None;
    }

    /**
     * Cancel the current utterance, queue nothing, and play `text`. An internal
     * helper: the handlers call it only with text they have just logged.
     */
    method Speak(text: string)
      modifies this
      ensures Snapshot() == Session.Speak(old(Snapshot()), text)
      ensures speaking == Some(text) && statusText == agentName + " is speaking" && statusActive
      ensures transcript == old(transcript)
    {
      StopSpeaking();
      speaking := Some(text);
      UpdateStatus(agentName + " is speaking", true);
    }

    /** The utterance's end handler. */
    method UtteranceEnded()
      requires Valid()
      modifies this
      ensures Valid() && Snapshot() == Session.Step(old(Snapshot()), Session.UtteranceEnd)
      ensures statusText == agentName + " is listening" && statusActive == isListening && speaking == None
      ensures isListening == old(isListening) && transcript == old(transcript)
    {
      StopSpeaking();
      UpdateStatus(agentName + " is listening", isListening);
      Session.StepInv(old(Snapshot()), Session.UtteranceEnd);
    }

    /** A typed question (the question form's submit handler), also the end of a recognised one. */
    method HandleQuestion(question: string)
      requires Valid()
      modifies this
      ensures Valid() && Snapshot() == Session.HandleQuestion(old(Snapshot()), question)
      ensures IsBlank(question) ==> Snapshot() == old(Snapshot())
      ensures !IsBlank(question) ==>
                var reply := GenerateOpinion(agentName, topic, persona, question);
                transcript == old(transcript) + [Session.Entry("You", question), Session.Entry(agentName, reply)] &&
                speaking == Some(reply) && statusText == agentName + " is speaking" && statusActive
      ensures agentName == old(agentName) && topic == old(topic) && persona == old(persona)
      ensures isListening == old(isListening)
    {
      Session.QuestionInv(Snapshot(), question);
      BlankIffTrimsToEmpty(question);
      if Trim(question) == "" {
        return;
      }
      AddMessage("You", question);
      var response := GenerateOpinion(agentName, topic, persona, question);
      AddMessage(agentName, response);
      Speak(response);
    }

    /** The question form's submit handler. */
    method SubmitText(text: string)
      requires Valid()
      modifies this
      ensures Valid() && Snapshot() == Session.Step(old(Snapshot()), Session.TextSubmit(text))
    {
      Session.StepInv(Snapshot(), Session.TextSubmit(text));
      HandleQuestion(text);
    }

    /** The listen button. */
    method StartListening()
      requires Valid()
      modifies this
      ensures Valid() && Snapshot() == Session.Step(old(Snapshot()), Session.ListenClick)
      ensures !hasRecognizer ==>
                statusText == "Voice input not supported in this browser." && !statusActive &&
                isListening == old(isListening) && speaking == old(speaking)
      ensures hasRecognizer ==>
                isListening && speaking == None && statusText == agentName + " is listening" && statusActive
      ensures agentName == old(agentName) && topic == old(topic) && persona == old(persona)
      ensures transcript == old(transcript)
    {
      Session.StepInv(Snapshot(), Session.ListenClick);
      if !hasRecognizer {
        UpdateStatus(Session.UnsupportedText, false);
        return;
      }
      StopSpeaking();
      isListening := true;
      UpdateStatus(agentName + " is listening", true);
    }

    method StopListening()
      modifies this
      ensures Snapshot() == Session.StopListening(old(Snapshot()))
      ensures !isListening && statusText == "Agent idle" && !statusActive
      ensures speaking == old(speaking) && transcript == old(transcript)
    {
      isListening := false;
      UpdateStatus(Session.IdleText, false);
    }

    /** The stop button: silence the agent and stop listening. */
    method Stop()
      requires Valid()
      modifies this
      ensures Valid() && Snapshot() == Session.Step(old(Snapshot()), Session.StopClick)
      ensures speaking == None && !isListening && statusText == "Agent idle" && !statusActive
      ensures agentName == old(agentName) && topic == old(topic) && persona == old(persona)
      ensures transcript == old(transcript)
    {
      Session.StepInv(Snapshot(), Session.StopClick);
      StopSpeaking();
      StopListening();
    }

    /** The agent form's submit handler, with the raw field values. */
    method Configure(name: string, topic: string, persona: string)
      requires Valid()
      modifies this
      ensures Valid() && Snapshot() == Session.Step(old(Snapshot()), Session.ConfigureSubmit(name, topic, persona))
      ensures agentName == (if IsBlank(name) then "Agent" else Trim(name))
      ensures this.topic == Trim(topic) && this.persona == persona
      ensures transcript == old(transcript) +
                [Session.Entry("System", agentName + " created. Topic: " + this.topic + ". Persona: " + persona + ".")]
      ensures statusText == agentName + " is ready" && !statusActive
      ensures isListening == old(isListening) && speaking == old(speaking)
    {
      ghost var before := Snapshot();
      var trimmedName := Trim(name);
      var trimmedTopic := Trim(topic);
      agentName := if trimmedName == "" then Session.DefaultName else trimmedName;
      this.topic := trimmedTopic;
      this.persona := persona;
      ghost var configured := Snapshot();
      assert configured == before.(agentName := agentName, topic := Trim(topic), persona := persona);
      AddMessage("System", agentName + " created. Topic: " + this.topic + ". Persona: " + this.persona + ".");
      UpdateStatus(agentName + " is ready", false);
      assert Snapshot() == Session.Configure(before, name, topic, persona);
      Session.ConfigureInv(before, name, topic, persona);
      Session.ConfigureReplaces(before, name, topic, persona);
    }

    /** The recogniser's result handler, given the final transcript of each result. */
    method RecognitionResult(segments: seq<string>)
      requires Valid()
      modifies this
      ensures Valid() && Snapshot() == Session.Step(old(Snapshot()), Session.RecognitionResult(segments))
      ensures hasRecognizer ==> !isListening
      ensures hasRecognizer && IsBlank(Concat(segments)) ==>
                statusText == agentName + " is thinking" && !statusActive && transcript == old(transcript)
      ensures hasRecognizer && !IsBlank(Concat(segments)) ==>
                var reply := GenerateOpinion(agentName, topic, persona, Concat(segments));
                transcript == old(transcript) + [Session.Entry("You", Concat(segments)), Session.Entry(agentName, reply)] &&
                speaking == Some(reply) && statusText == agentName + " is speaking" && statusActive
      ensures !hasRecognizer ==> Snapshot() == old(Snapshot())
    {
      Session.StepInv(Snapshot(), Session.RecognitionResult(segments));
      if hasRecognizer {
        var text := Concat(segments);
        isListening := false;
        UpdateStatus(agentName + " is thinking", false);
        HandleQuestion(text);
      }
    }

    /** The recogniser's end handler. */
    method RecognitionEnd()
      requires Valid()
      modifies this
      ensures Valid() && Snapshot() == Session.Step(old(Snapshot()), Session.RecognitionEnd)
      ensures hasRecognizer ==> !isListening && statusText == "Agent idle" && !statusActive
      ensures speaking == old(speaking) && transcript == old(transcript)
      ensures !hasRecognizer ==> Snapshot() == old(Snapshot())
    {
      Session.StepInv(Snapshot(), Session.RecognitionEnd);
      if hasRecognizer {
        isListening := false;
        UpdateStatus(Session.IdleText, false);
      }
    }

    /** The recogniser's error handler, given the reported error code. */
    method RecognitionError(code: string)
      requires Valid()
      modifies this
      ensures Valid() && Snapshot() == Session.Step(old(Snapshot()), Session.RecognitionError(code))
      ensures hasRecognizer ==> !isListening && statusText == "Voice input error: " + code && !statusActive
      ensures speaking == old(speaking) && transcript == old(transcript)
      ensures !hasRecognizer ==> Snapshot() == old(Snapshot())
    {
      Session.StepInv(Snapshot(), Session.RecognitionError(code));
      if hasRecognizer {
        isListening := false;
        UpdateStatus(Session.ErrorPrefix + code, false);
      }
    }
  }
}
