/**
 * The agent session controller as an explicit state machine over values: the
 * session configuration, the listening flag, the status line, the transcript
 * and the speech synthesiser's single utterance slot, driven by the events the
 * page reacts to. The class in module Controller is proved against `Step`.
 */
module Session {
  import opened Wrappers
  import opened Text
  import opened Opinion

  /** The status line: its text and whether the activity dot is lit. */
  datatype Status = Status(text: string, active: bool)

  /** One line of the conversation log. */
  datatype Entry = Entry(speaker: string, text: string)

  datatype State = State(
    agentName: string,
    topic: string,
    persona: string,
    isListening: bool,
    status: Status,
    transcript: seq<Entry>,
    speaking: Option<string>,  // the utterance the synthesiser is playing, if any
    hasRecognizer: bool        // whether the browser offers speech recognition
  )

  /** What the environment can do to the session. */
  datatype Event =
    | ConfigureSubmit(name: string, topic: string, persona: string)  // the agent form, raw field values
    | TextSubmit(text: string)                 // the question form
    | UtteranceEnd                             // the synthesiser finished the utterance
    | ListenClick                              // the listen button
    | StopClick                                // the stop button
    | RecognitionResult(segments: seq<string>) // final transcripts of the recognised speech
    | RecognitionEnd                           // the recogniser stopped capturing
    | RecognitionError(code: string)           // the recogniser reported an error code

  const DefaultName := "Agent"
  const IdleText := "Agent idle"
  const UnsupportedText := "Voice input not supported in this browser."
  const ErrorPrefix := "Voice input error: "

  /** The page as loaded: default configuration, nothing said, status "Agent idle". */
  function Init(hasRecognizer: bool): State {
    State(DefaultName, "", CuriousAnalyst, false, Status(IdleText, false), [], None, hasRecognizer)
  }

  // The page's helpers, one function each.

  function UpdateStatus(st: State, message: string, isActive: bool): State {
    st.(status := Status(message, isActive))
  }

  function AddMessage(st: State, speaker: string, text: string): State {
    st.(transcript := st.transcript + [Entry(speaker, text)])
  }

  function StopSpeaking(st: State): State {
    st.(speaking := None)
  }

  /** Cancel whatever is playing, then play `text`: the slot holds only the latest utterance. */
  function Speak(st: State, text: string): State {
    UpdateStatus(StopSpeaking(st).(speaking := Some(text)), st.agentName + " is speaking", true)
  }

  /** The utterance's end handler reads the session as it is when speech ends. */
  function UtteranceEnded(st: State): State {
    UpdateStatus(StopSpeaking(st), st.agentName + " is listening", st.isListening)
  }

  /**
   * The page ignores a question whose trimmed text is empty, which is the same
   * as being blank (BlankIffTrimsToEmpty).
   */
  function HandleQuestion(st: State, question: string): State {
    if IsBlank(question) then st
    else
      var reply := GenerateOpinion(st.agentName, st.topic, st.persona, question);
      Speak(AddMessage(AddMessage(st, "You", question), st.agentName, reply), reply)
  }

  function StartListening(st: State): State {
    if !st.hasRecognizer then UpdateStatus(st, UnsupportedText, false)
    else UpdateStatus(StopSpeaking(st).(isListening := true), st.agentName + " is listening", true)
  }

  function StopListening(st: State): State {
    UpdateStatus(st.(isListening := false), IdleText, false)
  }

  function Configure(st: State, name: string, topic: string, persona: string): State {
    var trimmed := Trim(name);
    var agentName := if trimmed == "" then DefaultName else trimmed;
    var st1 := st.(agentName := agentName, topic := Trim(topic), persona := persona);
    var st2 := AddMessage(st1, "System", agentName + " created. Topic: " + Trim(topic) + ". Persona: " + persona + ".");
    UpdateStatus(st2, agentName + " is ready", false)
  }

  /** Recognised speech: stop listening, show "thinking", and ask the joined transcript. */
  function Recognized(st: State, segments: seq<string>): State {
    HandleQuestion(Heard(st), Concat(segments))
  }

  function RecognitionEnded(st: State): State {
    UpdateStatus(st.(isListening := false), IdleText, false)
  }

  function RecognitionFailed(st: State, code: string): State {
    UpdateStatus(st.(isListening := false), ErrorPrefix + code, false)
  }

  /** One event. The recogniser's events have no listener when there is no recogniser. */
  function Step(st: State, ev: Event): State {
    match ev
    case ConfigureSubmit(name, topic, persona) => Configure(st, name, topic, persona)
    case TextSubmit(text) => HandleQuestion(st, text)
    case UtteranceEnd => UtteranceEnded(st)
    case ListenClick => StartListening(st)
    case StopClick => StopListening(StopSpeaking(st))
    case RecognitionResult(segments) => if st.hasRecognizer then Recognized(st, segments) else st
    case RecognitionEnd => if st.hasRecognizer then RecognitionEnded(st) else st
    case RecognitionError(code) => if st.hasRecognizer then RecognitionFailed(st, code) else st
  }

  /** A sequence of events, in order. */
  function Run(st: State, events: seq<Event>): State
    decreases |events|
  {
    if events == [] then st else Run(Step(st, events[0]), events[1..])
  }

  /**
   * What holds of every reachable session: the agent name is never empty and,
   * like the topic, carries no surrounding whitespace; only a page with a
   * recogniser can be listening; the dot is lit only while the agent speaks or
   * listens; and whatever the synthesiser plays was first written to the
   * transcript.
   */
  predicate Inv(st: State) {
    st.agentName != "" && IsUnpadded(st.agentName) && IsUnpadded(st.topic) &&
    (st.isListening ==> st.hasRecognizer) &&
    (st.status.active ==> st.speaking.Some? || st.isListening) &&
    (st.speaking.Some? ==> exists i :: 0 <= i < |st.transcript| && st.transcript[i].text == st.speaking.value)
  }

  lemma InitInv(hasRecognizer: bool)
    ensures Inv(Init(hasRecognizer))
  {
    assert DefaultName[0] == 'A' && DefaultName[|DefaultName| - 1] == 't';
  }

  /** Every event keeps the invariant. */
  lemma StepInv(st: State, ev: Event)
    requires Inv(st)
    ensures Inv(Step(st, ev))
  {
    match ev
    case ConfigureSubmit(name, topic, persona) =>
      ConfigureInv(st, name, topic, persona);
    case TextSubmit(text) =>
      QuestionInv(st, text);
    case RecognitionResult(segments) =>
      if st.hasRecognizer {
        QuestionInv(Heard(st), Concat(segments));
      }
    case _ =>
  }

  lemma ConfigureInv(st: State, name: string, topic: string, persona: string)
    requires Inv(st)
    ensures Inv(Configure(st, name, topic, persona))
  {
    ConfigureReplaces(st, name, topic, persona);
    var st' := Configure(st, name, topic, persona);
    if st.speaking.Some? {
      var i :| 0 <= i < |st.transcript| && st.transcript[i].text == st.speaking.value;
      assert st'.transcript[i] == st.transcript[i];
    }
  }

  lemma QuestionInv(st: State, question: string)
    requires Inv(st.(status := Status(st.status.text, false)))
    ensures Inv(HandleQuestion(st, question)) || HandleQuestion(st, question) == st
  {
    var st' := HandleQuestion(st, question);
    if !IsBlank(question) {
      assert st'.transcript[|st.transcript| + 1].text == st'.speaking.value;
    }
  }

  /** Every reachable session satisfies the invariant. */
  lemma {:induction false} RunInv(st: State, events: seq<Event>)
    requires Inv(st)
    ensures Inv(Run(st, events))
    decreases |events|
  {
    if events != [] {
      StepInv(st, events[0]);
      RunInv(Step(st, events[0]), events[1..]);
    }
  }

  /** No event rewrites or removes a transcript entry, and the recogniser capability never changes. */
  lemma StepAppendOnly(st: State, ev: Event)
    ensures st.transcript <= Step(st, ev).transcript
    ensures Step(st, ev).hasRecognizer == st.hasRecognizer
  {
    match ev
    case TextSubmit(text) => QuestionKeeps(st, text);
    case RecognitionResult(segments) => QuestionKeeps(Heard(st), Concat(segments));
    case ConfigureSubmit(name, topic, persona) =>
      var st' := Configure(st, name, topic, persona);
      assert st'.transcript[..|st.transcript|] == st.transcript;
    case _ =>
  }

  /** Answering a question only appends to the transcript and keeps configuration and flags. */
  lemma QuestionKeeps(st: State, question: string)
    ensures var st' := HandleQuestion(st, question);
            st.transcript <= st'.transcript && st'.isListening == st.isListening &&
            st'.hasRecognizer == st.hasRecognizer && st'.agentName == st.agentName &&
            st'.topic == st.topic && st'.persona == st.persona
  {
    if !IsBlank(question) {
      var st' := HandleQuestion(st, question);
      assert st'.transcript[..|st.transcript|] == st.transcript;
    }
  }

  /** Over any run the transcript only grows at its end. */
  lemma {:induction false} RunAppendOnly(st: State, events: seq<Event>)
    ensures st.transcript <= Run(st, events).transcript
    ensures Run(st, events).hasRecognizer == st.hasRecognizer
    decreases |events|
  {
    if events != [] {
      StepAppendOnly(st, events[0]);
      RunAppendOnly(Step(st, events[0]), events[1..]);
    }
  }

  /** A question is ignored, leaving the whole session as it was, exactly when it is blank. */
  lemma BlankQuestionIgnored(st: State, question: string)
    ensures HandleQuestion(st, question) == st <==> IsBlank(question)
  {
    if !IsBlank(question) {
      assert |HandleQuestion(st, question).transcript| == |st.transcript| + 2;
    }
  }

  /**
   * A non-blank question appends the question as asked (untrimmed) and then
   * the agent's reply, plays that reply in place of whatever was playing and
   * shows the agent speaking; configuration and listening flag stay.
   */
  lemma QuestionAnswered(st: State, question: string)
    requires !IsBlank(question)
    ensures var st' := HandleQuestion(st, question);
            var reply := GenerateOpinion(st.agentName, st.topic, st.persona, question);
            st'.transcript[..|st.transcript|] == st.transcript &&
            st'.transcript[|st.transcript|..] == [Entry("You", question), Entry(st.agentName, reply)] &&
            st'.speaking == Some(reply) &&
            st'.status == Status(st.agentName + " is speaking", true) &&
            st'.(transcript := st.transcript, speaking := st.speaking, status := st.status) == st
  {
  }

  /** Two questions in a row leave only the second reply playing: utterances are replaced, never queued. */
  lemma LatestUtteranceWins(st: State, q1: string, q2: string)
    requires !IsBlank(q1) && !IsBlank(q2)
    ensures var st' := Run(st, [TextSubmit(q1), TextSubmit(q2)]);
            st'.speaking == Some(GenerateOpinion(st.agentName, st.topic, st.persona, q2)) &&
            |st'.transcript| == |st.transcript| + 4
  {
    RunTwo(st, TextSubmit(q1), TextSubmit(q2));
  }

  /**
   * Configuring replaces name, topic and persona whatever they were before (the
   * name falls back to "Agent" when it trims to nothing), keeps the listening
   * flag, appends one System notice and shows the agent ready.
   */
  lemma ConfigureReplaces(st: State, name: string, topic: string, persona: string)
    ensures var n := if IsBlank(name) then DefaultName else Trim(name);
            Configure(st, name, topic, persona) ==
              st.(agentName := n, topic := Trim(topic), persona := persona,
                  transcript := st.transcript +
                    [Entry("System", n + " created. Topic: " + Trim(topic) + ". Persona: " + persona + ".")],
                  status := Status(n + " is ready", false))
    ensures var n := Configure(st, name, topic, persona).agentName;
            n != "" && IsUnpadded(n) && IsUnpadded(Configure(st, name, topic, persona).topic)
  {
    BlankIffTrimsToEmpty(name);
    InitInv(st.hasRecognizer);
  }

  /** An empty name and topic with the "calm skeptic" persona. */
  lemma ConfigureEmptyName(st: State)
    ensures var st' := Configure(st, "", "", CalmSkeptic);
            st'.agentName == "Agent" && st'.topic == "" && st'.persona == "calm skeptic"
  {
    TrimUnpadded("");
  }

  /** Stopping listening twice is the same as stopping it once. */
  lemma StopListeningIdempotent(st: State)
    ensures StopListening(StopListening(st)) == StopListening(st)
    ensures !StopListening(st).isListening && StopListening(st).status == Status(IdleText, false)
  {
  }

  /** The recogniser's end event has exactly the state effect of stopping listening. */
  lemma RecognitionEndIsStop(st: State)
    requires st.hasRecognizer
    ensures Step(st, RecognitionEnd) == StopListening(st)
  {
  }

  /** The stop button silences the agent, stops listening and shows "Agent idle", whatever the state. */
  lemma StopClickSilences(st: State)
    ensures var st' := Step(st, StopClick);
            st'.speaking == None && !st'.isListening && st'.status == Status(IdleText, false) &&
            st'.transcript == st.transcript
  {
  }

  /** Only the listen button, and only with a recogniser, turns listening on. */
  lemma ListeningOnlyByStart(st: State, ev: Event)
    requires !st.isListening && Step(st, ev).isListening
    ensures ev == ListenClick && st.hasRecognizer
  {
    match ev
    case TextSubmit(text) => QuestionKeeps(st, text);
    case RecognitionResult(segments) => QuestionKeeps(Heard(st), Concat(segments));
    case _ =>
  }

  /** Every way out of listening other than speech ending turns the flag off, if the event is heard at all. */
  lemma ListeningExits(st: State, ev: Event)
    requires st.hasRecognizer
    requires ev.StopClick? || ev.RecognitionResult? || ev.RecognitionEnd? || ev.RecognitionError?
    ensures !Step(st, ev).isListening
  {
    if ev.RecognitionResult? {
      QuestionKeeps(Heard(st), Concat(ev.segments));
    }
  }

  /**
   * Starting to listen without a recogniser only changes the status line;
   * with one it silences the agent, raises the flag and shows it listening.
   */
  lemma StartListeningEffect(st: State)
    ensures var st' := StartListening(st);
            if st.hasRecognizer then
              st' == st.(speaking := None, isListening := true, status := Status(st.agentName + " is listening", true))
            else
              st' == st.(status := Status(UnsupportedText, false))
  {
  }

  /**
   * A typed question asked while not listening settles, once the reply has
   * been spoken, with the dot off: the text still says "is listening", since
   * only the dot follows the listening flag.
   */
  lemma TypedQuestionSettles(st: State, question: string)
    requires !st.isListening && !IsBlank(question)
    ensures var st' := Run(st, [TextSubmit(question), UtteranceEnd]);
            st'.status == Status(st.agentName + " is listening", false) && st'.speaking == None
  {
    RunTwo(st, TextSubmit(question), UtteranceEnd);
  }

  /** The session a recognised result hands to `HandleQuestion`. */
  function Heard(st: State): State {
    UpdateStatus(st.(isListening := false), st.agentName + " is thinking", false)
  }

  /**
   * Recognised speech that joins to blank text is dropped: listening stops and
   * the status is left at "<name> is thinking" with the dot off. This is the
   * case exactly when every segment is blank.
   */
  lemma BlankSpeechLeftThinking(st: State, segments: seq<string>)
    requires st.hasRecognizer
    requires forall i :: 0 <= i < |segments| ==> IsBlank(segments[i])
    ensures Step(st, RecognitionResult(segments)) ==
            st.(isListening := false, status := Status(st.agentName + " is thinking", false))
  {
    var text := Concat(segments);
    ConcatBlank(segments);
    assert HandleQuestion(Heard(st), text) == Heard(st);
    assert Step(st, RecognitionResult(segments)) == HandleQuestion(Heard(st), text);
  }

  /** Recognised speech is answered like typed text, asked of a session that is no longer listening. */
  lemma SpeechAnsweredLikeText(st: State, segments: seq<string>)
    requires st.hasRecognizer && !IsBlank(Concat(segments))
    ensures var st' := Step(st, RecognitionResult(segments));
            !st'.isListening && st' == HandleQuestion(st.(isListening := false), Concat(segments))
  {
    var text := Concat(segments);
    assert Step(st, RecognitionResult(segments)) == HandleQuestion(Heard(st), text);
    var reply := GenerateOpinion(st.agentName, st.topic, st.persona, text);
    assert HandleQuestion(Heard(st), text).status == Status(st.agentName + " is speaking", true);
    assert HandleQuestion(Heard(st), text) == HandleQuestion(st.(isListening := false), text);
  }

  /** An error code from the recogniser is shown verbatim and listening stops. */
  lemma ErrorShownVerbatim(st: State, code: string)
    requires st.hasRecognizer
    ensures Step(st, RecognitionError(code)).status == Status("Voice input error: " + code, false)
    ensures !Step(st, RecognitionError(code)).isListening
  {
  }

  /**
   * Example run: name a session, then ask it something. The reply is the
   * frame with the name, the question, the topic clause and the optimistic
   * strategist's sentence filled in.
   */
  lemma NovaExample(hasRecognizer: bool)
    ensures var st := Run(Init(hasRecognizer), [ConfigureSubmit("Nova", "climate policy", "optimistic strategist"),
                                               TextSubmit("What should we do?")]);
            st.agentName == "Nova" && st.topic == "climate policy" &&
            st.speaking == Some("Nova" + Lead + "What should we do?" + "\"" + " on " + "climate policy" + ". " +
                                OptimisticLine + Closing)
  {
    var s0 := Init(hasRecognizer);
    var ev1, ev2 := ConfigureSubmit("Nova", "climate policy", OptimisticStrategist), TextSubmit("What should we do?");
    RunTwo(s0, ev1, ev2);
    var s1 := Step(s0, ev1);
    NovaConfigured(s0);
    ExampleQuestionsNotBlank("What should we do?");
    QuestionSpoken(s1, "What should we do?");
    NovaReply();
  }

  /** The example questions are not blank. */
  lemma ExampleQuestionsNotBlank(q: string)
    requires q == "What should we do?" || q == "test"
    ensures !IsBlank(q)
  {
    assert !IsWhitespace(q[0]);
  }

  /** A non-blank question puts the generated reply in the speech slot and keeps the configuration. */
  lemma QuestionSpoken(st: State, q: string)
    requires !IsBlank(q)
    ensures var st' := Step(st, TextSubmit(q));
            st'.speaking == Some(GenerateOpinion(st.agentName, st.topic, st.persona, q)) &&
            st'.agentName == st.agentName && st'.topic == st.topic
  {
  }

  /** Two events in a row are the two steps in order. */
  lemma RunTwo(st: State, e1: Event, e2: Event)
    ensures Run(st, [e1, e2]) == Step(Step(st, e1), e2)
  {
    var s1 := Step(st, e1);
    assert [e1, e2][1..] == [e2] && [e2][1..] == [];
    assert Run(st, [e1, e2]) == Run(s1, [e2]);
    assert Run(s1, [e2]) == Run(Step(s1, e2), []);
  }

  /** The example configuration stores its name, topic and persona as given. */
  lemma NovaConfigured(st: State)
    ensures var st' := Configure(st, "Nova", "climate policy", OptimisticStrategist);
            st'.agentName == "Nova" && st'.topic == "climate policy" && st'.persona == OptimisticStrategist
  {
    var name, topic := "Nova", "climate policy";
    assert name[0] == 'N' && name[3] == 'a';
    TrimUnpadded(name);
    assert topic[0] == 'c' && topic[13] == 'y';
    TrimUnpadded(topic);
  }

  /** The example reply, piece by piece. */
  lemma NovaReply()
    ensures GenerateOpinion("Nova", "climate policy", OptimisticStrategist, "What should we do?") ==
            "Nova" + Lead + "What should we do?" + "\"" + " on " + "climate policy" + ". " + OptimisticLine + Closing
  {
    var name, topic, q := "Nova", "climate policy", "What should we do?";
    var g := name + Lead + q + "\"";
    assert Greeting(name, q) == g;
    PerspectiveTable(OptimisticStrategist);
    assert Tail(OptimisticStrategist) == ". " + OptimisticLine + Closing;
    assert TopicLine(topic) == " on " + topic;
    Flatten6(g, " on ", topic, ". ", OptimisticLine, Closing);
  }

  /** Example run: ask the default agent a question; there is no topic clause. */
  lemma DefaultExample(hasRecognizer: bool)
    ensures Step(Init(hasRecognizer), TextSubmit("test")).speaking ==
            Some("Agent" + Lead + "test" + "\"" + ". " + CuriousLine + Closing)
  {
    ExampleQuestionsNotBlank("test");
    QuestionSpoken(Init(hasRecognizer), "test");
    DefaultReply();
  }

  /** The default agent's reply to "test", piece by piece. */
  lemma DefaultReply()
    ensures GenerateOpinion(DefaultName, "", CuriousAnalyst, "test") ==
            "Agent" + Lead + "test" + "\"" + ". " + CuriousLine + Closing
  {
    var g := "Agent" + Lead + "test" + "\"";
    assert Greeting(DefaultName, "test") == g;
    PerspectiveTable(CuriousAnalyst);
    assert Tail(CuriousAnalyst) == ". " + CuriousLine + Closing;
    assert TopicLine("") == "";
    DropEmpty(g, "", ". ", CuriousLine, Closing);
  }

  /** Example run: the recogniser fails with "network" while listening. */
  lemma NetworkErrorExample(st: State)
    requires st.hasRecognizer
    ensures var st' := Run(st, [ListenClick, RecognitionError("network")]);
            st'.status == Status("Voice input error: network", false) && !st'.isListening
  {
    RunTwo(st, ListenClick, RecognitionError("network"));
  }
}
