# Agent session controller, modelled in Dafny

The page lets a user configure a simulated agent (name, topic, persona) and
ask it questions, typed or spoken. The agent answers with a canned reply built
from a fixed sentence frame, an optional topic clause and one of four persona
sentences. The reply is written to the conversation log and read aloud. The
whole controller lives in `app.js`, and this project models all of it except
the DOM and browser plumbing.

- `Text.dfy` (module `Text`) models JavaScript's `String.prototype.trim` as
  `Trim`, using ECMAScript's whitespace and line-terminator characters. `Trim`
  finds two cut points (`SkipStart`, `SkipEnd`) and returns the slice between
  them. It also
  models the `join("")` of recognised transcript segments as `Concat`.
- `Opinion.dfy` (module `Opinion`) models `generateOpinion` as a pure function
  of agent name, topic, persona and question. The persona is the raw form value
  (a `string`). The lookup returns an `Option`, and a miss is printed as the
  literal `undefined`, as the template literal does.
- `Session.dfy` (module `Session`) is the controller as an explicit state
  machine over values. `State` holds the configuration, the listening flag, the
  status line `(text, active)`, the append-only transcript, the synthesiser's
  single utterance slot, and whether a recogniser exists. `Event` lists what
  the page reacts to, `Step` applies one event and `Run` applies a sequence.
  The lemmas state the controller's promises about `Step` and `Run`.
  `Session.HandleQuestion` ignores a blank question (`IsBlank`), where the page
  tests `!question.trim()`; `Text.BlankIffTrimsToEmpty` proves the two tests
  agree, and the class's `HandleQuestion` uses the page's own test.
- `Controller.dfy` (class `Controller.SessionController`) is the same
  controller as an object whose handlers update fields in place. Every handler
  ensures the exact new value of every field it changes. It also ensures
  `Snapshot() == Session.Step(old(Snapshot()), ev)` for its event, so every
  lemma about `Step` applies to the object. `Valid()` is `Session.Inv` of the
  snapshot. It holds after construction and every handler keeps it.

Two behaviours of the code a reader might not expect:

- When speech ends, the status text is always `"<name> is listening"`. Only the
  activity dot follows the listening flag; there is no idle text on that path.
- An unknown persona produces the word `undefined` in the reply.

Browser capabilities become inputs. Speech recognition is the constructor flag
`hasRecognizer`. When it is false, the recogniser's `result`/`end`/`error`
events have no listener, so they change nothing. Speech synthesis is the
`speaking` slot: `cancel()` empties it, `speak(text)` fills it, and the end of
an utterance empties it again.

## Model

| member | source | states |
|---|---|---|
| Text.SkipStart | app.js:72 | the cut point lies at or after the start index and is the end of the string or a non-whitespace character |
| Text.SkipEnd | app.js:72 | the cut point lies between the bounds and is the lower bound or follows a non-whitespace character |
| Text.Trim | app.js:101-102 | the result has no whitespace at either end and is no longer than the input |
| Text.SkipStartBlank | app.js:72 | every character skipped at the start is whitespace |
| Text.SkipEndBlank | app.js:72 | every character cut from the end is whitespace |
| Text.TrimSlice | app.js:101-102 | the trimmed string is the slice between the two cut points, and only whitespace lies outside it |
| Text.BlankIffTrimsToEmpty | app.js:72 | a string trims to "" exactly when every character is whitespace (both directions) |
| Text.TrimUnpadded | app.js:101-102 | trimming a string with no whitespace at either end returns it unchanged |
| Text.TrimIdempotent | app.js:101-102 | trimming an already trimmed value changes nothing |
| Text.TrimPadded | app.js:101-102 | an independent characterisation: blank padding around an unpadded core trims to exactly that core |
| Text.SkipStartPadded | app.js:72 | a run of whitespace ending at the string's end or at a non-whitespace character is skipped up to exactly that point |
| Text.SkipEndPadded | app.js:72 | a trailing run of whitespace after a non-whitespace character, or after the lower bound, is cut at exactly that point |
| Text.ConcatAppend | app.js:134-136 | joining segments distributes over splitting the segment list |
| Text.ConcatBlank | app.js:134-139 | the joined recognised text is blank exactly when every segment is blank |
| Opinion.PerspectiveTable | app.js:61-66 | the lookup succeeds exactly for the four persona keys, and each key gives its own verbatim sentence |
| Opinion.ReplyFrame | app.js:68 | the reply starts with "<name> here. Thanks for asking about \"<question>\"" and ends with ". <perspective> If you want, ask a follow-up or challenge my view."; its length is the sum of those pieces and the topic clause |
| Opinion.TopicClauseIff | app.js:59-68 | right after the quoted question comes " on <topic>" exactly when the topic is non-empty; otherwise the full stop follows directly |
| Opinion.KnownPersonaSentence | app.js:61-68 | for each of the four personas, its table sentence appears verbatim right after the first sentence's ". " |
| Opinion.SentenceInReply | app.js:66-68 | whatever the persona, the printed perspective (sentence or "undefined") stands right after the first sentence's ". " |
| Opinion.UnknownPersonaText | app.js:66-68 | an unknown persona finds no sentence, and the reply shows "undefined" in its place |
| Opinion.QuestionInjective | app.js:68 | equal replies under one configuration mean equal questions: the question can be read back from the reply |
| Opinion.PersonaInjective | app.js:61-68 | two different known personas never give the same reply to the same question |
| Opinion.LineLengths | app.js:62-65 | the four perspective sentences have four different lengths (68, 72, 80, 73) |
| Session.InitInv | app.js:9-14 | the page-load state (name "Agent", empty topic, "curious analyst", not listening, "Agent idle") satisfies the session invariant |
| Session.StepInv | app.js:71-150 | every event keeps the invariant: the name is non-empty; name and topic are trimmed; only a page with a recogniser listens; the dot is lit only while speaking or listening; the utterance being spoken is in the transcript |
| Session.ConfigureInv | app.js:99-114 | configuring keeps the invariant: the stored name is non-empty and, like the topic, trimmed |
| Session.QuestionInv | app.js:71-77 | answering a question keeps the invariant, or changes nothing |
| Session.RunInv | app.js:71-150 | every state reachable by any sequence of events satisfies the invariant |
| Session.StepAppendOnly | app.js:31-37 | no event rewrites or removes a transcript entry, and none changes the recogniser capability |
| Session.QuestionKeeps | app.js:71-77 | answering a question only appends to the transcript and keeps name, topic, persona and both flags |
| Session.RunAppendOnly | app.js:31-37 | over any sequence of events the old transcript stays a prefix of the new one |
| Session.BlankQuestionIgnored | app.js:71-72 | a question leaves the whole session unchanged (transcript, speech, status, flags) exactly when it is blank |
| Session.QuestionAnswered | app.js:71-77 | a non-blank question appends ("You", question untrimmed) then (agentName, reply), keeps earlier entries, puts exactly that reply in the speech slot, shows "<name> is speaking" active, and changes nothing else |
| Session.LatestUtteranceWins | app.js:39-55 | after two questions only the second reply is playing (replaced, not queued), and four entries were added |
| Session.ConfigureReplaces | app.js:99-114 | configuring sets the name to the trimmed name, or "Agent" when that is blank, sets topic := trimmed topic and persona := persona, appends one System notice, shows "<name> is ready" inactive, and changes no other field (listening flag and speech included); the stored name is non-empty and trimmed |
| Session.ConfigureEmptyName | app.js:101-107 | an empty name and topic with "calm skeptic" give name "Agent", topic "" and persona "calm skeptic" |
| Session.StopListeningIdempotent | app.js:91-97 | stopping twice equals stopping once; the result is not listening and shows "Agent idle" inactive |
| Session.RecognitionEndIsStop | app.js:142-145 | the recogniser's end event has exactly the state effect of stopListening |
| Session.StopClickSilences | app.js:120-123 | the stop button empties the speech slot, clears listening and shows "Agent idle", keeping the transcript |
| Session.ListeningOnlyByStart | app.js:79-89 | the flag turns on only by the listen button, and only when a recogniser exists |
| Session.ListeningExits | app.js:120-150 | the stop button and the recogniser's result, end and error events all leave the flag off |
| Session.StartListeningEffect | app.js:79-89 | without a recogniser only the status changes, to the unsupported message; with one the slot is emptied, the flag is set and "<name> is listening" is shown active |
| Session.TypedQuestionSettles | app.js:50-52 | a typed question asked while not listening ends, once spoken, with "<name> is listening" and the dot off, and nothing playing |
| Session.BlankSpeechLeftThinking | app.js:133-140 | recognised speech whose segments are all blank stops listening and leaves "<name> is thinking" inactive, changing nothing else |
| Session.SpeechAnsweredLikeText | app.js:133-140 | non-blank recognised speech is answered exactly as the joined text typed into a session that is no longer listening |
| Session.ErrorShownVerbatim | app.js:147-150 | a recogniser error shows "Voice input error: <code>" inactive and stops listening |
| Session.NovaExample | app.js:57-113 | configuring Nova / climate policy / optimistic strategist and asking "What should we do?" plays the reply with the topic clause and the optimistic sentence (stated with the named frame constants) |
| Session.NovaConfigured | app.js:99-107 | that configuration stores the name "Nova", the topic "climate policy" and the optimistic strategist persona |
| Session.QuestionSpoken | app.js:71-76 | a non-blank typed question plays the generated reply and keeps name and topic |
| Session.ExampleQuestionsNotBlank | app.js:72 | the example questions "What should we do?" and "test" are not blank |
| Session.NovaReply | app.js:57-68 | the reply to that question under that configuration, spelt out piece by piece |
| Session.DefaultExample | app.js:9-14 | the default agent answers "test" with no topic clause and the curious analyst sentence |
| Session.DefaultReply | app.js:57-68 | the default agent's reply to "test", spelt out piece by piece |
| Session.NetworkErrorExample | app.js:147-150 | listening followed by the error "network" shows "Voice input error: network" and stops listening |
| Session.RunTwo | app.js:99-150 | the page handles its events one after another: two events in a row are the two steps in order |
| Controller.SessionController.constructor | app.js:9-14 | the page-load state, status "Agent idle" inactive (app.js:153), and the invariant |
| Controller.SessionController.UpdateStatus | app.js:25-29 | only the status pair changes, to the given text and flag |
| Controller.SessionController.AddMessage | app.js:31-37 | exactly one entry is appended, and nothing else changes |
| Controller.SessionController.StopSpeaking | app.js:39-41 | only the speech slot changes, to empty |
| Controller.SessionController.Speak | app.js:43-55 | the slot holds exactly the new text (the old utterance is cancelled) and the status is "<name> is speaking" active |
| Controller.SessionController.UtteranceEnded | app.js:50-52 | status becomes ("<name> is listening", isListening), the slot empties, nothing else changes |
| Controller.SessionController.HandleQuestion | app.js:71-77 | a blank question changes nothing; otherwise the two entries, the reply in the slot and the speaking status; configuration and flag unchanged; the invariant is kept |
| Controller.SessionController.SubmitText | app.js:125-130 | the question form's submission is the question event |
| Controller.SessionController.StartListening | app.js:79-89 | the capability-gated effects of the listen button on every field |
| Controller.SessionController.StopListening | app.js:91-97 | flag off, "Agent idle" inactive, speech and transcript unchanged |
| Controller.SessionController.Stop | app.js:120-123 | slot empty, flag off, "Agent idle" inactive, configuration and transcript unchanged |
| Controller.SessionController.Configure | app.js:99-114 | the configuration submit's exact effect on every field |
| Controller.SessionController.RecognitionResult | app.js:133-140 | flag off, then the joined text is answered; a blank one leaves "<name> is thinking" |
| Controller.SessionController.RecognitionEnd | app.js:142-145 | flag off and "Agent idle" inactive; no effect without a recogniser |
| Controller.SessionController.RecognitionError | app.js:147-150 | flag off and "Voice input error: <code>" inactive; no effect without a recogniser |

## Left out

- DOM rendering: `getElementById`, the `innerHTML` message markup, `scrollTop` and the CSS class toggle of the status dot. The status is the pair `(text, active)`, and the log is the transcript sequence. HTML in a message, which `innerHTML` would interpret, is not modelled.
- Web Speech API internals: the recogniser's `lang`, `interimResults` and `continuous` settings; the utterance's `rate` and `pitch`; and the `recognition.start()` / `recognition.stop()` requests. These are calls into the browser with no state visible to the page.
- Asynchronous timing: each callback is a method the environment may call at any time. Whether `cancel()` fires the cancelled utterance's `onend` is browser behaviour. The model treats `UtteranceEnd` as the end of the utterance in the slot.
- Re-entrant `startListening` while already listening: the page does not guard it, and what the recogniser then does is browser behaviour.
- The recognition event's `results` structure: the handler receives the final transcripts as a `seq<string>`.
- `preventDefault`, listener registration, and clearing the text input field after submission.
- Persona lookup through inherited `Object.prototype` properties (for example `"toString"`): only the table's four own keys are modelled. Any other value yields `undefined`.
- JavaScript strings are UTF-16 code units, whereas Dafny characters are Unicode scalar values. `trim` only strips characters of the Basic Multilingual Plane, so this affects nothing modelled.
- Session.NovaExample: states the expected reply with the named constants `Lead`, `OptimisticLine` and `Closing` in place of the literal frame words. Equality between long literal strings is too costly for the verifier.
- Session.DefaultExample: states its reply with the named constants the same way, for the same reason.
- `Session.BlankQuestionIgnored` covers every blank question, `""` and `"   "` included.
- Speech synthesis is assumed present. Without it, `speak` and `stopSpeaking` throw at app.js:40 and 45, which would abort the handlers part way: `handleQuestion` after its two entries, the stop button before `stopListening`, and `startListening` before it sets the flag.
