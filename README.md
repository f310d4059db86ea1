# Voice assistant session controller, in Dafny

This project models the core of a browser chat widget, "Alex". The user talks
or types. The widget sends the text to Google's Gemini API and shows the reply.
It also speaks the reply aloud. The model covers two parts:

- **The session controller** (`src/components/AIAssistant.tsx`). It keeps a
  state of IDLE, LISTENING, PROCESSING or SPEAKING, the text box, and an
  append-only message log. Its handlers react to the microphone button, the
  text box and the send button, and to callbacks from the speech recogniser,
  the completion request and the speech utterance.
- **The completion service** (`src/services/geminiService.ts`). It builds the
  request body and turns whatever the HTTP exchange produced into reply text.
  It never rejects.

## Layout

| file | module | what it holds |
|---|---|---|
| `types.dfy` | `Types` | `AssistantState`, `Message` and `Option` (`src/types/index.ts`) |
| `text.dfy` | `Text` | JavaScript `trim` and `includes` |
| `speech.dfy` | `Speech` | the voice choice and the transcript join |
| `gemini_service.dfy` | `GeminiService` | JSON values, optional chaining, truthiness, the decoder and the request body |
| `controller.dfy` | `Controller` | one pure transition function per handler or callback, the UI enablement rules, `Step` and `Run` |
| `controller_lemmas.dfy` | `ControllerLemmas` | properties of single events and of whole runs |
| `assistant.dfy` | `Assistant` | class `AIAssistant`, whose methods update its fields step by step |

Most methods of `AIAssistant` are proved to leave the object exactly as the
matching `Controller` function says (`Snapshot() == F(old(Snapshot()))`).
Two methods have no function of their own. They match branches of `Step`:
- `HandleInputChange` matches `TypeText`: the snapshot with only the text
  box replaced.
- `OnRecognitionEnd` matches `HearingEnded`: the snapshot unchanged.

Each method also keeps the invariant `Valid()`. That invariant has three parts:

- the log starts with the welcome message;
- message ids increase along the log and stay below the counter;
- LISTENING needs a recogniser, SPEAKING needs an utterance, and an
  utterance needs synthesis.

Three client methods replay short sessions through the class:

- `TypedMessage` and `ReplyArrives`: typing "Hello" and getting the reply
  "Hi there";
- `StopThenLateEnd`: stopping speech, then receiving the utterance's end.

Outside effects are parameters of the handlers:

- whether the recogniser's `start()` throws (`startThrows`);
- the list of voices the engine reports (`voices`);
- the recognition results (`results`);
- which outstanding request settles, and with what text (`k`, `text`);
- whether the browser has recognition and synthesis (constructor arguments).

Every callback is an atomic event, and events may arrive in any order.
`Enabled` rules out only what the interface and the platform rule out:

- the text box and Enter are disabled in PROCESSING;
- the send button also needs non-blank text;
- recogniser events (a result, or the end of hearing) need a recogniser;
- a recognition result needs at least one alternative in every result;
- completions (a reply, a failure, or a reply whose speech throws) apply
  only to outstanding requests;
- a reply whose speech throws needs synthesis, because `cancel` is reached
  only when synthesis exists;
- utterance callbacks need an utterance to exist.

### What the code does, as modelled

The model follows the code as written. In several places this differs from
the protocol one might expect.

- **Typed sends are not limited to IDLE.** Enter sends from LISTENING and from
  SPEAKING. In LISTENING, blank text still goes out, as an empty user message
  (`BlankSendWhileListening`).
- **The recogniser's `onend` never sends.** It compares against the state
  captured when the callback was installed, which is IDLE.
- **Only the utterance's `onstart` sets SPEAKING.** The reply path does not.
  Without speech synthesis, a reply therefore leaves the session in
  PROCESSING with nothing outstanding. No later event leaves that state:
  the microphone does nothing in PROCESSING, the text box is disabled, and
  no utterance exists to end (`StuckWithoutSynthesis`,
  `SilentReplyStaysProcessing`).
- **An utterance's `onend` sets IDLE from any state.** That includes an old
  utterance that ends while a newer request is outstanding. A second
  request can then be sent while the first is still open
  (`SecondRequestWhileFirstOutstanding`).
- **Stopping with blank text keeps the text box as it is.** A transcript that
  arrives after a submission refills the text box. The request already sent
  keeps the text it was sent with (`LateTranscriptDoesNotChangeRequest`).
- **`fetchGeminiResponse` catches everything.** The catch of
  `handleSendMessage` can still run, in one of two ways:
  - a throw before the reply is logged: `OnFailure` logs nothing. With
    this service nothing there can be expected to throw (`uuidv4()` has
    already succeeded for the user message). The `Failed` event is kept
    on purpose as an over-approximation;
  - a throw in `speakMessage` after the reply is logged:
    `OnReplySpeechThrew` keeps the reply in the log, sets IDLE and shows
    the "Couldn't get a response" toast.
- **Reading `data.candidates` from a JSON `null` body throws a TypeError.** The
  catch block turns it into the "trouble connecting" text.
- **`text` need not be a string.** A truthy non-string value at the end of the
  extraction path (a number, `true`, an array or an object) is returned as is
  (`ReplyIsStringUnlessOtherValue`).

## Model

| member | source | states |
|---|---|---|
| Text.TrimStart | src/components/AIAssistant.tsx:158-164 | the result is the suffix of the input that starts at its first non-whitespace character, and everything removed is whitespace |
| Text.TrimEnd | src/components/AIAssistant.tsx:158-164 | the result is the prefix of the input that ends at its last non-whitespace character, and everything removed is whitespace |
| Text.Trim | src/components/AIAssistant.tsx:158-164 | `trim()` leaves no whitespace at either end and returns the empty string exactly when the input is all JavaScript whitespace, which decides the send guard |
| Text.TrimSlice | src/components/AIAssistant.tsx:164 | the logged content is one contiguous piece of the typed text, with only whitespace cut from both sides |
| Text.TrimIdempotent | src/components/AIAssistant.tsx:164 | trimming the logged content again changes nothing |
| Text.ContainsIff | src/components/AIAssistant.tsx:135 | `includes` holds exactly when the substring occurs at some position |
| Text.Contains | src/components/AIAssistant.tsx:135 | `includes` never finds a string longer than the subject, always finds the empty string, and finds the subject in itself |
| Speech.IsPreferred | src/components/AIAssistant.tsx:134-136 | a voice is preferred exactly when "Google" or "Daniel" occurs at some position of its name |
| Speech.FindPreferred | src/components/AIAssistant.tsx:134-136 | `find` gives the first voice whose name contains "Google" or "Daniel", no earlier voice matches, and it gives nothing exactly when no voice matches, including for an empty list |
| Speech.ChooseVoice | src/components/AIAssistant.tsx:133-140 | the voice set on the utterance is the first preferred voice in the list, with no preferred voice before it; none is set, leaving the engine default, exactly when no voice matches |
| Speech.JoinTranscripts | src/components/AIAssistant.tsx:53-55 | the joined transcript starts with the first result's best alternative, and it is empty exactly when every result's best alternative is empty |
| Speech.JoinTranscriptsAppend | src/components/AIAssistant.tsx:53-55 | the joined transcript of two runs of results is the first run's transcript followed by the second's, with no separator |
| Speech.JoinTranscriptsSingle | src/components/AIAssistant.tsx:53-55 | a single result contributes exactly its first alternative |
| GeminiService.Truthy | src/services/geminiService.ts:40 | the falsy values are exactly undefined, null, false, 0 and "" |
| GeminiService.Get | src/services/geminiService.ts:36-40 | a named property is read only from an object that has it; `[0]` on an array gives its first item, and nothing on an empty array; other values have no such property |
| GeminiService.OptionalChain | src/services/geminiService.ts:40 | each `?.` short-circuits to undefined on null or undefined; a value comes out only if one went in |
| GeminiService.OptionalChainAppend | src/services/geminiService.ts:40 | chaining composes: `(v?.a)?.b` reads the same as `v?.a?.b` |
| GeminiService.ExtractedText | src/services/geminiService.ts:40 | a value is extracted only from an object whose `candidates` property exists and is not null |
| GeminiService.TryBlock | src/services/geminiService.ts:9-42 | the try block returns only for an OK response with a parsed, non-null body, and what it returns is truthy |
| GeminiService.FetchGeminiResponse | src/services/geminiService.ts:8-48 | every outcome yields a response, so the service never rejects; its text is always truthy, a string text is never empty, and every throw gives the "trouble connecting" text |
| GeminiService.ThrowsExactly | src/services/geminiService.ts:14-40 | the catch path runs exactly for a transport failure, a status outside 200-299, a body that is not JSON, or a JSON `null` body |
| GeminiService.NonOkStatusYieldsTrouble | src/services/geminiService.ts:32-46 | a status outside 200-299 yields the "I'm having trouble connecting" text rather than an error |
| GeminiService.CandidateTextReturned | src/services/geminiService.ts:40 | a non-empty `candidates[0].content.parts[0].text` string is returned unchanged |
| GeminiService.MissingTextYieldsFallback | src/services/geminiService.ts:40 | a missing link on that path, a null, or an empty text yields "Sorry, I couldn't generate a response." |
| GeminiService.ReplyIsStringUnlessOtherValue | src/services/geminiService.ts:40-42 | on an OK, parsed, non-null body the reply is a string exactly when the extracted value is falsy or a string |
| GeminiService.WellFormedReplyDecoding | src/services/geminiService.ts:40 | on a well-formed answer the reply is the first part of the first candidate when that part is non-empty, and the fallback otherwise; later candidates and parts are ignored |
| GeminiService.RequestBody | src/services/geminiService.ts:19-29 | the message is found at `contents[0].parts[0].text` of the body |
| GeminiService.RequestBodyRoundTrip | src/services/geminiService.ts:19-29 | reading the body back gives the message, and the message is the only text of the only part of the only content entry |
| Controller.Initial | src/components/AIAssistant.tsx:33-67 | after initialisation the log holds exactly the welcome message, the state is IDLE, the text box is empty, a toast is shown when there is no recogniser, and the session is valid |
| Controller.AppendMessage | src/components/AIAssistant.tsx:161-169 | a new message goes at the end of the log with a fresh id, and the log stays well formed |
| Controller.HandleSendMessage | src/components/AIAssistant.tsx:157-171 | a no-op exactly when the trimmed text is empty and the state is not LISTENING; otherwise exactly one user message holding the trimmed text is logged, the text box is cleared, the state is PROCESSING and the request goes out, all before any reply |
| Controller.StartListening | src/components/AIAssistant.tsx:88-98 | LISTENING, with the recogniser started, only when a recogniser exists and `start()` does not throw; otherwise the state, the text and the log stay the same |
| Controller.StopListening | src/components/AIAssistant.tsx:102-111 | stops the recogniser; non-blank trimmed text is submitted (PROCESSING, one user message); blank text gives IDLE with the text box, the log and every other field kept |
| Controller.StopSpeaking | src/components/AIAssistant.tsx:114-119 | with synthesis, cancels output and gives IDLE, and no other field changes; without synthesis, changes nothing |
| Controller.HandleMicrophoneClick | src/components/AIAssistant.tsx:77-85 | IDLE is exactly `StartListening`, so a missing recogniser or a throwing `start()` stays IDLE with the text kept; LISTENING is exactly `StopListening`; SPEAKING is exactly `StopSpeaking`; PROCESSING changes nothing |
| Controller.SpeakMessage | src/components/AIAssistant.tsx:122-154 | with synthesis, cancels any ongoing speech and then speaks one new utterance of the text in the chosen voice; without it, an error toast; only the speech commands, the utterance and the toasts change, never the state, the text box or the log |
| Controller.OnReply | src/components/AIAssistant.tsx:175-189 | a reply appends exactly one assistant message with the reply text after the existing log, settles that request, and speaks that same text; the state is not changed |
| Controller.OnFailure | src/components/AIAssistant.tsx:190-194 | a failure before the reply is logged gives IDLE and a toast, appends no message, and keeps the user message already logged |
| Controller.OnReplySpeechThrew | src/components/AIAssistant.tsx:186-194 | when speech throws after the reply is logged, the reply stays in the log, that request settles, nothing is spoken, and the session is IDLE with the failure toast |
| Controller.OnRecognitionResult | src/components/AIAssistant.tsx:52-58 | the text box is replaced, not extended, by the joined transcript, in any state, and nothing else changes |
| Controller.OnUtteranceStart | src/components/AIAssistant.tsx:142-144 | an utterance's start sets SPEAKING from any state and changes nothing else |
| Controller.OnUtteranceEnd | src/components/AIAssistant.tsx:146-148 | an utterance's end sets IDLE from any state and changes nothing else |
| Controller.HandleKeyDown | src/components/AIAssistant.tsx:198-203 | Enter without Shift runs the send handler; any other key changes nothing |
| Controller.Enabled | src/components/AIAssistant.tsx:236-248 | the text box, Enter and the send button are shut in PROCESSING; recogniser events need a recogniser; a speech failure after the reply needs synthesis |
| Controller.Step | src/components/AIAssistant.tsx:232-264 | an event the interface shuts out changes nothing; the recogniser's end changes nothing; no event shortens the log |
| Controller.Run | src/components/AIAssistant.tsx:169-186 | the message log is append-only over any run of events |
| ControllerLemmas.IdsBelowOrdered | src/components/AIAssistant.tsx:161-169 | ids that increase towards a bound are ordered pairwise along the log and all lie below the bound |
| ControllerLemmas.MessageIdsUnique | src/components/AIAssistant.tsx:161-169 | in a well-formed session no two messages share an id, and no message has the id the counter hands out next |
| ControllerLemmas.StepPreservesValid | src/components/AIAssistant.tsx:232-264 | every event the interface lets through keeps the session valid and only extends the log |
| ControllerLemmas.RunPreservesValid | src/components/AIAssistant.tsx:232-264 | every run of events keeps the session valid |
| ControllerLemmas.ReachableIsValid | src/components/AIAssistant.tsx:33-43 | every session reachable from start-up is valid and keeps the welcome message first |
| ControllerLemmas.StuckWithoutSynthesis | src/components/AIAssistant.tsx:151-153 | without synthesis, PROCESSING with nothing outstanding is never left, whatever events follow |
| ControllerLemmas.SilentReplyStaysProcessing | src/components/AIAssistant.tsx:175-189 | without synthesis, the reply to the only outstanding request leaves the session in PROCESSING for good |
| ControllerLemmas.BlankSendWhileListening | src/components/AIAssistant.tsx:158 | in LISTENING, Enter with blank text still logs a user message, with empty content, and enters PROCESSING |
| ControllerLemmas.SendWhileSpeaking | src/components/AIAssistant.tsx:198-203 | in SPEAKING, Enter with non-blank text sends one more request |
| ControllerLemmas.EndAfterStopIsIdempotent | src/components/AIAssistant.tsx:114-148 | an utterance end that arrives after a stop leaves the session exactly as the stop left it |
| ControllerLemmas.LateTranscriptDoesNotChangeRequest | src/components/AIAssistant.tsx:52-57 | a transcript that arrives after a submission changes neither the request sent nor the logged message |
| ControllerLemmas.TypeStep | src/components/AIAssistant.tsx:236 | outside PROCESSING, typing replaces the text box and changes nothing else |
| ControllerLemmas.EnterStep | src/components/AIAssistant.tsx:198-203 | outside PROCESSING, Enter runs the send handler |
| ControllerLemmas.EnabledSendLogs | src/components/AIAssistant.tsx:246-248 | whenever the send button is enabled, a click logs exactly one message and enters PROCESSING |
| ControllerLemmas.SecondRequestWhileFirstOutstanding | src/components/AIAssistant.tsx:146-148 | from SPEAKING, the interface allows a send, then the old utterance's end (IDLE), then a second send, which leaves both requests outstanding |
| Assistant.AIAssistant.constructor | src/components/AIAssistant.tsx:33-67 | the new object is valid and equals the initial session |
| Assistant.AIAssistant.HandleMicrophoneClick | src/components/AIAssistant.tsx:77-85 | updates the object as `Controller.HandleMicrophoneClick` says and keeps it valid |
| Assistant.AIAssistant.StartListening | src/components/AIAssistant.tsx:88-98 | updates the object as `Controller.StartListening` says and keeps it valid |
| Assistant.AIAssistant.StopListening | src/components/AIAssistant.tsx:102-111 | updates the object as `Controller.StopListening` says and keeps it valid |
| Assistant.AIAssistant.StopSpeaking | src/components/AIAssistant.tsx:114-119 | updates the object as `Controller.StopSpeaking` says and keeps it valid |
| Assistant.AIAssistant.SpeakMessage | src/components/AIAssistant.tsx:122-154 | updates the object as `Controller.SpeakMessage` says: a cancel, then the new utterance, or a toast |
| Assistant.AIAssistant.HandleSendMessage | src/components/AIAssistant.tsx:157-171 | updates the object as `Controller.HandleSendMessage` says and keeps it valid |
| Assistant.AIAssistant.OnReply | src/components/AIAssistant.tsx:175-189 | updates the object as `Controller.OnReply` says and keeps it valid |
| Assistant.AIAssistant.OnFailure | src/components/AIAssistant.tsx:190-194 | updates the object as `Controller.OnFailure` says and keeps it valid |
| Assistant.AIAssistant.OnReplySpeechThrew | src/components/AIAssistant.tsx:186-194 | updates the object as `Controller.OnReplySpeechThrew` says and keeps it valid |
| Assistant.AIAssistant.OnRecognitionResult | src/components/AIAssistant.tsx:52-58 | replaces the text box with the joined transcript |
| Assistant.AIAssistant.OnRecognitionEnd | src/components/AIAssistant.tsx:60-64 | changes nothing: the callback tests the state captured at installation, IDLE, so it never sends |
| Assistant.AIAssistant.OnUtteranceStart | src/components/AIAssistant.tsx:142-144 | sets SPEAKING |
| Assistant.AIAssistant.OnUtteranceEnd | src/components/AIAssistant.tsx:146-148 | sets IDLE |
| Assistant.AIAssistant.HandleInputChange | src/components/AIAssistant.tsx:236-243 | outside PROCESSING, replaces the text box with the typed value |
| Assistant.AIAssistant.HandleKeyDown | src/components/AIAssistant.tsx:198-203 | outside PROCESSING, updates the object as `Controller.HandleKeyDown` says |
| Assistant.AIAssistant.ClickSend | src/components/AIAssistant.tsx:246-248 | with non-blank text outside PROCESSING, runs the send handler |

## Left out

- Rendering is not modelled: the JSX, the styling, scrolling to the bottom,
  and the components `VoiceButton`, `ChatMessage`, `Header`,
  `ThinkingIndicator` and `AnimatedWaves`. They hold no control logic. The
  voice button is disabled in PROCESSING, which matches the handler doing
  nothing in that state.
- Floating-point settings are not modelled: the wave animation's
  `audioLevel`, and the utterance's rate, pitch and volume.
- `src/pages/Index.tsx` is not part of this model. It preloads voices,
  probes microphone permission and shows a welcome toast on a timer, all
  browser I/O.
- uuid is a counter and timestamps are dropped. Console logging is dropped.
  Toasts are kept as a log of texts.
- The HTTP transport is not modelled: `fetch`, the API key and URL, the
  serialisation by `JSON.stringify` and the parsing by `response.json()`. The
  decoder takes the exchange's outcome as input.
- JSON numbers are integers. Floating point is not modelled; zero is the
  only falsy number.
- Member access on arrays and strings is modelled only for the property names
  the code uses (`candidates`, `content`, `parts`, `text`, `[0]`).
- React scheduling and batching are not modelled. Each handler and callback
  is one atomic step, and a handler reads the state as of its call. The stale
  closure is modelled only where it changes behaviour: the recogniser's
  `onend`.
- The recogniser's `continuous` and `interimResults` settings are not
  modelled. Each result event carries its whole list of results.
- Speech.JoinTranscripts: requires every result to have at least one
  alternative, as the platform guarantees. On an empty result the source
  callback would throw.
- Controller.OnReplySpeechThrew: models a throw at the first synthesis call
  (`cancel`). A throw later in `speakMessage` is not modelled. It would come
  after the cancel was issued or the new utterance was stored.
- Controller.OnReply: takes the reply as a string. A truthy non-string reply
  from the service is not carried into the controller.
- Utterance and recogniser error events are not modelled; the source installs
  no handler for them.
