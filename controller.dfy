/** The assistant session controller of src/components/AIAssistant.tsx, as pure
    transition functions over a snapshot of everything the component keeps:
    one function per handler or callback, a predicate saying when the user
    interface lets an event through, and runs of events. The class in module
    Assistant performs the same steps in place and is proved equal to these. */
module Controller {
  import opened Types
  import opened Text
  import opened Speech

  /** Which browser capabilities exist, probed once at start-up. */
  datatype Platform = Platform(recognitionAvailable: bool, synthesisAvailable: bool)

  /** Commands sent to the recogniser and to the synthesis engine. */
  datatype CaptureCommand = Start | Stop
  datatype Utterance = Utterance(text: string, voice: Option<Voice>)
  datatype SpeechCommand = Cancel | Speak(utterance: Utterance)

  /** Toast notifications shown to the user. */
  datatype Toast = InfoToast(text: string) | ErrorToast(text: string)

  /** The component's state: the assistant state, the text box, the message
      log, the counter standing in for uuid, the requests still awaiting the
      service (the text each was sent with), the commands issued to the two
      speech channels, the utterance last created and the toasts shown. */
  datatype Session = Session(
    state: AssistantState,
    input: string,
    messages: seq<Message>,
    nextId: nat,
    pending: seq<string>,
    capture: seq<CaptureCommand>,
    speech: seq<SpeechCommand>,
    utterance: Option<Utterance>,
    toasts: seq<Toast>)

  const WelcomeText: string :=
    "Hello, I'm Alex, your personal assistant powered by Google Gemini. How can I help you today?"
  const NoRecognitionText: string := "Your browser doesn't support speech recognition"
  const ListeningText: string := "I'm listening..."
  const StartFailedText: string := "Couldn't start listening"
  const NoSynthesisText: string := "Your browser doesn't support speech synthesis"
  const ReplyFailedText: string := "Couldn't get a response"

  function Welcome(): Message {
    Message(0, Assistant, WelcomeText)
  }

  /** The ids of `ms` increase along the log and stay below `bound`. */
  ghost predicate IdsBelow(ms: seq<Message>, bound: nat) {
    ms == [] || (ms[|ms| - 1].id < bound && IdsBelow(ms[..|ms| - 1], ms[|ms| - 1].id))
  }

  /** The log starts with the welcome message and its ids are increasing and
      below the counter, hence unique and never reused. */
  ghost predicate LogWellFormed(s: Session) {
    && |s.messages| > 0 && s.messages[0] == Welcome()
    && IdsBelow(s.messages, s.nextId)
  }

  /** Listening needs a recogniser, Speaking an utterance, an utterance synthesis. */
  ghost predicate ChannelsConsistent(p: Platform, s: Session) {
    && (s.state == Listening ==> p.recognitionAvailable)
    && (s.state == Speaking ==> s.utterance.Some?)
    && (s.utterance.Some? ==> p.synthesisAvailable)
  }

  ghost predicate Valid(p: Platform, s: Session) {
    LogWellFormed(s) && ChannelsConsistent(p, s)
  }

  /** The state once the initialisation effect has run: the welcome message
      alone in the log, IDLE, an empty text box, and a toast when the browser
      has no recogniser. */
  function Initial(p: Platform): (s: Session)
    ensures Valid(p, s)
    ensures s.messages == [Welcome()] && s.state == Idle && s.input == "" && s.pending == []
    ensures s.toasts == if p.recognitionAvailable then [] else [ErrorToast(NoRecognitionText)]
  {
    Session(Idle, "", [Welcome()], 1, [], [], [], None,
            if p.recognitionAvailable then [] else [ErrorToast(NoRecognitionText)])
  }

  /** Appends a message with a fresh id at the end of the log. */
  function AppendMessage(s: Session, author: Author, content: string): (t: Session)
    ensures t.messages == s.messages + [Message(s.nextId, author, content)]
    ensures t == s.(messages := t.messages, nextId := t.nextId)
    ensures LogWellFormed(s) ==> LogWellFormed(t)
  {
    var ms := s.messages + [Message(s.nextId, author, content)];
    assert ms[..|ms| - 1] == s.messages;
    s.(messages := ms, nextId := s.nextId + 1)
  }

  /** `handleSendMessage` up to its `await`. It does nothing exactly when the
      trimmed text is empty and the state is not LISTENING; otherwise it logs
      one user message holding the trimmed text, clears the text box, enters
      PROCESSING and issues the request, all before any reply. */
  function HandleSendMessage(s: Session): (t: Session)
    ensures Trim(s.input) == "" && s.state != Listening ==> t == s
    ensures !(Trim(s.input) == "" && s.state != Listening) ==>
      && t.messages == s.messages + [Message(s.nextId, User, Trim(s.input))]
      && t.input == "" && t.state == Processing
      && t.pending == s.pending + [Trim(s.input)]
      && t.capture == s.capture && t.speech == s.speech && t.toasts == s.toasts
    ensures t.utterance == s.utterance && (t.state == s.state || t.state == Processing)
    ensures LogWellFormed(s) ==> LogWellFormed(t)
  {
    if Trim(s.input) == "" && s.state != Listening then s
    else
      var content := Trim(s.input);
      var t := AppendMessage(s, User, content);
      t.(input := "", state := Processing, pending := s.pending + [content])
  }

  /** `startListening`: LISTENING exactly when there is a recogniser and its
      `start()` does not throw; otherwise the state, the text and the log stay. */
  function StartListening(p: Platform, s: Session, startThrows: bool): (t: Session)
    ensures p.recognitionAvailable && !startThrows ==>
      && t.state == Listening && t.capture == s.capture + [Start]
      && t.toasts == s.toasts + [InfoToast(ListeningText)]
    ensures !(p.recognitionAvailable && !startThrows) ==> t.state == s.state && t.capture == s.capture
    ensures t.messages == s.messages && t.input == s.input && t.pending == s.pending
    ensures Valid(p, s) ==> Valid(p, t)
  {
    if !p.recognitionAvailable then s
    else if startThrows then s.(toasts := s.toasts + [ErrorToast(StartFailedText)])
    else s.(capture := s.capture + [Start], state := Listening,
            toasts := s.toasts + [InfoToast(ListeningText)])
  }

  /** `stopListening`: stops the recogniser, then submits a non-blank text or
      returns to IDLE with the log untouched. */
  function StopListening(p: Platform, s: Session): (t: Session)
    ensures !p.recognitionAvailable ==> t == s
    ensures p.recognitionAvailable ==> t.capture == s.capture + [Stop]
    ensures p.recognitionAvailable && Trim(s.input) != "" ==>
      && t.state == Processing && t.input == ""
      && t.messages == s.messages + [Message(s.nextId, User, Trim(s.input))]
      && t.pending == s.pending + [Trim(s.input)]
    ensures p.recognitionAvailable && Trim(s.input) == "" ==>
      t.state == Idle && t.messages == s.messages && t.pending == s.pending
    ensures p.recognitionAvailable && Trim(s.input) == "" ==> t == s.(capture := t.capture, state := Idle)
    ensures s.messages <= t.messages
    ensures Valid(p, s) ==> Valid(p, t)
  {
    if !p.recognitionAvailable then s
    else
      var stopped := s.(capture := s.capture + [Stop]);
      if Trim(s.input) != "" then HandleSendMessage(stopped) else stopped.(state := Idle)
  }

  /** `stopSpeaking`: cancels speech output and returns to IDLE, when the
      browser has synthesis at all. */
  function StopSpeaking(p: Platform, s: Session): (t: Session)
    ensures p.synthesisAvailable ==> t.state == Idle && t.speech == s.speech + [Cancel]
    ensures p.synthesisAvailable ==> t.messages == s.messages && t.pending == s.pending
    ensures !p.synthesisAvailable ==> t == s
    ensures t == s.(state := t.state, speech := t.speech)
    ensures Valid(p, s) ==> Valid(p, t)
  {
    if p.synthesisAvailable then s.(speech := s.speech + [Cancel], state := Idle) else s
  }

  /** `handleMicrophoneClick`: IDLE starts listening, LISTENING stops listening,
      SPEAKING stops speaking and PROCESSING changes nothing. */
  function HandleMicrophoneClick(p: Platform, s: Session, startThrows: bool): (t: Session)
    ensures s.state == Processing ==> t == s
    ensures s.state == Idle ==> t == StartListening(p, s, startThrows)
    ensures s.state == Idle ==>
      (t.state == Listening <==> p.recognitionAvailable && !startThrows) && t.messages == s.messages
    ensures s.state == Idle && !(p.recognitionAvailable && !startThrows) ==> t.state == Idle && t.input == s.input
    ensures s.state == Listening ==> t == StopListening(p, s)
    ensures s.state == Speaking ==> t == StopSpeaking(p, s)
    ensures s.state == Listening && p.recognitionAvailable ==>
      t.capture == s.capture + [Stop] && t.state == if Trim(s.input) == "" then Idle else Processing
    ensures s.state == Speaking && p.synthesisAvailable ==>
      t.state == Idle && t.speech == s.speech + [Cancel] && t.messages == s.messages
    ensures s.messages <= t.messages
    ensures Valid(p, s) ==> Valid(p, t)
  {
    match s.state
    case Idle => StartListening(p, s, startThrows)
    case Listening => StopListening(p, s)
    case Speaking => StopSpeaking(p, s)
    case Processing => s
  }

  /** `speakMessage`: with synthesis, cancels whatever is being spoken and then
      speaks a new utterance of `text` in the chosen voice; without, a toast.
      The state is left alone: only the utterance's start event sets SPEAKING. */
  function SpeakMessage(p: Platform, s: Session, text: string, voices: seq<Voice>): (t: Session)
    ensures p.synthesisAvailable ==>
      && t.utterance == Some(Utterance(text, ChooseVoice(voices)))
      && t.speech == s.speech + [Cancel, Speak(Utterance(text, ChooseVoice(voices)))]
      && t.toasts == s.toasts
    ensures !p.synthesisAvailable ==>
      t.speech == s.speech && t.toasts == s.toasts + [ErrorToast(NoSynthesisText)]
    ensures t.state == s.state && t.messages == s.messages && t.pending == s.pending
    ensures t == s.(speech := t.speech, utterance := t.utterance, toasts := t.toasts)
    ensures Valid(p, s) ==> Valid(p, t)
  {
    if p.synthesisAvailable then
      var u := Utterance(text, ChooseVoice(voices));
      s.(speech := s.speech + [Cancel, Speak(u)], utterance := Some(u))
    else
      s.(toasts := s.toasts + [ErrorToast(NoSynthesisText)])
  }

  /** The request at position `k` of the outstanding ones settles. */
  function Settle(pending: seq<string>, k: nat): (r: seq<string>)
    requires k < |pending|
    ensures |r| == |pending| - 1
    ensures forall i :: 0 <= i < k ==> r[i] == pending[i]
    ensures forall i :: k <= i < |r| ==> r[i] == pending[i + 1]
  {
    pending[..k] + pending[k + 1..]
  }

  /** `handleSendMessage` after its `await` resolves with `text`: exactly one
      assistant message with that text after the existing log, and speech of
      that same text; the state is not changed here. */
  function OnReply(p: Platform, s: Session, k: nat, text: string, voices: seq<Voice>): (t: Session)
    requires k < |s.pending|
    ensures t.messages == s.messages + [Message(s.nextId, Assistant, text)]
    ensures t.pending == Settle(s.pending, k)
    ensures t.state == s.state && t.input == s.input
    ensures p.synthesisAvailable ==>
      && t.utterance == Some(Utterance(text, ChooseVoice(voices)))
      && t.speech == s.speech + [Cancel, Speak(Utterance(text, ChooseVoice(voices)))]
    ensures Valid(p, s) ==> Valid(p, t)
  {
    var logged := AppendMessage(s, Assistant, text).(pending := Settle(s.pending, k));
    SpeakMessage(p, logged, text, voices)
  }

  /** The catch of `handleSendMessage`: a toast and IDLE; no assistant message
      is logged and the user message already logged stays. */
  function OnFailure(s: Session, k: nat): (t: Session)
    requires k < |s.pending|
    ensures t.state == Idle && t.messages == s.messages
    ensures t.pending == Settle(s.pending, k)
    ensures t.toasts == s.toasts + [ErrorToast(ReplyFailedText)]
    ensures t == s.(state := Idle, pending := t.pending, toasts := t.toasts)
  {
    s.(pending := Settle(s.pending, k), toasts := s.toasts + [ErrorToast(ReplyFailedText)], state := Idle)
  }

  /** The catch of `handleSendMessage` entered from `speakMessage`, after the
      reply was logged: the first synthesis call, `cancel`, throws. The reply
      stays in the log, nothing is spoken, and the session is IDLE with the
      failure toast. */
  function OnReplySpeechThrew(s: Session, k: nat, text: string): (t: Session)
    requires k < |s.pending|
    ensures t.messages == s.messages + [Message(s.nextId, Assistant, text)]
    ensures t.pending == Settle(s.pending, k)
    ensures t.state == Idle && t.toasts == s.toasts + [ErrorToast(ReplyFailedText)]
    ensures t.speech == s.speech && t.utterance == s.utterance && t.input == s.input
    ensures LogWellFormed(s) ==> LogWellFormed(t)
  {
    OnFailure(AppendMessage(s, Assistant, text), k)
  }

  /** The recogniser's `onresult`: the text box is replaced, not extended, by
      the event's joined transcript, in whatever state the session is. */
  function OnRecognitionResult(s: Session, results: seq<RecognitionResult>): (t: Session)
    requires HasAlternatives(results)
    ensures t.input == JoinTranscripts(results)
    ensures t == s.(input := t.input)
  {
    s.(input := JoinTranscripts(results))
  }

  /** An utterance's `onstart` and `onend`: SPEAKING and IDLE, from any state. */
  function OnUtteranceStart(s: Session): (t: Session)
    requires s.utterance.Some?
    ensures t.state == Speaking && t == s.(state := t.state)
  {
    s.(state := Speaking)
  }

  function OnUtteranceEnd(s: Session): (t: Session)
    ensures t.state == Idle && t == s.(state := t.state)
  {
    s.(state := Idle)
  }

  /** `handleKeyDown`: Enter without Shift submits; any other key does nothing. */
  function HandleKeyDown(s: Session, key: string, shiftKey: bool): (t: Session)
    ensures key != "Enter" || shiftKey ==> t == s
    ensures key == "Enter" && !shiftKey ==> t == HandleSendMessage(s)
  {
    if key == "Enter" && !shiftKey then HandleSendMessage(s) else s
  }

  /** Everything that can happen to the component. */
  datatype Event =
    | ClickMic(startThrows: bool)
    | TypeText(value: string)
    | PressKey(key: string, shiftKey: bool)
    | ClickSend
    | Heard(results: seq<RecognitionResult>)
    | HearingEnded
    | Replied(request: nat, text: string, voices: seq<Voice>)
    | RepliedSpeechThrew(request: nat, text: string)
    | Failed(request: nat)
    | SpeechStarted
    | SpeechEnded

  /** When an event can occur: the text box and Enter only outside PROCESSING,
      the send button also only with non-blank text, recogniser callbacks only
      with a recogniser, completions only of outstanding requests, utterance
      callbacks only once an utterance exists. The microphone button is
      disabled in PROCESSING, where its handler does nothing anyway. */
  predicate Enabled(p: Platform, s: Session, e: Event)
    ensures s.state == Processing && (e.TypeText? || e.PressKey? || e.ClickSend?) ==> !Enabled(p, s, e)
    ensures !p.recognitionAvailable && (e.Heard? || e.HearingEnded?) ==> !Enabled(p, s, e)
    ensures !p.synthesisAvailable && e.RepliedSpeechThrew? ==> !Enabled(p, s, e)
  {
    match e
    case ClickMic(_) => true
    case TypeText(_) => s.state != Processing
    case PressKey(_, _) => s.state != Processing
    case ClickSend => Trim(s.input) != "" && s.state != Processing
    case Heard(results) => p.recognitionAvailable && HasAlternatives(results)
    case HearingEnded => p.recognitionAvailable
    case Replied(k, _, _) => k < |s.pending|
    case RepliedSpeechThrew(k, _) => k < |s.pending| && p.synthesisAvailable
    case Failed(k) => k < |s.pending|
    case SpeechStarted => s.utterance.Some?
    case SpeechEnded => s.utterance.Some?
  }

  /** One event; a disabled one does not happen. The recogniser's `onend`
      changes nothing: it tests the state captured when the callback was
      installed, which is IDLE, so it never sends. */
  function Step(p: Platform, s: Session, e: Event): (t: Session)
    ensures e.HearingEnded? ==> t == s
    ensures !Enabled(p, s, e) ==> t == s
    ensures s.messages <= t.messages
  {
    if !Enabled(p, s, e) then s
    else match e
      case ClickMic(startThrows) => HandleMicrophoneClick(p, s, startThrows)
      case TypeText(value) => s.(input := value)
      case PressKey(key, shiftKey) => HandleKeyDown(s, key, shiftKey)
      case ClickSend => HandleSendMessage(s)
      case Heard(results) => OnRecognitionResult(s, results)
      case HearingEnded => s
      case Replied(k, text, voices) => OnReply(p, s, k, text, voices)
      case RepliedSpeechThrew(k, text) => OnReplySpeechThrew(s, k, text)
      case Failed(k) => OnFailure(s, k)
      case SpeechStarted => OnUtteranceStart(s)
      case SpeechEnded => OnUtteranceEnd(s)
  }

  function Run(p: Platform, s: Session, events: seq<Event>): (t: Session)
    ensures s.messages <= t.messages
    decreases |events|
  {
    if events == [] then s else Run(p, Step(p, s, events[0]), events[1..])
  }
}
