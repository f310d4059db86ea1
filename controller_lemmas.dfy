/** Properties of the controller over single events and whole runs. */
module ControllerLemmas {
  import opened Types
  import opened Text
  import opened Speech
  import opened Controller

  /** Ids that increase towards `bound` are pairwise ordered along the log. */
  lemma {:induction false} IdsBelowOrdered(ms: seq<Message>, bound: nat)
    requires IdsBelow(ms, bound)
    ensures forall i :: 0 <= i < |ms| ==> ms[i].id < bound
    ensures forall i, j :: 0 <= i < j < |ms| ==> ms[i].id < ms[j].id
    decreases |ms|
  {
    if ms != [] {
      var init := ms[..|ms| - 1];
      IdsBelowOrdered(init, ms[|ms| - 1].id);
      assert forall i :: 0 <= i < |init| ==> ms[i] == init[i];
    }
  }

  /** In a well-formed session no two messages share an id and no message has
      the id the counter will hand out next. */
  lemma MessageIdsUnique(s: Session)
    requires LogWellFormed(s)
    ensures forall i, j :: 0 <= i < j < |s.messages| ==> s.messages[i].id != s.messages[j].id
    ensures forall i :: 0 <= i < |s.messages| ==> s.messages[i].id != s.nextId
  {
    IdsBelowOrdered(s.messages, s.nextId);
  }

  /** Every event keeps the session well formed and only extends the log. */
  lemma StepPreservesValid(p: Platform, s: Session, e: Event)
    ensures Valid(p, s) ==> Valid(p, Step(p, s, e))
    ensures s.messages <= Step(p, s, e).messages
  {
  }

  /** Every run keeps the session well formed. */
  lemma {:induction false} RunPreservesValid(p: Platform, s: Session, events: seq<Event>)
    requires Valid(p, s)
    ensures Valid(p, Run(p, s, events))
    decreases |events|
  {
    if events != [] {
      StepPreservesValid(p, s, events[0]);
      RunPreservesValid(p, Step(p, s, events[0]), events[1..]);
    }
  }

  /** Every session reachable from start-up has the welcome message first and
      unique ids. */
  lemma ReachableIsValid(p: Platform, events: seq<Event>)
    ensures Valid(p, Run(p, Initial(p), events))
    ensures Run(p, Initial(p), events).messages[0] == Welcome()
  {
    RunPreservesValid(p, Initial(p), events);
  }

  /** PROCESSING with nothing outstanding and no synthesis: no event changes
      that, since the microphone does nothing in PROCESSING, the text box is
      disabled, nothing can settle and no utterance exists to start or end. */
  lemma {:induction false} StuckWithoutSynthesis(p: Platform, s: Session, events: seq<Event>)
    requires Valid(p, s) && !p.synthesisAvailable
    requires s.state == Processing && s.pending == []
    ensures Run(p, s, events).state == Processing
    decreases |events|
  {
    if events != [] {
      var t := Step(p, s, events[0]);
      StepPreservesValid(p, s, events[0]);
      assert t.state == Processing && t.pending == [];
      StuckWithoutSynthesis(p, t, events[1..]);
    }
  }

  /** A reply that arrives when the browser has no synthesis leaves the session
      in PROCESSING; with nothing else outstanding, every later run stays there. */
  lemma SilentReplyStaysProcessing(p: Platform, s: Session, text: string, voices: seq<Voice>, events: seq<Event>)
    requires Valid(p, s) && !p.synthesisAvailable
    requires s.state == Processing && |s.pending| == 1
    ensures Run(p, OnReply(p, s, 0, text, voices), events).state == Processing
  {
    StuckWithoutSynthesis(p, OnReply(p, s, 0, text, voices), events);
  }

  /** Enter in LISTENING with a blank text box still logs a user message,
      whose content is empty. */
  lemma BlankSendWhileListening(s: Session)
    requires s.state == Listening && AllWhitespace(s.input)
    ensures HandleKeyDown(s, "Enter", false).messages == s.messages + [Message(s.nextId, User, "")]
    ensures HandleKeyDown(s, "Enter", false).state == Processing
  {
  }

  /** Typed text is sent from SPEAKING as well: sending is not confined to IDLE. */
  lemma SendWhileSpeaking(s: Session)
    requires s.state == Speaking && !AllWhitespace(s.input)
    ensures HandleKeyDown(s, "Enter", false).state == Processing
    ensures |HandleKeyDown(s, "Enter", false).pending| == |s.pending| + 1
  {
  }

  /** An utterance end that arrives after a stop leaves the session as the
      stop left it. */
  lemma EndAfterStopIsIdempotent(p: Platform, s: Session)
    requires p.synthesisAvailable
    ensures OnUtteranceEnd(StopSpeaking(p, s)) == StopSpeaking(p, s)
  {
  }

  /** A transcript arriving after the text was submitted refills the text box
      but does not change what was sent. */
  lemma LateTranscriptDoesNotChangeRequest(s: Session, results: seq<RecognitionResult>)
    requires s.state == Listening && !AllWhitespace(s.input) && HasAlternatives(results)
    ensures OnRecognitionResult(HandleSendMessage(s), results).pending == s.pending + [Trim(s.input)]
    ensures OnRecognitionResult(HandleSendMessage(s), results).messages
      == s.messages + [Message(s.nextId, User, Trim(s.input))]
  {
  }

  /** The text box takes typed text outside PROCESSING. */
  lemma TypeStep(p: Platform, s: Session, text: string)
    requires s.state != Processing
    ensures Step(p, s, TypeText(text)) == s.(input := text)
  {
  }

  /** Enter outside PROCESSING runs the send handler. */
  lemma EnterStep(p: Platform, s: Session)
    requires s.state != Processing
    ensures Step(p, s, PressKey("Enter", false)) == HandleSendMessage(s)
  {
  }

  /** The send button is enabled only when a click sends: it never makes a
      no-op click. */
  lemma EnabledSendLogs(p: Platform, s: Session)
    requires Enabled(p, s, ClickSend)
    ensures |Step(p, s, ClickSend).messages| == |s.messages| + 1
    ensures Step(p, s, ClickSend).state == Processing
  {
  }

  /** Two requests can be outstanding at once. While a reply is being spoken
      the user types and sends a text, which the interface allows. The old
      utterance then ends and sets IDLE although that request has not
      settled, and a second text goes out. */
  lemma SecondRequestWhileFirstOutstanding(p: Platform, s: Session, a: string, b: string)
    requires s.state == Speaking && s.utterance.Some?
    requires !AllWhitespace(a) && !AllWhitespace(b)
    ensures Enabled(p, s, TypeText(a)) && Enabled(p, s.(input := a), PressKey("Enter", false))
    ensures
      var sent := HandleKeyDown(s.(input := a), "Enter", false);
      var ended := OnUtteranceEnd(sent);
      var again := HandleKeyDown(ended.(input := b), "Enter", false);
      && sent.state == Processing && Enabled(p, sent, SpeechEnded) && ended.state == Idle
      && Enabled(p, ended, TypeText(b)) && Enabled(p, ended.(input := b), PressKey("Enter", false))
      && again.state == Processing && again.pending == s.pending + [Trim(a), Trim(b)]
  {
    var sent := HandleSendMessage(s.(input := a));
    assert sent.pending == s.pending + [Trim(a)];
    var again := HandleSendMessage(OnUtteranceEnd(sent).(input := b));
    assert again.pending == sent.pending + [Trim(b)];
  }
}
