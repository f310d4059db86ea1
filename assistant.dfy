/** The assistant component itself (src/components/AIAssistant.tsx): an object
    whose handlers update its state, text box, message log and speech channels
    step by step. Each handler is proved to leave the object in the state the
    matching function of module Controller describes, and to keep it valid. */
module Assistant {
  import opened Types
  import opened Text
  import opened Speech
  import C = Controller

  class AIAssistant {
    const recognitionAvailable: bool
    const synthesisAvailable: bool

    var state: AssistantState
    var input: string
    var messages: seq<Message>
    /** The next id to hand out, standing in for uuid. */
    var nextId: nat
    /** The text of every request sent and not yet settled. */
    var pending: seq<string>
    /** Commands issued to the recogniser and to the synthesis engine. */
    var capture: seq<C.CaptureCommand>
    var speech: seq<C.SpeechCommand>
    /** The utterance last created, if any. */
    var utterance: Option<C.Utterance>
    var toasts: seq<C.Toast>

    function Platform(): C.Platform {
      C.Platform(recognitionAvailable, synthesisAvailable)
    }

    function Snapshot(): C.Session
      reads this
    {
      C.Session(state, input, messages, nextId, pending, capture, speech, utterance, toasts)
    }

    ghost predicate Valid()
      reads this
    {
      C.Valid(Platform(), Snapshot())
    }

    /** Mounting plus the initialisation effect. */
    constructor (recognitionAvailable: bool, synthesisAvailable: bool)
      ensures this.recognitionAvailable == recognitionAvailable
      ensures this.synthesisAvailable == synthesisAvailable
      ensures Valid() && Snapshot() == C.Initial(Platform())
    {
      this.recognitionAvailable := recognitionAvailable;
      this.synthesisAvailable := synthesisAvailable;
      state := Idle;
      input := "";
      messages := [C.Welcome()];
      nextId := 1;
      pending := [];
      capture := [];
      speech := [];
      utterance := None;
      toasts := if recognitionAvailable then [] else [C.ErrorToast(C.NoRecognitionText)];
    }

    method HandleMicrophoneClick(startThrows: bool)
      requires Valid()
      modifies this`state, this`input, this`messages, this`nextId, this`pending,
               this`capture, this`speech, this`toasts
      ensures Valid()
      ensures Snapshot() == C.HandleMicrophoneClick(Platform(), old(Snapshot()), startThrows)
    {
      if state == Idle {
        StartListening(startThrows);
      } else if state == Listening {
        StopListening();
      } else if state == Speaking {
        StopSpeaking();
      }
    }

    /** `start()` on the recogniser may throw; `startThrows` says whether it does. */
    method StartListening(startThrows: bool)
      requires Valid()
      modifies this`state, this`capture, this`toasts
      ensures Valid()
      ensures Snapshot() == C.StartListening(Platform(), old(Snapshot()), startThrows)
    {
      if recognitionAvailable {
        if startThrows {
          toasts := toasts + [C.ErrorToast(C.StartFailedText)];
        } else {
          capture := capture + [C.Start];
          state := Listening;
          toasts := toasts + [C.InfoToast(C.ListeningText)];
        }
      }
    }

    method StopListening()
      requires Valid()
      modifies this`state, this`input, this`messages, this`nextId, this`pending, this`capture
      ensures Valid()
      ensures Snapshot() == C.StopListening(Platform(), old(Snapshot()))
    {
      if recognitionAvailable {
        capture := capture + [C.Stop];
        if Trim(input) != "" {
          HandleSendMessage();
        } else {
          state := Idle;
        }
      }
    }

    method StopSpeaking()
      requires Valid()
      modifies this`state, this`speech
      ensures Valid()
      ensures Snapshot() == C.StopSpeaking(Platform(), old(Snapshot()))
    {
      if synthesisAvailable {
        speech := speech + [C.Cancel];
        state := Idle;
      }
    }

    /** `voices` is what the engine lists at the time of the call. */
    method SpeakMessage(text: string, voices: seq<Voice>)
      requires Valid()
      modifies this`speech, this`utterance, this`toasts
      ensures Valid()
      ensures Snapshot() == C.SpeakMessage(Platform(), old(Snapshot()), text, voices)
    {
      if synthesisAvailable {
        speech := speech + [C.Cancel];
        var u := C.Utterance(text, ChooseVoice(voices));
        utterance := Some(u);
        speech := speech + [C.Speak(u)];
      } else {
        toasts := toasts + [C.ErrorToast(C.NoSynthesisText)];
      }
    }

    /** `handleSendMessage` up to the request it awaits. */
    method HandleSendMessage()
      requires Valid()
      modifies this`state, this`input, this`messages, this`nextId, this`pending
      ensures Valid()
      ensures Snapshot() == C.HandleSendMessage(old(Snapshot()))
    {
      if Trim(input) == "" && state != Listening {
        return;
      }
      ghost var before := Snapshot();
      var content := Trim(input);
      var userMessage := Message(nextId, User, content);
      nextId := nextId + 1;
      messages := messages + [userMessage];
      input := "";
      state := Processing;
      pending := pending + [content];
      assert Snapshot() == C.HandleSendMessage(before);
    }

    /** The request at position `k` resolves with `text`. */
    method OnReply(k: nat, text: string, voices: seq<Voice>)
      requires Valid() && k < |pending|
      modifies this`messages, this`nextId, this`pending, this`speech, this`utterance, this`toasts
      ensures Valid()
      ensures Snapshot() == C.OnReply(Platform(), old(Snapshot()), k, text, voices)
    {
      pending := pending[..k] + pending[k + 1..];
      var assistantMessage := Message(nextId, Assistant, text);
      nextId := nextId + 1;
      messages := messages + [assistantMessage];
      SpeakMessage(text, voices);
    }

    /** The request at position `k` fails. */
    method OnFailure(k: nat)
      requires Valid() && k < |pending|
      modifies this`state, this`pending, this`toasts
      ensures Valid()
      ensures Snapshot() == C.OnFailure(old(Snapshot()), k)
    {
      pending := pending[..k] + pending[k + 1..];
      toasts := toasts + [C.ErrorToast(C.ReplyFailedText)];
      state := Idle;
    }

    /** The request at position `k` was answered and its reply logged, then
        the first synthesis call threw: the catch runs after the append. */
    method OnReplySpeechThrew(k: nat, text: string)
      requires Valid() && synthesisAvailable && k < |pending|
      modifies this`state, this`messages, this`nextId, this`pending, this`toasts
      ensures Valid()
      ensures Snapshot() == C.OnReplySpeechThrew(old(Snapshot()), k, text)
    {
      pending := pending[..k] + pending[k + 1..];
      var assistantMessage := Message(nextId, Assistant, text);
      nextId := nextId + 1;
      messages := messages + [assistantMessage];
      toasts := toasts + [C.ErrorToast(C.ReplyFailedText)];
      state := Idle;
    }

    method OnRecognitionResult(results: seq<RecognitionResult>)
      requires Valid() && recognitionAvailable && HasAlternatives(results)
      modifies this`input
      ensures Valid()
      ensures Snapshot() == C.OnRecognitionResult(old(Snapshot()), results)
    {
      input := JoinTranscripts(results);
    }

    /** The recogniser's `onend` tests the state captured when it was installed,
        IDLE, so it never sends and changes nothing. */
    method OnRecognitionEnd()
      requires Valid() && recognitionAvailable
      ensures Valid()
      ensures Snapshot() == old(Snapshot())
    {
    }

    method OnUtteranceStart()
      requires Valid() && utterance.Some?
      modifies this`state
      ensures Valid()
      ensures Snapshot() == C.OnUtteranceStart(old(Snapshot()))
    {
      state := Speaking;
    }

    method OnUtteranceEnd()
      requires Valid() && utterance.Some?
      modifies this`state
      ensures Valid()
      ensures Snapshot() == C.OnUtteranceEnd(old(Snapshot()))
    {
      state := Idle;
    }

    /** The text box's `onChange`; the box is disabled in PROCESSING. */
    method HandleInputChange(value: string)
      requires Valid() && state != Processing
      modifies this`input
      ensures Valid()
      ensures Snapshot() == old(Snapshot()).(input := value)
    {
      input := value;
    }

    /** The text box's `onKeyDown`; the box is disabled in PROCESSING. */
    method HandleKeyDown(key: string, shiftKey: bool)
      requires Valid() && state != Processing
      modifies this`state, this`input, this`messages, this`nextId, this`pending
      ensures Valid()
      ensures Snapshot() == C.HandleKeyDown(old(Snapshot()), key, shiftKey)
    {
      if key == "Enter" && !shiftKey {
        HandleSendMessage();
      }
    }

    /** The send button, disabled for blank text and in PROCESSING. */
    method ClickSend()
      requires Valid() && !AllWhitespace(input) && state != Processing
      modifies this`state, this`input, this`messages, this`nextId, this`pending
      ensures Valid()
      ensures Snapshot() == C.HandleSendMessage(old(Snapshot()))
    {
      HandleSendMessage();
    }
  }

  /** A typed message: logged and sent at once, before any reply. */
  method TypedMessage() returns (assistant: AIAssistant)
    ensures fresh(assistant) && assistant.Valid() && assistant.synthesisAvailable
    ensures assistant.state == Processing && assistant.input == ""
    ensures assistant.messages == [C.Welcome(), Message(1, User, "Hello")]
    ensures assistant.pending == ["Hello"] && assistant.nextId == 2 && assistant.speech == []
  {
    assistant := new AIAssistant(true, true);
    assistant.HandleInputChange("Hello");
    assert Trim("Hello") == "Hello" by {
      assert TrimStart("Hello") == "Hello";
      assert TrimEnd("Hello") == "Hello";
    }
    assistant.HandleKeyDown("Enter", false);
  }

  /** Its reply: logged after it and spoken, the state still PROCESSING until
      the utterance starts. */
  method ReplyArrives(voices: seq<Voice>)
  {
    var assistant := TypedMessage();
    ghost var sent := assistant.messages;
    assistant.OnReply(0, "Hi there", voices);
    assert assistant.messages == sent + [Message(2, Assistant, "Hi there")];
    assert assistant.state == Processing && assistant.pending == [];
    assert assistant.speech == [C.Cancel, C.Speak(C.Utterance("Hi there", ChooseVoice(voices)))];
  }

  /** Speech that starts, is stopped from the microphone button, and whose
      end arrives afterwards: the session stays IDLE. */
  method StopThenLateEnd(assistant: AIAssistant)
    requires assistant.Valid() && assistant.synthesisAvailable && assistant.utterance.Some?
    modifies assistant
  {
    assistant.OnUtteranceStart();
    assert assistant.state == Speaking;
    assistant.HandleMicrophoneClick(false);
    assert assistant.state == Idle;
    assistant.OnUtteranceEnd();
    assert assistant.state == Idle;
  }
}
