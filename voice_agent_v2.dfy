/**
 * components/VoiceAgentV2.tsx: the chat/voice turn controller over the speech adapter.
 * A turn is begun by a handler (spoken or typed text) and completed when the request to
 * /api/assistant settles; the 2000 ms listening restart is a timer event of its own.
 */
module VoiceAgentV2 {
  import opened Common
  import opened Strings
  import opened Chat
  import opened Speech

  const CouldNotProcess := "Sorry, I could not process that."
  const EncounteredError := "Sorry, I encountered an error. Please try again."

  /** The parsed JSON of the assistant's reply: its `response` and `text` members. */
  datatype ReplyData = ReplyData(response: Option<string>, text: Option<string>)

  /**
   * How the request settles: a body that parsed (an error status still parses, as
   * `{error: ...}`, which has neither member), or a thrown `fetch`/`json()`.
   */
  datatype FetchOutcome = Answered(data: ReplyData) | Threw

  datatype Channel = Spoken | Typed

  /**
   * What the handler of a turn captured when it began: the channel, `showAudio`, the
   * adapter's `isSpeaking`/`isListening` its restart check reads later, and the voice
   * selected then, which that render's `speak` gives the reply.
   */
  datatype Turn = Turn(channel: Channel, audioOn: bool, sawSpeaking: bool, sawListening: bool,
                       voice: Option<Voice>)

  /** The request body: the text and the history reduced to role and content. */
  datatype AssistantRequest = AssistantRequest(message: string, history: seq<Message>)

  /** JavaScript truthiness of an optional string. */
  predicate Truthy(o: Option<string>) {
    o.Some? && o.value != ""
  }

  /** `data.response || data.text || 'Sorry, I could not process that.'`. */
  function AssistantContent(data: ReplyData): (r: string)
    ensures r != ""
    ensures r == CouldNotProcess || Truthy(data.response) || Truthy(data.text)
    ensures Truthy(data.response) ==> r == data.response.value
  {
    if Truthy(data.response) then data.response.value
    else if Truthy(data.text) then data.text.value
    else CouldNotProcess
  }

  /** `text` is used exactly when `response` is missing or empty. */
  lemma TextIsTheFallback(data: ReplyData)
    requires !Truthy(data.response) && Truthy(data.text)
    ensures AssistantContent(data) == data.text.value
  {
  }

  /** The assistant message a settled request produces. */
  function ReplyContent(outcome: FetchOutcome): (r: string)
    ensures r != ""
    ensures outcome.Threw? ==> r == EncounteredError
    ensures outcome.Answered? ==> r == AssistantContent(outcome.data)
  {
    match outcome
    case Answered(data) => AssistantContent(data)
    case Threw => EncounteredError
  }

  /** Messages alternate user, assistant, user, ... from the start of the log. */
  ghost predicate Alternating(ms: seq<Message>) {
    forall i :: 0 <= i < |ms| ==> ms[i].role == (if i % 2 == 0 then User else Assistant)
  }

  /** A trimmed non-empty string is not blank. */
  lemma TrimmedIsNotBlank(s: string)
    requires !IsBlank(s)
    ensures !IsBlank(Trim(s))
  {
    var t := Trim(s);
    assert !IsSpace(t[0]);
  }

  class VoiceChat {
    const speech: SpeechAdapter

    var messages: seq<Message>
    var inputValue: string
    var showChat: bool
    var showAudio: bool
    var isProcessing: bool
    /** The turn whose request has not settled yet. */
    var inFlight: Option<Turn>
    /** Pending 2000 ms restart timers, oldest first: whether each will call `startListening`. */
    var restartTimers: seq<bool>
    /** The bodies posted to /api/assistant, in order. */
    ghost var requests: seq<AssistantRequest>

    /**
     * At most one turn is in flight; the log alternates user and assistant messages,
     * so every settled turn contributed exactly two; the k-th request carries the k-th
     * user text and the log before it as history; no user message is blank.
     */
    ghost predicate Valid()
      reads this`messages, this`isProcessing, this`inFlight, this`requests, speech
    {
      && speech.Valid() && speech.hasTranscriptCallback
      && (isProcessing <==> inFlight.Some?)
      && Alternating(messages)
      && |messages| % 2 == (if isProcessing then 1 else 0)
      && |requests| == (|messages| + 1) / 2
      && (forall k :: 0 <= k < |requests| ==>
            requests[k].message == messages[2 * k].content && requests[k].history == messages[..2 * k])
      && (forall i :: 0 <= i < |messages| && messages[i].role == User ==> !IsBlank(messages[i].content))
    }

    constructor(hasRecognizer: bool, hasSynthesis: bool)
      ensures Valid() && fresh(speech)
      ensures speech.hasRecognizer == hasRecognizer && speech.hasSynthesis == hasSynthesis
      ensures messages == [] && inputValue == "" && showChat && showAudio && !isProcessing
      ensures restartTimers == [] && requests == []
    {
      speech := new SpeechAdapter(hasRecognizer, hasSynthesis, true, false);
      messages := [];
      inputValue := "";
      showChat, showAudio, isProcessing := true, true, false;
      inFlight := None;
      restartTimers := [];
      requests := [];
    }

    method SetInputValue(value: string)
      modifies this`inputValue
      ensures inputValue == value
    {
      inputValue := value;
    }

    /** `handleToggleChat`. */
    method ToggleChat()
      modifies this`showChat
      ensures showChat == !old(showChat)
    {
      showChat := !showChat;
    }

    /** Appends the user message, records the request and marks the turn in flight. */
    method Begin(content: string, turn: Turn)
      requires Valid() && !isProcessing && !IsBlank(content)
      modifies this`messages, this`isProcessing, this`inFlight, this`requests
      ensures Valid()
      ensures messages == old(messages) + [Message(User, content)]
      ensures requests == old(requests) + [AssistantRequest(content, old(messages))]
      ensures isProcessing && inFlight == Some(turn)
    {
      var k := |requests|;
      assert 2 * k == |messages|;
      messages := messages + [Message(User, content)];
      requests := requests + [AssistantRequest(content, old(messages))];
      isProcessing := true;
      inFlight := Some(turn);
      forall j | 0 <= j < |requests|
        ensures requests[j].message == messages[2 * j].content && requests[j].history == messages[..2 * j]
      {
        if j < k {
          assert messages[..2 * j] == old(messages)[..2 * j];
        } else {
          assert messages[..2 * j] == old(messages);
        }
      }
    }

    /**
     * `handleSpeechInput(text)`: refused, with no change at all, when the text is blank or
     * a turn is in flight. Otherwise listening is stopped if it was on, and the untrimmed
     * text starts a spoken turn that captured `showAudio`, `isSpeaking` and `isListening`.
     */
    method HandleSpeechInput(text: string, stopThrows: bool) returns (accepted: bool)
      requires Valid()
      modifies this, speech
      ensures Valid()
      ensures accepted <==> !IsBlank(text) && !old(isProcessing)
      ensures !accepted ==> unchanged(this) && unchanged(speech)
      ensures accepted ==>
        && messages == old(messages) + [Message(User, text)]
        && requests == old(requests) + [AssistantRequest(text, old(messages))]
        && isProcessing
        && inFlight == Some(Turn(Spoken, old(showAudio), old(speech.isSpeaking), old(speech.isListening),
                                 old(speech.selectedVoice)))
        && speech.State() == old(speech.State()).(isListening := false)
        && speech.recognizerCalls == old(speech.recognizerCalls)
                                     + (if old(speech.isListening) then [Stop] else [])
        && speech.synthesisCalls == old(speech.synthesisCalls)
        && inputValue == old(inputValue) && showChat == old(showChat) && showAudio == old(showAudio)
        && restartTimers == old(restartTimers)
    {
      if Trim(text) == "" || isProcessing {
        return false;
      }
      var turn := Turn(Spoken, showAudio, speech.isSpeaking, speech.isListening, speech.selectedVoice);
      if speech.isListening {
        speech.StopListening(stopThrows);
      }
      Begin(text, turn);
      accepted := true;
    }

    /**
     * `handleTextInput`: refused, with no change at all, when the input box is blank or a
     * turn is in flight. Otherwise the trimmed text starts a typed turn and the box is
     * cleared; the adapter is not touched.
     */
    method HandleTextInput() returns (accepted: bool)
      requires Valid()
      modifies this`messages, this`isProcessing, this`inFlight, this`requests, this`inputValue
      ensures Valid()
      ensures accepted <==> !IsBlank(old(inputValue)) && !old(isProcessing)
      ensures !accepted ==> unchanged(this)
      ensures accepted ==>
        var text := Trim(old(inputValue));
        && messages == old(messages) + [Message(User, text)]
        && requests == old(requests) + [AssistantRequest(text, old(messages))]
        && inputValue == ""
        && isProcessing
        && inFlight == Some(Turn(Typed, old(showAudio), old(speech.isSpeaking), old(speech.isListening),
                                 old(speech.selectedVoice)))
        && showChat == old(showChat) && showAudio == old(showAudio)
        && restartTimers == old(restartTimers)
    {
      if Trim(inputValue) == "" || isProcessing {
        return false;
      }
      TrimmedIsNotBlank(inputValue);
      BeginTyped(Trim(inputValue));
      accepted := true;
    }

    /** The accepted path of `handleTextInput`: the typed turn starts and the box is cleared. */
    method BeginTyped(text: string)
      requires Valid() && !isProcessing && !IsBlank(text)
      modifies this`messages, this`isProcessing, this`inFlight, this`requests, this`inputValue
      ensures Valid()
      ensures messages == old(messages) + [Message(User, text)]
      ensures requests == old(requests) + [AssistantRequest(text, old(messages))]
      ensures inputValue == "" && isProcessing
      ensures inFlight == Some(Turn(Typed, showAudio, speech.isSpeaking, speech.isListening, speech.selectedVoice))
    {
      var turn := Turn(Typed, showAudio, speech.isSpeaking, speech.isListening, speech.selectedVoice);
      Begin(text, turn);
      inputValue := "";
    }

    /**
     * The request of the turn in flight settles: exactly one assistant message is appended
     * (the reply's content, or the fixed error text when it threw) and the turn ends.
     * Only a reply that did not throw is spoken, only when the turn began with audio on,
     * and with the voice selected when the turn began. A spoken turn that began with audio
     * on schedules the restart timer, which will call `startListening` only if the adapter
     * was neither speaking nor listening when the turn began; a typed turn never does.
     */
    method ReceiveReply(outcome: FetchOutcome)
      requires Valid() && isProcessing
      modifies this, speech
      ensures Valid()
      ensures var turn := old(inFlight).value;
        var content := ReplyContent(outcome);
        var speaks := outcome.Answered? && turn.audioOn;
        && messages == old(messages) + [Message(Assistant, content)]
        && !isProcessing && inFlight == None
        && requests == old(requests)
        && speech.State() == (if speaks then SpeakStep(old(speech.State()), speech.hasSynthesis, content, turn.voice)
                              else old(speech.State()))
        && speech.synthesisCalls == old(speech.synthesisCalls)
                                    + (if speaks && speech.hasSynthesis then [Cancel] else [])
        && speech.recognizerCalls == old(speech.recognizerCalls)
        && restartTimers == old(restartTimers)
             + (if turn.channel == Spoken && turn.audioOn then [!turn.sawSpeaking && !turn.sawListening] else [])
        && inputValue == old(inputValue) && showChat == old(showChat) && showAudio == old(showAudio)
    {
      var turn := inFlight.value;
      var content := ReplyContent(outcome);
      Settle(content);
      if outcome.Answered? && turn.audioOn {
        speech.Speak(content, turn.voice);
      }
      if turn.channel == Spoken && turn.audioOn {
        restartTimers := restartTimers + [!turn.sawSpeaking && !turn.sawListening];
      }
    }

    /** Appends the assistant message and ends the turn in flight (the `finally` block's flag). */
    method Settle(content: string)
      requires Valid() && isProcessing
      modifies this`messages, this`isProcessing, this`inFlight
      ensures Valid()
      ensures messages == old(messages) + [Message(Assistant, content)]
      ensures !isProcessing && inFlight == None
    {
      var k := |requests|;
      assert |messages| == 2 * k - 1;
      messages := messages + [Message(Assistant, content)];
      forall j | 0 <= j < |requests|
        ensures requests[j].history == messages[..2 * j]
      {
        assert messages[..2 * j] == old(messages)[..2 * j];
      }
      isProcessing := false;
      inFlight := None;
    }

    /**
     * A whole typed turn with no other event in between: when accepted, the log grows by
     * exactly the user message and then the assistant message, on the success and on the
     * thrown path alike, and the turn is over.
     */
    method TypedTurn(outcome: FetchOutcome) returns (accepted: bool)
      requires Valid()
      modifies this, speech
      ensures Valid()
      ensures accepted <==> !IsBlank(old(inputValue)) && !old(isProcessing)
      ensures accepted ==>
        && messages == old(messages) + [Message(User, Trim(old(inputValue))),
                                        Message(Assistant, ReplyContent(outcome))]
        && !isProcessing && inputValue == "" && restartTimers == old(restartTimers)
        && speech.recognizerCalls == old(speech.recognizerCalls)
      ensures !accepted ==> unchanged(this) && unchanged(speech)
    {
      accepted := HandleTextInput();
      if accepted {
        ReceiveReply(outcome);
      }
    }

    /** A whole spoken turn with no other event in between; the same two messages result. */
    method SpokenTurn(text: string, stopThrows: bool, outcome: FetchOutcome) returns (accepted: bool)
      requires Valid()
      modifies this, speech
      ensures Valid()
      ensures accepted <==> !IsBlank(text) && !old(isProcessing)
      ensures accepted ==>
        && messages == old(messages) + [Message(User, text), Message(Assistant, ReplyContent(outcome))]
        && !isProcessing && !speech.isListening
        && restartTimers == old(restartTimers)
             + (if old(showAudio) then [!old(speech.isSpeaking) && !old(speech.isListening)] else [])
      ensures !accepted ==> unchanged(this) && unchanged(speech)
    {
      accepted := HandleSpeechInput(text, stopThrows);
      if accepted {
        ReceiveReply(outcome);
      }
    }

    /**
     * A typed turn during which another voice is chosen before the reply arrives: the
     * reply is still spoken with the voice selected when the turn began, while the new
     * voice stays selected for later turns.
     */
    method VoiceChangedMidTurn(voice: Voice, outcome: FetchOutcome) returns (accepted: bool)
      requires Valid()
      modifies this, speech
      ensures Valid()
      ensures accepted <==> !IsBlank(old(inputValue)) && !old(isProcessing)
      ensures accepted ==> speech.selectedVoice == Some(voice) && !isProcessing
      ensures accepted && outcome.Answered? && old(showAudio) && speech.hasSynthesis ==>
        && speech.current == Some(Utterance(ReplyContent(outcome), old(speech.selectedVoice)))
        && speech.pending == old(speech.pending) + [Utterance(ReplyContent(outcome), old(speech.selectedVoice))]
      ensures !accepted ==> unchanged(this) && unchanged(speech)
    {
      accepted := HandleTextInput();
      if accepted {
        speech.SetVoice(voice);
        ReceiveReply(outcome);
      }
    }

    /** The oldest 2000 ms restart timer fires. */
    method RestartTimerFires(startThrows: bool)
      requires Valid()
      modifies this, speech
      ensures Valid()
      ensures old(restartTimers) == [] ==> unchanged(this) && unchanged(speech)
      ensures old(restartTimers) != [] ==>
        var restarts := old(restartTimers)[0];
        && restartTimers == old(restartTimers)[1..]
        && speech.State() == (if restarts then StartListeningStep(old(speech.State()), speech.hasRecognizer, startThrows)
                              else old(speech.State()))
        && speech.recognizerCalls == old(speech.recognizerCalls)
             + (if restarts then StartCalls(old(speech.State()), speech.hasRecognizer) else [])
        && messages == old(messages) && isProcessing == old(isProcessing) && showAudio == old(showAudio)
    {
      if restartTimers != [] {
        var restarts := restartTimers[0];
        restartTimers := restartTimers[1..];
        if restarts {
          speech.StartListening(startThrows);
        }
      }
    }

    /**
     * `handleToggleAudio`: turning audio on calls `startListening`; turning it off calls
     * `stopListening` and `stopSpeaking`, after which the adapter is neither listening nor
     * speaking.
     */
    method ToggleAudio(startThrows: bool, stopThrows: bool)
      requires Valid()
      modifies this`showAudio, speech
      ensures Valid()
      ensures showAudio == !old(showAudio)
      ensures !old(showAudio) ==>
        && speech.State() == StartListeningStep(old(speech.State()), speech.hasRecognizer, startThrows)
        && speech.recognizerCalls == old(speech.recognizerCalls) + StartCalls(old(speech.State()), speech.hasRecognizer)
        && speech.synthesisCalls == old(speech.synthesisCalls)
      ensures old(showAudio) ==>
        && !speech.isListening && !speech.isSpeaking
        && speech.State() == old(speech.State()).(isListening := false, isSpeaking := false)
        && speech.recognizerCalls == old(speech.recognizerCalls) + (if speech.hasRecognizer then [Stop] else [])
        && speech.synthesisCalls == old(speech.synthesisCalls) + (if speech.hasSynthesis then [Cancel] else [])
    {
      var wasOn := showAudio;
      showAudio := !showAudio;
      if !wasOn {
        speech.StartListening(startThrows);
      } else {
        speech.StopListening(stopThrows);
        speech.StopSpeaking();
      }
    }

    /** The audio-off effect: whenever audio is off while listening, listening is stopped. */
    method AudioOffEffect(stopThrows: bool)
      requires Valid()
      modifies speech
      ensures Valid()
      ensures !showAudio ==> !speech.isListening
      ensures !showAudio && old(speech.isListening) ==>
        && speech.State() == old(speech.State()).(isListening := false)
        && speech.recognizerCalls == old(speech.recognizerCalls) + [Stop]
      ensures showAudio || !old(speech.isListening) ==> unchanged(speech)
    {
      if !showAudio && speech.isListening {
        speech.StopListening(stopThrows);
      }
    }

    /**
     * A recogniser result event, wired to `onTranscript`: the adapter delivers the joined
     * final transcripts, which start a spoken turn exactly when they are non-empty and not
     * blank and no turn is in flight.
     */
    method OnRecognitionResult(results: seq<RecognitionResult>, resultIndex: nat, stopThrows: bool)
      returns (accepted: bool)
      requires Valid() && speech.hasRecognizer
      modifies this, speech
      ensures Valid()
      ensures var text := FinalsBetween(results, resultIndex, |results|);
        && (accepted <==> !IsBlank(text) && !old(isProcessing))
        && (accepted ==> messages == old(messages) + [Message(User, text)]
                         && requests == old(requests) + [AssistantRequest(text, old(messages))])
        && (!accepted ==> messages == old(messages) && requests == old(requests)
                          && isProcessing == old(isProcessing))
        && speech.transcript == (if text == "" then old(speech.transcript) else text)
    {
      var delivered := speech.OnResult(results, resultIndex);
      accepted := false;
      if delivered.Some? {
        accepted := HandleSpeechInput(delivered.value, stopThrows);
      }
    }
  }
}
