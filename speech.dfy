/**
 * hooks/useSpeech.ts: the adapter over the browser's speech recogniser and speech
 * synthesiser. Platform events (recogniser start/result/error/end, utterance
 * start/end/error, the 100 ms speak timer) are methods; calls the adapter makes on the
 * platform are recorded in ghost logs.
 */
module Speech {
  import opened Common
  import opened Strings

  const NotSupported := "Speech recognition not supported in this browser"
  const StartFailed := "Failed to start listening"
  const RecognitionErrorPrefix := "Speech recognition error: "

  datatype Voice = Voice(name: string, lang: string)

  /** A `SpeechSynthesisUtterance`: its text and the voice fixed when it was built. */
  datatype Utterance = Utterance(text: string, voice: Option<Voice>)

  /** One entry of `event.results`: the first alternative's transcript and its finality. */
  datatype RecognitionResult = RecognitionResult(transcript: string, isFinal: bool)

  datatype RecognizerCall = Start | Stop
  datatype SynthesisCall = Cancel | SpeakUtterance(utterance: Utterance)

  predicate IsEnglish(v: Voice) {
    "en-" <= v.lang
  }

  /** `voices.find(v => v.lang.startsWith('en-'))`. */
  function FirstEnglish(voices: seq<Voice>): (r: Option<Voice>)
    ensures r.Some? ==> r.value in voices && IsEnglish(r.value)
  {
    if voices == [] then None
    else if IsEnglish(voices[0]) then Some(voices[0])
    else FirstEnglish(voices[1..])
  }

  /** The default voice: the first English one, else the first one, else none. */
  function DefaultVoice(voices: seq<Voice>): (r: Option<Voice>)
    ensures r.None? <==> voices == []
    ensures r.Some? ==> r.value in voices
  {
    match FirstEnglish(voices)
    case Some(v) => Some(v)
    case None => if voices == [] then None else Some(voices[0])
  }

  lemma {:induction false} FirstEnglishIsFirst(voices: seq<Voice>, i: nat)
    requires i < |voices| && IsEnglish(voices[i])
    requires forall j :: 0 <= j < i ==> !IsEnglish(voices[j])
    ensures FirstEnglish(voices) == Some(voices[i])
  {
    if i > 0 {
      assert !IsEnglish(voices[0]);
      FirstEnglishIsFirst(voices[1..], i - 1);
    }
  }

  lemma {:induction false} FirstEnglishNone(voices: seq<Voice>)
    requires forall j :: 0 <= j < |voices| ==> !IsEnglish(voices[j])
    ensures FirstEnglish(voices) == None
  {
    if voices != [] {
      FirstEnglishNone(voices[1..]);
    }
  }

  /** The voice at `i` is chosen exactly when it is the first English voice. */
  lemma DefaultVoicePrefersEnglish(voices: seq<Voice>, i: nat)
    requires i < |voices| && IsEnglish(voices[i])
    requires forall j :: 0 <= j < i ==> !IsEnglish(voices[j])
    ensures DefaultVoice(voices) == Some(voices[i])
  {
    FirstEnglishIsFirst(voices, i);
  }

  /** With no English voice the first voice is chosen. */
  lemma DefaultVoiceWithoutEnglish(voices: seq<Voice>)
    requires voices != []
    requires forall j :: 0 <= j < |voices| ==> !IsEnglish(voices[j])
    ensures DefaultVoice(voices) == Some(voices[0])
  {
    FirstEnglishNone(voices);
  }

  /** The final transcripts of `results[lo..hi]`, concatenated in order. */
  function FinalsBetween(results: seq<RecognitionResult>, lo: nat, hi: nat): (r: string)
    requires hi <= |results|
    ensures hi <= lo ==> r == ""
    decreases hi
  {
    if hi <= lo then ""
    else FinalsBetween(results, lo, hi - 1)
         + (if results[hi - 1].isFinal then results[hi - 1].transcript else "")
  }

  /** Interim results contribute nothing. */
  lemma {:induction false} InterimOnlyGivesNothing(results: seq<RecognitionResult>, lo: nat, hi: nat)
    requires hi <= |results|
    requires forall k :: lo <= k < hi ==> !results[k].isFinal
    ensures FinalsBetween(results, lo, hi) == ""
    decreases hi
  {
    if hi > lo {
      InterimOnlyGivesNothing(results, lo, hi - 1);
    }
  }

  /** A single final result among interim ones yields exactly its transcript. */
  lemma {:induction false} SingleFinalGivesItsTranscript(results: seq<RecognitionResult>, lo: nat, hi: nat, k: nat)
    requires hi <= |results| && lo <= k < hi && results[k].isFinal
    requires forall j :: lo <= j < hi && j != k ==> !results[j].isFinal
    ensures FinalsBetween(results, lo, hi) == results[k].transcript
    decreases hi
  {
    if hi - 1 == k {
      InterimOnlyGivesNothing(results, lo, k);
    } else {
      SingleFinalGivesItsTranscript(results, lo, hi - 1, k);
    }
  }

  /** The accumulation loop of onresult, from `resultIndex` to the end of the list. */
  method FinalTranscript(results: seq<RecognitionResult>, resultIndex: nat) returns (text: string)
    ensures text == FinalsBetween(results, resultIndex, |results|)
  {
    text := "";
    var i := resultIndex;
    while i < |results|
      invariant resultIndex <= i
      invariant i <= |results| ==> text == FinalsBetween(results, resultIndex, i)
      invariant i > |results| ==> i == resultIndex && text == ""
    {
      if results[i].isFinal {
        text := text + results[i].transcript;
      }
      i := i + 1;
    }
  }

  /** The adapter's React state and refs, as one value. */
  datatype AdapterState = AdapterState(
    isListening: bool,
    isSpeaking: bool,
    transcript: string,
    availableVoices: seq<Voice>,
    selectedVoice: Option<Voice>,
    error: Option<string>,
    current: Option<Utterance>,
    pending: seq<Utterance>)

  /**
   * The state after `startListening`: without a recogniser or while listening nothing
   * changes; otherwise the transcript is cleared, and a throwing `start()` records
   * "Failed to start listening". `isListening` is never set here.
   */
  function StartListeningStep(s: AdapterState, hasRecognizer: bool, startThrows: bool): (r: AdapterState)
    ensures r.isListening == s.isListening && r.isSpeaking == s.isSpeaking
  {
    if hasRecognizer && !s.isListening then
      s.(transcript := "", error := if startThrows then Some(StartFailed) else s.error)
    else s
  }

  /** The recogniser calls `startListening` makes: one `start()` when its guard passes. */
  function StartCalls(s: AdapterState, hasRecognizer: bool): seq<RecognizerCall> {
    if hasRecognizer && !s.isListening then [Start] else []
  }

  /**
   * The state after `speak(text)`, where `voice` is the `selectedVoice` of the render that
   * created this `speak` (it is memoised on `[selectedVoice]`): with a synthesiser, one
   * utterance of `text` carrying that voice becomes current and is queued; nothing else
   * changes, and the selection itself is left alone.
   */
  function SpeakStep(s: AdapterState, hasSynthesis: bool, text: string, voice: Option<Voice>): (r: AdapterState)
    ensures hasSynthesis ==> r.pending == s.pending + [Utterance(text, voice)]
                             && r.current == Some(Utterance(text, voice))
    ensures !hasSynthesis ==> r == s
    ensures r.selectedVoice == s.selectedVoice
  {
    if hasSynthesis then
      var u := Utterance(text, voice);
      s.(current := Some(u), pending := s.pending + [u])
    else s
  }

  class SpeechAdapter {
    /** `SpeechRecognition` (or the webkit one) exists, so a recogniser was created. */
    const hasRecognizer: bool
    /** `speechSynthesis` exists in the window. */
    const hasSynthesis: bool
    /** The caller passed `onTranscript`. */
    const hasTranscriptCallback: bool
    /** The caller passed `onSpeechEnd`. */
    const hasSpeechEndCallback: bool

    var isListening: bool
    var isSpeaking: bool
    var transcript: string
    var availableVoices: seq<Voice>
    var selectedVoice: Option<Voice>
    var error: Option<string>
    /** `synthesisRef.current`: the most recently built utterance. */
    var current: Option<Utterance>
    /** Utterances whose 100 ms speak timer has not fired yet, oldest first. */
    var pending: seq<Utterance>
    ghost var recognizerCalls: seq<RecognizerCall>
    ghost var synthesisCalls: seq<SynthesisCall>

    ghost function State(): AdapterState
      reads this
    {
      AdapterState(isListening, isSpeaking, transcript, availableVoices, selectedVoice,
                   error, current, pending)
    }

    /**
     * Without a recogniser the error says so and listening never starts; without a
     * synthesiser nothing is ever spoken.
     */
    ghost predicate Valid()
      reads this
    {
      (!hasRecognizer ==> error == Some(NotSupported) && !isListening) &&
      (!hasSynthesis ==> !isSpeaking && current == None && pending == [])
    }

    /** The hook's first render and its recogniser-initialising effect. */
    constructor(hasRecognizer: bool, hasSynthesis: bool,
                hasTranscriptCallback: bool, hasSpeechEndCallback: bool)
      ensures Valid()
      ensures this.hasRecognizer == hasRecognizer && this.hasSynthesis == hasSynthesis
      ensures this.hasTranscriptCallback == hasTranscriptCallback
      ensures this.hasSpeechEndCallback == hasSpeechEndCallback
      ensures State() == AdapterState(false, false, "", [], None,
                                       if hasRecognizer then None else Some(NotSupported),
                                       None, [])
      ensures recognizerCalls == [] && synthesisCalls == []
    {
      this.hasRecognizer := hasRecognizer;
      this.hasSynthesis := hasSynthesis;
      this.hasTranscriptCallback := hasTranscriptCallback;
      this.hasSpeechEndCallback := hasSpeechEndCallback;
      isListening, isSpeaking := false, false;
      transcript := "";
      availableVoices := [];
      selectedVoice := None;
      error := if hasRecognizer then None else Some(NotSupported);
      current := None;
      pending := [];
      recognizerCalls := [];
      synthesisCalls := [];
    }

    /**
     * `loadVoices`, run on mount and on every `voiceschanged` event: the list is stored and
     * the default voice selected; with no voices the selection is left as it was.
     */
    method LoadVoices(voices: seq<Voice>)
      requires Valid() && hasSynthesis
      modifies this
      ensures Valid()
      ensures State() == old(State()).(availableVoices := voices,
                                       selectedVoice := if voices == [] then old(selectedVoice)
                                                        else DefaultVoice(voices))
      ensures recognizerCalls == old(recognizerCalls) && synthesisCalls == old(synthesisCalls)
    {
      availableVoices := voices;
      var d := DefaultVoice(voices);
      if d.Some? {
        selectedVoice := d;
      }
    }

    /**
     * `startListening`: a no-op without a recogniser or while listening. Otherwise the
     * transcript is cleared and `start()` called; `isListening` only turns true on the
     * recogniser's onstart. A throwing `start()` records the error.
     */
    method StartListening(startThrows: bool)
      requires Valid()
      modifies this
      ensures Valid()
      ensures State() == StartListeningStep(old(State()), hasRecognizer, startThrows)
      ensures recognizerCalls == old(recognizerCalls) + StartCalls(old(State()), hasRecognizer)
      ensures synthesisCalls == old(synthesisCalls)
    {
      if hasRecognizer && !isListening {
        transcript := "";
        recognizerCalls := recognizerCalls + [Start];
        if startThrows {
          error := Some(StartFailed);
        }
      }
    }

    /**
     * `stopListening`: with a recogniser, `stop()` is called and `isListening` is false
     * afterwards whether or not `stop()` threw; a second call changes no state.
     */
    method StopListening(stopThrows: bool)
      requires Valid()
      modifies this
      ensures Valid()
      ensures !isListening
      ensures State() == old(State()).(isListening := false)
      ensures recognizerCalls == old(recognizerCalls) + (if hasRecognizer then [Stop] else [])
      ensures synthesisCalls == old(synthesisCalls)
    {
      if hasRecognizer {
        recognizerCalls := recognizerCalls + [Stop];
        isListening := false;
      }
    }

    /**
     * `speak`, as created by the render whose `selectedVoice` was `voice`: with a
     * synthesiser, playback is cancelled and exactly one new utterance of `text`, carrying
     * that voice, is built and queued behind the 100 ms timer. A caller in the current
     * render passes `selectedVoice`; a handler still running from an earlier render passes
     * the voice that render saw.
     */
    method Speak(text: string, voice: Option<Voice>)
      requires Valid()
      modifies this
      ensures Valid()
      ensures State() == SpeakStep(old(State()), hasSynthesis, text, voice)
      ensures synthesisCalls == old(synthesisCalls) + (if hasSynthesis then [Cancel] else [])
      ensures recognizerCalls == old(recognizerCalls)
    {
      if hasSynthesis {
        var u := Utterance(text, voice);
        synthesisCalls := synthesisCalls + [Cancel];
        current := Some(u);
        pending := pending + [u];
      }
    }

    /** The oldest 100 ms speak timer fires and hands its utterance to the synthesiser. */
    method SpeakTimerFires()
      requires Valid()
      modifies this
      ensures Valid()
      ensures old(pending) == [] ==> State() == old(State()) && synthesisCalls == old(synthesisCalls)
      ensures old(pending) != [] ==>
        && State() == old(State()).(pending := old(pending)[1..])
        && synthesisCalls == old(synthesisCalls) + [SpeakUtterance(old(pending)[0])]
      ensures recognizerCalls == old(recognizerCalls)
    {
      if pending != [] {
        synthesisCalls := synthesisCalls + [SpeakUtterance(pending[0])];
        pending := pending[1..];
      }
    }

    /** `stopSpeaking`: cancels playback and clears `isSpeaking`. */
    method StopSpeaking()
      requires Valid()
      modifies this
      ensures Valid()
      ensures !isSpeaking
      ensures State() == old(State()).(isSpeaking := false)
      ensures synthesisCalls == old(synthesisCalls) + (if hasSynthesis then [Cancel] else [])
      ensures recognizerCalls == old(recognizerCalls)
    {
      if hasSynthesis {
        synthesisCalls := synthesisCalls + [Cancel];
        isSpeaking := false;
      }
    }

    /** `setVoice`: only the selection changes; utterances already built keep their voice. */
    method SetVoice(voice: Voice)
      requires Valid()
      modifies this
      ensures Valid()
      ensures State() == old(State()).(selectedVoice := Some(voice))
      ensures recognizerCalls == old(recognizerCalls) && synthesisCalls == old(synthesisCalls)
    {
      selectedVoice := Some(voice);
    }

    /**
     * `stopListening` called twice: the state is the one a single call leaves, and the
     * recogniser gets one `stop()` per call.
     */
    method StopListeningTwice(firstThrows: bool, secondThrows: bool)
      requires Valid()
      modifies this
      ensures Valid()
      ensures State() == old(State()).(isListening := false)
      ensures recognizerCalls == old(recognizerCalls) + (if hasRecognizer then [Stop, Stop] else [])
      ensures synthesisCalls == old(synthesisCalls)
    {
      StopListening(firstThrows);
      StopListening(secondThrows);
    }

    /**
     * `speak` followed by `setVoice`: the utterance already built and queued keeps the voice
     * that was selected when it was built; only later utterances get the new voice.
     */
    method SpeakThenSetVoice(text: string, voice: Voice)
      requires Valid() && hasSynthesis
      modifies this
      ensures Valid()
      ensures selectedVoice == Some(voice)
      ensures current == Some(Utterance(text, old(selectedVoice)))
      ensures pending == old(pending) + [Utterance(text, old(selectedVoice))]
      ensures synthesisCalls == old(synthesisCalls) + [Cancel]
    {
      Speak(text, selectedVoice);
      SetVoice(voice);
    }

    /** The recogniser's onstart: listening, and any earlier error cleared. */
    method OnStart()
      requires Valid() && hasRecognizer
      modifies this
      ensures Valid()
      ensures State() == old(State()).(isListening := true, error := None)
      ensures recognizerCalls == old(recognizerCalls) && synthesisCalls == old(synthesisCalls)
    {
      isListening := true;
      error := None;
    }

    /**
     * The recogniser's onresult: the final transcripts from `resultIndex` on are joined;
     * when that text is non-empty it becomes `transcript` and is delivered to
     * `onTranscript` once. Interim-only events change nothing.
     */
    method OnResult(results: seq<RecognitionResult>, resultIndex: nat) returns (delivered: Option<string>)
      requires Valid() && hasRecognizer
      modifies this
      ensures Valid()
      ensures var text := FinalsBetween(results, resultIndex, |results|);
        && (text == "" ==> State() == old(State()) && delivered == None)
        && (text != "" ==> State() == old(State()).(transcript := text)
                           && delivered == (if hasTranscriptCallback then Some(text) else None))
      ensures recognizerCalls == old(recognizerCalls) && synthesisCalls == old(synthesisCalls)
    {
      var text := FinalTranscript(results, resultIndex);
      delivered := None;
      if text != "" {
        transcript := text;
        if hasTranscriptCallback {
          delivered := Some(text);
        }
      }
    }

    /**
     * The recogniser's onerror: "aborted" and "no-speech" only clear `isListening`; any
     * other code also records "Speech recognition error: <code>".
     */
    method OnError(code: string)
      requires Valid() && hasRecognizer
      modifies this
      ensures Valid()
      ensures code == "aborted" || code == "no-speech" ==>
        State() == old(State()).(isListening := false)
      ensures code != "aborted" && code != "no-speech" ==>
        State() == old(State()).(isListening := false, error := Some(RecognitionErrorPrefix + code))
      ensures recognizerCalls == old(recognizerCalls) && synthesisCalls == old(synthesisCalls)
    {
      if code == "aborted" || code == "no-speech" {
        isListening := false;
        return;
      }
      error := Some(RecognitionErrorPrefix + code);
      isListening := false;
    }

    /** The recogniser's onend: clears `isListening` and calls `onSpeechEnd` when given. */
    method OnEnd() returns (speechEndFired: bool)
      requires Valid() && hasRecognizer
      modifies this
      ensures Valid()
      ensures State() == old(State()).(isListening := false)
      ensures speechEndFired == hasSpeechEndCallback
      ensures recognizerCalls == old(recognizerCalls) && synthesisCalls == old(synthesisCalls)
    {
      isListening := false;
      speechEndFired := hasSpeechEndCallback;
    }

    /** An utterance's onstart: the only place `isSpeaking` turns true. */
    method OnUtteranceStart()
      requires Valid() && hasSynthesis
      modifies this
      ensures Valid()
      ensures State() == old(State()).(isSpeaking := true)
      ensures recognizerCalls == old(recognizerCalls) && synthesisCalls == old(synthesisCalls)
    {
      isSpeaking := true;
    }

    /** An utterance's onend. */
    method OnUtteranceEnd()
      requires Valid() && hasSynthesis
      modifies this
      ensures Valid()
      ensures State() == old(State()).(isSpeaking := false)
      ensures recognizerCalls == old(recognizerCalls) && synthesisCalls == old(synthesisCalls)
    {
      isSpeaking := false;
    }

    /**
     * An utterance's onerror: `isSpeaking` is cleared; the error is logged unless it is
     * "canceled" or "interrupted".
     */
    method OnUtteranceError(code: string) returns (logged: bool)
      requires Valid() && hasSynthesis
      modifies this
      ensures Valid()
      ensures State() == old(State()).(isSpeaking := false)
      ensures logged <==> code != "canceled" && code != "interrupted"
      ensures recognizerCalls == old(recognizerCalls) && synthesisCalls == old(synthesisCalls)
    {
      logged := code != "canceled" && code != "interrupted";
      isSpeaking := false;
    }
  }
}
