/**
 * components/VoiceAgent.tsx: the first chat widget. It answers locally with a keyword
 * responder after a one-second timer, uses a one-shot speech recogniser to fill the input
 * box, and reads replies aloud.
 */
module VoiceAgent {
  import opened Strings
  import opened Chat
  import opened KeywordRules

  const Greeting: Message := Message(Assistant, "Hi! I'm Jacob's AI assistant. Ask me anything about his experience, skills, or projects. You can type or use voice!")

  const ExperienceReply := "Jacob is an AI Engineer specializing in NLP, MLOps, and agent development. He has deployed 15+ ML models to production and processed over 10 million data points. His work focuses on building intelligent systems that augment human productivity."
  const SkillsReply := "Jacob's core skills include PyTorch, TensorFlow, Transformers/NLP, LangChain, and MLOps. He's also proficient in full-stack development with React/Next.js, FastAPI, and cloud platforms like AWS and GCP."
  const ProjectReply := "One of Jacob's notable projects is the Customer Support AI Classifier, achieving 87% accuracy on 3M+ tweets. He's also built AI agents for DevTools that improved developer productivity by 40%. Check out the Projects section for more details!"
  const ContactReply := "You can contact Jacob through the Contact page on this portfolio, or schedule a meeting via his Calendly link. He's currently available for AI engineering opportunities and consulting projects."
  const EducationReply := "Jacob has a strong foundation in computer science and machine learning, with continuous learning through practical projects and staying updated with the latest AI research and technologies."
  const DefaultReply := "That's an interesting question! Jacob has extensive experience in AI/ML engineering, particularly in NLP and agent development. Feel free to ask about his specific projects, technical skills, or professional experience."

  /** `generateResponse`: the if-chain over the lower-cased question, as written. */
  function GenerateResponse(question: string): (r: string)
    ensures var q := Lower(question);
      (Contains(q, "experience") || Contains(q, "work")) ==> r == ExperienceReply
    ensures var q := Lower(question);
      (!Contains(q, "experience") && !Contains(q, "work") && !Contains(q, "skills") && !Contains(q, "project")
       && !Contains(q, "contact") && !Contains(q, "hire") && !Contains(q, "education")) ==> r == DefaultReply
  {
    var q := Lower(question);
    if Contains(q, "experience") || Contains(q, "work") then ExperienceReply
    else if Contains(q, "skills") then SkillsReply
    else if Contains(q, "project") then ProjectReply
    else if Contains(q, "contact") || Contains(q, "hire") then ContactReply
    else if Contains(q, "education") then EducationReply
    else DefaultReply
  }

  /** The same responder as an ordered rule table. */
  const Rules: seq<Rule<string>> := [
    Rule(["experience", "work"], ExperienceReply),
    Rule(["skills"], SkillsReply),
    Rule(["project"], ProjectReply),
    Rule(["contact", "hire"], ContactReply),
    Rule(["education"], EducationReply)
  ]

  /**
   * The if-chain is the first-match responder over `Rules`: the first rule with a keyword
   * in the lower-cased question answers, and the default answers when none has.
   */
  lemma {:induction false} GenerateResponseIsFirstMatch(question: string)
    ensures GenerateResponse(question) == Respond(Rules, Lower(question), DefaultReply)
  {
    var q := Lower(question);
    FiresTwo(Rules[0], q);
    FiresOne(Rules[1], q);
    FiresOne(Rules[2], q);
    FiresTwo(Rules[3], q);
    FiresOne(Rules[4], q);
    if Fires(Rules[0], q) {
      FirstMatchWins(Rules, q, DefaultReply, 0);
    } else if Fires(Rules[1], q) {
      FirstMatchWins(Rules, q, DefaultReply, 1);
    } else if Fires(Rules[2], q) {
      FirstMatchWins(Rules, q, DefaultReply, 2);
    } else if Fires(Rules[3], q) {
      FirstMatchWins(Rules, q, DefaultReply, 3);
    } else if Fires(Rules[4], q) {
      FirstMatchWins(Rules, q, DefaultReply, 4);
    } else {
      NoMatchGivesDefault(Rules, q, DefaultReply);
    }
  }

  /** The responder ignores case: a question and its lower-cased form get the same reply. */
  lemma GenerateResponseIgnoresCase(question: string)
    ensures GenerateResponse(Lower(question)) == GenerateResponse(question)
  {
    LowerIdempotent(question);
  }

  /** One recognition result: the transcript of its first alternative and its finality. */
  datatype RecognitionResult = RecognitionResult(transcript: string, isFinal: bool)

  /** `Array.from(results).map(r => r[0]).map(r => r.transcript).join('')`. */
  function JoinedTranscript(results: seq<RecognitionResult>): (r: string)
    ensures results == [] ==> r == ""
    ensures |results| == 1 ==> r == results[0].transcript
  {
    Join("", seq(|results|, i requires 0 <= i < |results| => results[i].transcript))
  }

  datatype RecognizerCall = Start | Stop

  class VoiceAgent {
    /** Whether `webkitSpeechRecognition` exists (the init effect created a recogniser). */
    const hasRecognizer: bool
    /** Whether `speechSynthesis` exists in the window. */
    const hasSynthesis: bool

    var messages: seq<Message>
    var input: string
    var isListening: bool
    var isRecording: bool
    var isSpeaking: bool
    var isProcessing: bool
    var selectedVoice: string
    /** The user texts whose one-second reply timer has not fired yet, oldest first. */
    var pendingReplies: seq<string>
    /** Calls made on the recogniser, in order. */
    ghost var recognizerCalls: seq<RecognizerCall>
    /** Texts handed to `speechSynthesis.speak`, in order. */
    ghost var spoken: seq<string>

    /**
     * The log opens with the greeting, and every user message is answered or waiting for
     * its reply timer: users = assistants - 1 + pending.
     */
    ghost predicate Valid()
      reads this
    {
      |messages| >= 1 && messages[0] == Greeting &&
      CountRole(messages, User) + 1 == CountRole(messages, Assistant) + |pendingReplies|
    }

    constructor(hasRecognizer: bool, hasSynthesis: bool)
      ensures Valid()
      ensures this.hasRecognizer == hasRecognizer && this.hasSynthesis == hasSynthesis
      ensures messages == [Greeting] && input == "" && selectedVoice == "jenny"
      ensures !isListening && !isRecording && !isSpeaking && !isProcessing
      ensures pendingReplies == [] && recognizerCalls == [] && spoken == []
    {
      this.hasRecognizer := hasRecognizer;
      this.hasSynthesis := hasSynthesis;
      messages := [Greeting];
      input := "";
      isListening, isRecording, isSpeaking, isProcessing := false, false, false, false;
      selectedVoice := "jenny";
      pendingReplies := [];
      recognizerCalls := [];
      spoken := [];
      assert [Greeting][..0] == [];
    }

    /** The input box's onChange. */
    method SetInput(value: string)
      modifies this`input
      ensures input == value
    {
      input := value;
    }

    /** The voice selector's onChange. */
    method SelectVoice(voice: string)
      modifies this`selectedVoice
      ensures selectedVoice == voice
    {
      selectedVoice := voice;
    }

    /**
     * `handleSendMessage`: refuses only a blank input. There is no guard on `isProcessing`,
     * so the Enter key can send again while a reply is pending.
     */
    method HandleSendMessage() returns (sent: bool)
      requires Valid()
      modifies this`messages, this`input, this`isProcessing, this`pendingReplies
      ensures Valid()
      ensures sent <==> !IsBlank(old(input))
      ensures sent ==> messages == old(messages) + [Message(User, old(input))] && input == ""
                       && isProcessing && pendingReplies == old(pendingReplies) + [old(input)]
      ensures !sent ==> messages == old(messages) && input == old(input)
                        && isProcessing == old(isProcessing) && pendingReplies == old(pendingReplies)
    {
      sent := Trim(input) != "";
      if sent {
        CountRoleAppend(messages, Message(User, input), User);
        CountRoleAppend(messages, Message(User, input), Assistant);
        messages := messages + [Message(User, input)];
        pendingReplies := pendingReplies + [input];
        input := "";
        isProcessing := true;
      }
    }

    /**
     * The one-second timer of the oldest pending send fires: exactly one assistant message,
     * `GenerateResponse` of that user text, is appended and `isProcessing` is cleared (even
     * if later sends are still pending); the reply is spoken when synthesis exists and a
     * voice is selected.
     */
    method ReplyTimerFires()
      requires Valid()
      modifies this`messages, this`isProcessing, this`pendingReplies, this`spoken
      ensures Valid()
      ensures old(pendingReplies) == [] ==>
        messages == old(messages) && isProcessing == old(isProcessing)
        && pendingReplies == [] && spoken == old(spoken)
      ensures old(pendingReplies) != [] ==>
        var reply := GenerateResponse(old(pendingReplies)[0]);
        && messages == old(messages) + [Message(Assistant, reply)]
        && pendingReplies == old(pendingReplies)[1..]
        && !isProcessing
        && spoken == old(spoken) + (if hasSynthesis && selectedVoice != "" then [reply] else [])
    {
      if pendingReplies != [] {
        var reply := GenerateResponse(pendingReplies[0]);
        CountRoleAppend(messages, Message(Assistant, reply), User);
        CountRoleAppend(messages, Message(Assistant, reply), Assistant);
        messages := messages + [Message(Assistant, reply)];
        pendingReplies := pendingReplies[1..];
        isProcessing := false;
        if hasSynthesis && selectedVoice != "" {
          spoken := spoken + [reply];
        }
      }
    }

    /** The utterance's onstart. */
    method UtteranceStarted()
      modifies this`isSpeaking
      ensures isSpeaking
    {
      isSpeaking := true;
    }

    /** The utterance's onend. */
    method UtteranceEnded()
      modifies this`isSpeaking
      ensures !isSpeaking
    {
      isSpeaking := false;
    }

    /**
     * `toggleListening`: flips `isListening` and `isRecording` together. Without a
     * recogniser the optional call is skipped and the flags still flip; a `start()` that
     * throws ends the handler before the flags are set.
     */
    method ToggleListening(startThrows: bool)
      modifies this`isListening, this`isRecording, this`recognizerCalls
      ensures old(isListening) ==>
        !isListening && !isRecording
        && recognizerCalls == old(recognizerCalls) + (if hasRecognizer then [Stop] else [])
      ensures !old(isListening) && hasRecognizer && startThrows ==>
        isListening == old(isListening) && isRecording == old(isRecording)
        && recognizerCalls == old(recognizerCalls) + [Start]
      ensures !old(isListening) && !(hasRecognizer && startThrows) ==>
        isListening && isRecording
        && recognizerCalls == old(recognizerCalls) + (if hasRecognizer then [Start] else [])
    {
      if isListening {
        if hasRecognizer {
          recognizerCalls := recognizerCalls + [Stop];
        }
        isListening := false;
        isRecording := false;
      } else {
        if hasRecognizer {
          recognizerCalls := recognizerCalls + [Start];
          if startThrows {
            return;
          }
        }
        isListening := true;
        isRecording := true;
      }
    }

    /**
     * The recogniser's onresult: only when the first result is final does the input box
     * receive the joined transcripts, and listening is cleared (`isRecording` is not).
     * With no results `results[0].isFinal` throws and nothing changes.
     */
    method OnResult(results: seq<RecognitionResult>)
      requires hasRecognizer
      modifies this`input, this`isListening
      ensures |results| > 0 && results[0].isFinal ==>
        input == JoinedTranscript(results) && !isListening
      ensures !(|results| > 0 && results[0].isFinal) ==>
        input == old(input) && isListening == old(isListening)
    {
      if |results| > 0 && results[0].isFinal {
        input := JoinedTranscript(results);
        isListening := false;
      }
    }

    /** The recogniser's onerror: both flags are cleared. */
    method OnError()
      requires hasRecognizer
      modifies this`isListening, this`isRecording
      ensures !isListening && !isRecording
    {
      isListening, isRecording := false, false;
    }

    /** The recogniser's onend: both flags are cleared. */
    method OnEnd()
      requires hasRecognizer
      modifies this`isListening, this`isRecording
      ensures !isListening && !isRecording
    {
      isListening, isRecording := false, false;
    }
  }
}
