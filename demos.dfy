/**
 * app/demos/page.tsx: the demo picker and the sentiment demo. The sentiment and confidence
 * are random draws and arrive as inputs; the keyword list is computed from the text.
 */
module Demos {
  import opened Common
  import opened Strings

  datatype Status = Interactive | ComingSoon

  datatype Demo = Demo(id: string, title: string, description: string, category: string, status: Status)

  const TextAnalysis := "text-analysis"

  const Demos: seq<Demo> := [
    Demo(TextAnalysis, "Text Sentiment Analysis", "Analyze the sentiment of any text using AI", "NLP", Interactive),
    Demo("code-generation", "Code Generation Assistant",
         "Generate code snippets from natural language descriptions", "AI Agents", ComingSoon),
    Demo("prompt-optimizer", "Prompt Optimizer", "Optimize your prompts for better AI responses", "LLM", ComingSoon),
    Demo("rag-demo", "RAG System Demo", "See how retrieval-augmented generation works", "AI Systems", ComingSoon)
  ]

  /** Only the text-analysis demo is interactive. */
  lemma OnlyTextAnalysisIsInteractive(i: nat)
    requires i < |Demos|
    ensures Demos[i].status == Interactive <==> Demos[i].id == TextAnalysis
  {
  }

  const NoKeywords: seq<string> := ["no", "keywords", "found"]

  /** The words longer than four characters, in their original order. */
  function LongWords(words: seq<string>): (r: seq<string>)
    ensures |r| <= |words|
    ensures forall w :: w in r <==> w in words && |w| > 4
  {
    if words == [] then []
    else
      var rest := LongWords(words[1..]);
      assert forall w :: w in words <==> w == words[0] || w in words[1..];
      if |words[0]| > 4 then [words[0]] + rest else rest
  }

  /** Filtering distributes over concatenation, so the keywords keep the text's word order. */
  lemma {:induction false} LongWordsAppend(xs: seq<string>, ys: seq<string>)
    ensures LongWords(xs + ys) == LongWords(xs) + LongWords(ys)
  {
    if xs == [] {
      assert xs + ys == ys;
    } else {
      assert (xs + ys)[1..] == xs[1..] + ys;
      LongWordsAppend(xs[1..], ys);
    }
  }

  /**
   * The keyword list of `analyzeSentiment`: the first three words of the lower-cased text,
   * split on white-space runs, that are longer than four characters, or the fixed
   * placeholder when there is none.
   */
  function Keywords(text: string): (r: seq<string>)
    ensures 1 <= |r| <= 3
    ensures r == NoKeywords <==> LongWords(SplitOnSpaces(Lower(text))) == []
    ensures r != NoKeywords ==> r <= LongWords(SplitOnSpaces(Lower(text)))
    ensures r != NoKeywords ==> var long := LongWords(SplitOnSpaces(Lower(text)));
      |r| == if |long| < 3 then |long| else 3
    ensures r != NoKeywords ==> forall w :: w in r ==> |w| > 4 && w in SplitOnSpaces(Lower(text))
  {
    var long := LongWords(SplitOnSpaces(Lower(text)));
    var kept := Take(long, 3);
    if |kept| > 0 then
      assert |kept[0]| > 4 by { assert kept[0] in long; }
      assert kept != NoKeywords;
      assert forall w :: w in kept ==> w in long;
      kept
    else NoKeywords
  }

  /** Keywords hold no white space. */
  lemma KeywordsHaveNoSpace(text: string)
    ensures forall w, c :: w in Keywords(text) && Keywords(text) != NoKeywords && c in w ==> !IsSpace(c)
  {
    SplitPiecesHaveNoSpace(Lower(text));
  }

  /** With three or more long words, exactly the first three are kept. */
  lemma ThreeKeywordsAtMost(text: string)
    requires |LongWords(SplitOnSpaces(Lower(text)))| >= 3
    ensures Keywords(text) == LongWords(SplitOnSpaces(Lower(text)))[..3]
  {
  }

  const Sentiments: seq<string> := ["positive", "negative", "neutral"]

  datatype Analysis = Analysis(sentiment: string, confidence: int, keywords: seq<string>)

  /** The demo picker: a click selects a demo only when it is interactive. */
  class DemosPage {
    var selectedDemo: string

    constructor()
      ensures selectedDemo == TextAnalysis
    {
      selectedDemo := TextAnalysis;
    }

    /** A demo card is clicked (coming-soon cards are disabled and do nothing). */
    method Click(i: nat)
      requires i < |Demos|
      modifies this
      ensures Demos[i].status == Interactive ==> selectedDemo == Demos[i].id
      ensures Demos[i].status != Interactive ==> selectedDemo == old(selectedDemo)
      ensures old(selectedDemo) == TextAnalysis ==> selectedDemo == TextAnalysis
    {
      if Demos[i].status == Interactive {
        selectedDemo := Demos[i].id;
      }
    }

    /** The sentiment demo is on the page exactly while the text-analysis demo is selected. */
    predicate ShowsSentimentDemo()
      reads this
    {
      selectedDemo == TextAnalysis
    }
  }

  /** The sentiment demo: the text box, the one-second simulated analysis, and its result. */
  class SentimentDemo {
    var text: string
    var result: Option<Analysis>
    var isAnalyzing: bool
    /** The text captured by the scheduled analysis, while one is pending. */
    var pending: Option<string>

    ghost predicate Valid()
      reads this
    {
      isAnalyzing <==> pending.Some?
    }

    constructor()
      ensures Valid() && text == "" && result == None && !isAnalyzing
    {
      text, result, isAnalyzing, pending := "", None, false, None;
    }

    method SetText(t: string)
      modifies this`text
      ensures text == t
    {
      text := t;
    }

    /** The analyse button: disabled while the text is empty or an analysis is running. */
    function AnalyzeEnabled(): (r: bool)
      reads this
      ensures r <==> text != "" && !isAnalyzing
    {
      text != "" && !isAnalyzing
    }

    /** `analyzeSentiment`, from the enabled button: sets the flag and schedules the analysis of the current text. */
    method Analyze() returns (started: bool)
      requires Valid()
      modifies this`isAnalyzing, this`pending
      ensures Valid()
      ensures started <==> old(AnalyzeEnabled())
      ensures started ==> isAnalyzing && pending == Some(text)
      ensures !started ==> isAnalyzing == old(isAnalyzing) && pending == old(pending)
    {
      started := AnalyzeEnabled();
      if started {
        isAnalyzing := true;
        pending := Some(text);
      }
    }

    /**
     * The one-second timer fires with a random sentiment and a rounded confidence between
     * 60 and 100. The keywords come from the text as it was when the analysis was scheduled.
     */
    method TimerFires(roll: nat, confidence: int)
      requires Valid() && pending.Some?
      requires roll < |Sentiments| && 60 <= confidence <= 100
      modifies this`result, this`isAnalyzing, this`pending
      ensures Valid() && !isAnalyzing
      ensures result == Some(Analysis(Sentiments[roll], confidence, Keywords(old(pending).value)))
    {
      var keywords := Keywords(pending.value);
      result := Some(Analysis(Sentiments[roll], confidence, keywords));
      isAnalyzing := false;
      pending := None;
    }
  }
}
