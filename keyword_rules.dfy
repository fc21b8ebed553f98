/**
 * The shape both local responders share: an ordered list of rules, each a set of
 * keywords and a reply; the first rule one of whose keywords occurs in the (lower-cased)
 * text wins, and a default reply is given when none does. The if-chains in
 * components/VoiceAgent.tsx and app/api/assistant/route.ts are proved equal to
 * instances of this table.
 */
module KeywordRules {
  import opened Strings

  datatype Rule<R> = Rule(keywords: seq<string>, reply: R)

  /** Some keyword of `rule` occurs in `text`. */
  predicate Fires<R>(rule: Rule<R>, text: string) {
    exists i :: 0 <= i < |rule.keywords| && Contains(text, rule.keywords[i])
  }

  /** The reply of the first rule that fires, or `default` when none fires. */
  function Respond<R>(rules: seq<Rule<R>>, text: string, default: R): R {
    if rules == [] then default
    else if Fires(rules[0], text) then rules[0].reply
    else Respond(rules[1..], text, default)
  }

  /** First match wins: rule `i` answers exactly when it fires and no earlier rule does. */
  lemma {:induction false} FirstMatchWins<R>(rules: seq<Rule<R>>, text: string, default: R, i: nat)
    requires i < |rules| && Fires(rules[i], text)
    requires forall j :: 0 <= j < i ==> !Fires(rules[j], text)
    ensures Respond(rules, text, default) == rules[i].reply
  {
    if i > 0 {
      assert !Fires(rules[0], text);
      FirstMatchWins(rules[1..], text, default, i - 1);
    }
  }

  /** The default reply is given when no rule fires. */
  lemma {:induction false} NoMatchGivesDefault<R>(rules: seq<Rule<R>>, text: string, default: R)
    requires forall j :: 0 <= j < |rules| ==> !Fires(rules[j], text)
    ensures Respond(rules, text, default) == default
  {
    if rules != [] {
      NoMatchGivesDefault(rules[1..], text, default);
    }
  }

  /**
   * A rule with one keyword fires exactly when that keyword occurs. This and the two below
   * unfold `Fires` for the if-chain proofs `TopicIsFirstMatch` and `GenerateResponseIsFirstMatch`.
   */
  lemma FiresOne<R>(r: Rule<R>, text: string)
    requires |r.keywords| == 1
    ensures Fires(r, text) <==> Contains(text, r.keywords[0])
  {
  }

  /** A rule with two keywords fires exactly when one of them occurs. */
  lemma FiresTwo<R>(r: Rule<R>, text: string)
    requires |r.keywords| == 2
    ensures Fires(r, text) <==> Contains(text, r.keywords[0]) || Contains(text, r.keywords[1])
  {
    if Contains(text, r.keywords[1]) {
      assert 1 < |r.keywords|;
    }
  }

  /** A rule with three keywords fires exactly when one of them occurs. */
  lemma FiresThree<R>(r: Rule<R>, text: string)
    requires |r.keywords| == 3
    ensures Fires(r, text) <==>
      Contains(text, r.keywords[0]) || Contains(text, r.keywords[1]) || Contains(text, r.keywords[2])
  {
    if Contains(text, r.keywords[1]) {
      assert 1 < |r.keywords|;
    }
    if Contains(text, r.keywords[2]) {
      assert 2 < |r.keywords|;
    }
  }
}
