/**
 * components/Hero.tsx: the typewriter that types a role, holds it, deletes it and moves on
 * to the next role. The transition is a pure step over (role index, shown text, deleting);
 * the component's timer applies it to its three state fields.
 */
module Hero {

  const Roles: seq<string> := [
    "AI Engineer",
    "GenAI Expert",
    "ML Systems Architect",
    "Computer Vision Engineer",
    "Agent Developer",
    "Automation Expert",
    "Low-Code/No-Code Specialist"
  ]

  /** Extra hold, in milliseconds, before a fully typed role starts being deleted. */
  const HoldDelay := 2000

  datatype Typewriter = Typewriter(index: nat, text: string, deleting: bool)

  /** The shown text is a prefix of the current role, and the index names a role. */
  ghost predicate Inv(t: Typewriter) {
    t.index < |Roles| && t.text <= Roles[t.index]
  }

  /**
   * One timer tick. Typing appends the role's next character; a fully typed role switches
   * to deleting; deleting drops the last character; an emptied text stops deleting and
   * moves to the next role, wrapping after the last.
   */
  function Step(t: Typewriter): (r: Typewriter)
    requires t.index < |Roles|
    ensures r.index < |Roles|
    ensures Inv(t) ==> Inv(r)
    ensures !t.deleting && |t.text| < |Roles[t.index]| ==>
      r == t.(text := Roles[t.index][..|t.text| + 1])
    ensures t.deleting && t.text != [] ==> r == t.(text := t.text[..|t.text| - 1])
    ensures t.deleting && t.text == [] ==> r == Typewriter((t.index + 1) % |Roles|, "", false)
  {
    var role := Roles[t.index];
    if !t.deleting then
      if |t.text| < |role| then t.(text := role[..|t.text| + 1])
      else t.(deleting := true)
    else if |t.text| > 0 then t.(text := t.text[..|t.text| - 1])
    else Typewriter((t.index + 1) % |Roles|, "", false)
  }

  /** A fully typed role is held, then deletion starts; the text stays as it is. */
  lemma FullRoleStartsDeleting(t: Typewriter)
    requires Inv(t) && !t.deleting && |t.text| == |Roles[t.index]|
    ensures Step(t) == t.(deleting := true)
    ensures Step(t).text == Roles[t.index]
  {
  }

  /** The wait before the tick that leaves `t`: 50 ms deleting, 100 ms typing, plus the hold. */
  function Delay(t: Typewriter): (ms: nat)
    requires t.index < |Roles|
    ensures t.deleting ==> ms == 50
    ensures !t.deleting && |t.text| < |Roles[t.index]| ==> ms == 100
    ensures !t.deleting && |t.text| >= |Roles[t.index]| ==> ms == 100 + HoldDelay
  {
    if t.deleting then 50
    else if |t.text| < |Roles[t.index]| then 100
    else 100 + HoldDelay
  }

  /** `n` ticks. */
  function Steps(t: Typewriter, n: nat): (r: Typewriter)
    requires t.index < |Roles|
    ensures r.index < |Roles|
    decreases n
  {
    if n == 0 then t else Steps(Step(t), n - 1)
  }

  lemma {:induction false} TypingPhase(i: nat, k: nat)
    requires i < |Roles| && k <= |Roles[i]|
    ensures Steps(Typewriter(i, Roles[i][..k], false), |Roles[i]| - k) == Typewriter(i, Roles[i], false)
    decreases |Roles[i]| - k
  {
    var role := Roles[i];
    if k == |role| {
      assert role[..k] == role;
    } else {
      assert Step(Typewriter(i, role[..k], false)) == Typewriter(i, role[..k + 1], false);
      TypingPhase(i, k + 1);
    }
  }

  lemma {:induction false} DeletingPhase(i: nat, k: nat)
    requires i < |Roles| && k <= |Roles[i]|
    ensures Steps(Typewriter(i, Roles[i][..k], true), k) == Typewriter(i, "", true)
  {
    var role := Roles[i];
    if k > 0 {
      assert role[..k][..k - 1] == role[..k - 1];
      assert Step(Typewriter(i, role[..k], true)) == Typewriter(i, role[..k - 1], true);
      DeletingPhase(i, k - 1);
    }
  }

  lemma {:induction false} StepsAdd(t: Typewriter, m: nat, n: nat)
    requires t.index < |Roles|
    ensures Steps(t, m + n) == Steps(Steps(t, m), n)
    decreases m
  {
    if m > 0 {
      StepsAdd(Step(t), m - 1, n);
    }
  }

  /**
   * A full cycle: from role `i` with nothing shown, 2|role| + 2 ticks type the role,
   * start deleting, delete it and arrive at the next role with nothing shown.
   */
  lemma {:induction false} FullCycle(i: nat)
    requires i < |Roles|
    ensures var n := |Roles[i]|;
            Steps(Typewriter(i, "", false), 2 * n + 2) == Typewriter((i + 1) % |Roles|, "", false)
  {
    var n := |Roles[i]|;
    var start := Typewriter(i, "", false);
    TypingFromNothing(i);
    StepsAdd(start, n, 1);
    HoldOneTick(i);
    StepsAdd(start, n + 1, n);
    DeletingAll(i);
    StepsAdd(start, 2 * n + 1, 1);
    NextRoleOneTick(i);
  }

  lemma TypingFromNothing(i: nat)
    requires i < |Roles|
    ensures Steps(Typewriter(i, "", false), |Roles[i]|) == Typewriter(i, Roles[i], false)
  {
    assert Roles[i][..0] == "";
    TypingPhase(i, 0);
  }

  lemma HoldOneTick(i: nat)
    requires i < |Roles|
    ensures Steps(Typewriter(i, Roles[i], false), 1) == Typewriter(i, Roles[i], true)
  {
    FullRoleStartsDeleting(Typewriter(i, Roles[i], false));
  }

  lemma DeletingAll(i: nat)
    requires i < |Roles|
    ensures Steps(Typewriter(i, Roles[i], true), |Roles[i]|) == Typewriter(i, "", true)
  {
    assert Roles[i][..|Roles[i]|] == Roles[i];
    DeletingPhase(i, |Roles[i]|);
  }

  lemma NextRoleOneTick(i: nat)
    requires i < |Roles|
    ensures Steps(Typewriter(i, "", true), 1) == Typewriter((i + 1) % |Roles|, "", false)
  {
  }

  /** The component's state fields, stepped by its timer. */
  class TypewriterEffect {
    var currentRoleIndex: nat
    var displayText: string
    var isDeleting: bool

    ghost function State(): Typewriter
      reads this
    {
      Typewriter(currentRoleIndex, displayText, isDeleting)
    }

    ghost predicate Valid()
      reads this
    {
      Inv(State())
    }

    constructor()
      ensures Valid() && State() == Typewriter(0, "", false)
    {
      currentRoleIndex, displayText, isDeleting := 0, "", false;
    }

    /** The effect's timeout fires (after `Delay(State())`) and applies one step. */
    method Tick()
      requires Valid()
      modifies this
      ensures Valid()
      ensures State() == Step(old(State()))
    {
      var role := Roles[currentRoleIndex];
      if !isDeleting {
        if |displayText| < |role| {
          displayText := role[..|displayText| + 1];
        } else {
          isDeleting := true;
        }
      } else {
        if |displayText| > 0 {
          displayText := displayText[..|displayText| - 1];
        } else {
          isDeleting := false;
          currentRoleIndex := (currentRoleIndex + 1) % |Roles|;
        }
      }
    }
  }
}
