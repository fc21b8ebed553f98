/** Shared value types for the portfolio model. */
module Common {

  /** A value that may be missing: JavaScript's `undefined`/`null` or an absent key. */
  datatype Option<T> = None | Some(value: T) {

    /** The value, or `default` when there is none (the `x ?? default` idiom). */
    function GetOr(default: T): T {
      match this
      case Some(v) => v
      case None => default
    }
  }

  /**
   * `table[key]` on an object literal, given as its keys and, in the same order, its values:
   * missing exactly when the key is not one of the table's keys.
   */
  function Lookup<K(==), V>(keys: seq<K>, values: seq<V>, key: K): (r: Option<V>)
    requires |keys| == |values|
    ensures r.None? <==> key !in keys
    ensures r.Some? ==> r.value in values
    ensures forall i :: 0 <= i < |keys| && keys[i] == key && key !in keys[..i] ==> r == Some(values[i])
  {
    if keys == [] then None
    else if keys[0] == key then Some(values[0])
    else
      assert key in keys <==> key in keys[1..];
      var r := Lookup(keys[1..], values[1..], key);
      assert r.Some? ==> r.value in values;
      assert forall i :: 1 <= i < |keys| && keys[i] == key && key !in keys[..i] ==>
        keys[1..][i - 1] == key && key !in keys[1..][..i - 1] && values[1..][i - 1] == values[i]
      by {
        forall i | 1 <= i < |keys| && keys[i] == key && key !in keys[..i]
          ensures key !in keys[1..][..i - 1]
        {
          assert keys[1..][..i - 1] == keys[..i][1..];
        }
      }
      r
  }
}

/**
 * String helpers with the semantics of the JavaScript built-ins the site uses:
 * `trim`, `toLowerCase`/`toUpperCase` (ASCII letters), `includes`, `startsWith`,
 * `split(/\s+/)`, `split('.').pop()`, `join`, `slice(0, n)` and `replace(/\n/g, ...)`.
 */
module Strings {

  /** JavaScript's WhiteSpace and LineTerminator code points (the set `\s` and `trim` use). */
  predicate IsSpace(c: char) {
    var n := c as int;
    n == 0x09 || n == 0x0A || n == 0x0B || n == 0x0C || n == 0x0D || n == 0x20 ||
    n == 0xA0 || n == 0x1680 || (0x2000 <= n <= 0x200A) || n == 0x2028 || n == 0x2029 ||
    n == 0x202F || n == 0x205F || n == 0x3000 || n == 0xFEFF
  }

  /** Every character is white space (true of the empty string). */
  predicate IsBlank(s: string) {
    forall i :: 0 <= i < |s| ==> IsSpace(s[i])
  }

  function TrimStart(s: string): (r: string)
    ensures |r| <= |s| && r == s[|s| - |r|..]
    ensures r == [] || !IsSpace(r[0])
    ensures IsBlank(s[..|s| - |r|])
  {
    if s != [] && IsSpace(s[0]) then
      var r := TrimStart(s[1..]);
      assert s[..|s| - |r|] == [s[0]] + s[1..][..|s| - 1 - |r|];
      r
    else s
  }

  function TrimEnd(s: string): (r: string)
    ensures |r| <= |s| && r == s[..|r|]
    ensures r == [] || !IsSpace(r[|r| - 1])
    ensures IsBlank(s[|r|..])
  {
    if s != [] && IsSpace(s[|s| - 1]) then
      var r := TrimEnd(s[..|s| - 1]);
      assert s[|r|..] == s[..|s| - 1][|r|..] + [s[|s| - 1]];
      r
    else s
  }

  /** `s.trim()`: the string without its leading and trailing white space. */
  function Trim(s: string): (r: string)
    ensures r == [] || (!IsSpace(r[0]) && !IsSpace(r[|r| - 1]))
    ensures r == [] <==> IsBlank(s)
  {
    TrimFacts(s);
    TrimEnd(TrimStart(s))
  }

  lemma TrimFacts(s: string)
    ensures var r := TrimEnd(TrimStart(s));
      (r == [] || (!IsSpace(r[0]) && !IsSpace(r[|r| - 1]))) && (r == [] <==> IsBlank(s))
  {
    var t := TrimStart(s);
    var r := TrimEnd(t);
    var d := |s| - |t|;
    if r == [] {
      assert t[|r|..] == t;
      assert t == [];
      assert s[..d] == s;
    } else {
      assert r[0] == t[0] == s[d];
    }
  }

  function LowerChar(c: char): char {
    if 'A' <= c <= 'Z' then (c as int + 32) as char else c
  }

  function UpperChar(c: char): char {
    if 'a' <= c <= 'z' then (c as int - 32) as char else c
  }

  /** `s.toLowerCase()` on ASCII letters; every other character is kept. */
  function Lower(s: string): (r: string)
    ensures |r| == |s|
    ensures forall i :: 0 <= i < |s| ==> r[i] == LowerChar(s[i])
  {
    seq(|s|, i requires 0 <= i < |s| => LowerChar(s[i]))
  }

  /** `s.toUpperCase()` on ASCII letters; every other character is kept. */
  function Upper(s: string): (r: string)
    ensures |r| == |s|
    ensures forall i :: 0 <= i < |s| ==> r[i] == UpperChar(s[i])
  {
    seq(|s|, i requires 0 <= i < |s| => UpperChar(s[i]))
  }

  /** Lower-casing twice is lower-casing once. */
  lemma LowerIdempotent(s: string)
    ensures Lower(Lower(s)) == Lower(s)
  {
    forall i | 0 <= i < |s| ensures Lower(Lower(s))[i] == Lower(s)[i] {
      assert LowerChar(LowerChar(s[i])) == LowerChar(s[i]);
    }
  }

  /** `text.includes(k)`. */
  predicate Contains(text: string, k: string)
    decreases |text|
  {
    k <= text || (text != [] && Contains(text[1..], k))
  }

  /** `xs.join(sep)`. */
  function Join(sep: string, xs: seq<string>): string {
    if |xs| == 0 then ""
    else if |xs| == 1 then xs[0]
    else xs[0] + sep + Join(sep, xs[1..])
  }

  /** `xs.slice(0, n)`. */
  function Take<T>(xs: seq<T>, n: nat): (r: seq<T>)
    ensures |r| == if n <= |xs| then n else |xs|
    ensures r <= xs
  {
    if n <= |xs| then xs[..n] else xs
  }

  /** `xs[i]` interpolated into a template: a missing element prints as "undefined". */
  function At(xs: seq<string>, i: nat): string {
    if i < |xs| then xs[i] else "undefined"
  }

  /** `s.replace(/\n/g, '<br>')`. */
  function NewlinesToBreaks(s: string): (r: string)
    ensures '\n' !in r
    ensures ('\n' !in s) ==> r == s
  {
    if s == [] then ""
    else (if s[0] == '\n' then "<br>" else [s[0]]) + NewlinesToBreaks(s[1..])
  }

  /** Replacing newlines works piece by piece: the text of a concatenation is the concatenation of the texts. */
  lemma {:induction false} NewlinesToBreaksAppend(a: string, b: string)
    ensures NewlinesToBreaks(a + b) == NewlinesToBreaks(a) + NewlinesToBreaks(b)
  {
    if a == [] {
      assert a + b == b;
    } else {
      assert (a + b)[0] == a[0];
      assert (a + b)[1..] == a[1..] + b;
      NewlinesToBreaksAppend(a[1..], b);
    }
  }

  /** A newline becomes `<br>`; every other character is kept as it is. */
  lemma NewlinesToBreaksOneChar(c: char)
    ensures c == '\n' ==> NewlinesToBreaks([c]) == "<br>"
    ensures c != '\n' ==> NewlinesToBreaks([c]) == [c]
  {
    assert [c][1..] == [];
  }

  /** `s.split('.').pop()`: the text after the last '.', or all of `s` when it has none. */
  function LastSegment(s: string): (r: string)
    ensures '.' !in r
    ensures |r| <= |s| && r == s[|s| - |r|..]
    ensures |r| < |s| ==> s[|s| - |r| - 1] == '.'
  {
    if s == [] then ""
    else if s[|s| - 1] == '.' then ""
    else
      var r := LastSegment(s[..|s| - 1]);
      assert s[..|s| - 1][|s| - 1 - |r|..] + [s[|s| - 1]] == s[|s| - 1 - |r|..];
      r + [s[|s| - 1]]
  }

  /** The longest suffix of `s` that starts after a run of leading white space. */
  function DropSpaces(s: string): (r: string)
    ensures |r| <= |s| && r == s[|s| - |r|..]
    ensures r == [] || !IsSpace(r[0])
    ensures s != [] && IsSpace(s[0]) ==> |r| < |s|
  {
    if s != [] && IsSpace(s[0]) then DropSpaces(s[1..]) else s
  }

  /**
   * `s.split(/\s+/)`: the pieces between maximal runs of white space. A leading or
   * trailing run yields an empty first or last piece; the empty string yields [""].
   */
  function SplitOnSpaces(s: string): (r: seq<string>)
    ensures |r| >= 1
    decreases |s|
  {
    if s == [] then [""]
    else if IsSpace(s[0]) then [""] + SplitOnSpaces(DropSpaces(s))
    else
      var rest := SplitOnSpaces(s[1..]);
      [[s[0]] + rest[0]] + rest[1..]
  }

  /** No piece produced by `split(/\s+/)` contains white space. */
  lemma {:induction false} SplitPiecesHaveNoSpace(s: string)
    ensures forall w, c :: w in SplitOnSpaces(s) && c in w ==> !IsSpace(c)
    decreases |s|
  {
    if s == [] {
    } else if IsSpace(s[0]) {
      SplitPiecesHaveNoSpace(DropSpaces(s));
    } else {
      SplitPiecesHaveNoSpace(s[1..]);
      var rest := SplitOnSpaces(s[1..]);
      assert rest[0] in rest;
      forall w, c | w in SplitOnSpaces(s) && c in w ensures !IsSpace(c) {
        if w != [s[0]] + rest[0] {
          assert w in rest[1..];
        }
      }
    }
  }
}

/** The chat message record both voice components keep in their `messages` state. */
module Chat {

  datatype Role = User | Assistant

  /**
   * A chat message. The source also stores an id taken from `Date.now()` and a
   * timestamp; neither takes part in any decision, and the ids are not unique.
   */
  datatype Message = Message(role: Role, content: string)

  /** How many messages of the log have role `r`. */
  function CountRole(ms: seq<Message>, r: Role): (n: nat)
    ensures n <= |ms|
  {
    if ms == [] then 0
    else CountRole(ms[..|ms| - 1], r) + (if ms[|ms| - 1].role == r then 1 else 0)
  }

  /** Appending one message adds one to the count of its role and nothing to the other. */
  lemma CountRoleAppend(ms: seq<Message>, m: Message, r: Role)
    ensures CountRole(ms + [m], r) == CountRole(ms, r) + (if m.role == r then 1 else 0)
  {
    assert (ms + [m])[..|ms|] == ms;
  }
}
