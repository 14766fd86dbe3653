/** The string operations of ECMAScript that the modelled code uses. */
module Text {
  import opened Wrappers

  /** White space and line terminators of ECMAScript. */
  predicate IsSpace(c: char) {
    || '\U{9}' <= c <= '\U{D}' || c == ' ' || c == '\U{A0}' || c == '\U{1680}' || '\U{2000}' <= c <= '\U{200A}'
    || c == '\U{2028}' || c == '\U{2029}' || c == '\U{202F}' || c == '\U{205F}' || c == '\U{3000}' || c == '\U{FEFF}'
  }

  function TrimStart(s: string): string
    decreases |s|
  {
    if s != [] && IsSpace(s[0]) then TrimStart(s[1..]) else s
  }

  function TrimEnd(s: string): string
    decreases |s|
  {
    if s != [] && IsSpace(s[|s| - 1]) then TrimEnd(s[..|s| - 1]) else s
  }

  function Trim(s: string): string {
    TrimEnd(TrimStart(s))
  }

  lemma {:induction false} TrimEndKeepsStart(s: string)
    ensures TrimEnd(s) <= s
    ensures TrimEnd(s) == [] || !IsSpace(TrimEnd(s)[|TrimEnd(s)| - 1])
    decreases |s|
  {
    if s != [] && IsSpace(s[|s| - 1]) {
      TrimEndKeepsStart(s[..|s| - 1]);
    }
  }

  lemma {:induction false} TrimStartSpec(s: string)
    ensures TrimStart(s) == [] || !IsSpace(TrimStart(s)[0])
    decreases |s|
  {
    if s != [] && IsSpace(s[0]) {
      TrimStartSpec(s[1..]);
    }
  }

  /** A trimmed text neither starts nor ends with white space. */
  lemma TrimmedEnds(s: string)
    ensures Trim(s) == [] || (!IsSpace(Trim(s)[0]) && !IsSpace(Trim(s)[|Trim(s)| - 1]))
  {
    TrimStartSpec(s);
    TrimEndKeepsStart(TrimStart(s));
  }

  predicate AllSpace(s: string) {
    forall i :: 0 <= i < |s| ==> IsSpace(s[i])
  }

  lemma {:induction false} TrimStartSplits(s: string) returns (left: string)
    ensures AllSpace(left) && s == left + TrimStart(s)
    decreases |s|
  {
    if s == [] || !IsSpace(s[0]) {
      left := [];
    } else {
      var rest := TrimStartSplits(s[1..]);
      left := [s[0]] + rest;
      assert s == [s[0]] + s[1..] && TrimStart(s) == TrimStart(s[1..]);
      assert left + TrimStart(s) == [s[0]] + (rest + TrimStart(s[1..]));
    }
  }

  lemma {:induction false} TrimEndSplits(s: string) returns (right: string)
    ensures AllSpace(right) && s == TrimEnd(s) + right
    decreases |s|
  {
    if s == [] || !IsSpace(s[|s| - 1]) {
      right := [];
    } else {
      var rest := TrimEndSplits(s[..|s| - 1]);
      right := rest + [s[|s| - 1]];
      assert s == s[..|s| - 1] + [s[|s| - 1]] && TrimEnd(s) == TrimEnd(s[..|s| - 1]);
      assert TrimEnd(s) + right == (TrimEnd(s[..|s| - 1]) + rest) + [s[|s| - 1]];
    }
  }

  /** Trimming takes away white space, at the two ends, and nothing else. */
  lemma TrimTakesOnlySpace(s: string)
    ensures exists left, right :: AllSpace(left) && AllSpace(right) && s == left + Trim(s) + right
  {
    var left := TrimStartSplits(s);
    var right := TrimEndSplits(TrimStart(s));
    assert s == left + Trim(s) + right;
  }

  lemma {:induction false} TrimStartSkips(left: string, s: string)
    requires AllSpace(left)
    ensures TrimStart(left + s) == TrimStart(s)
    decreases |left|
  {
    if left == [] {
      assert left + s == s;
    } else {
      assert (left + s)[1..] == left[1..] + s;
      TrimStartSkips(left[1..], s);
    }
  }

  lemma {:induction false} TrimEndSkips(s: string, right: string)
    requires AllSpace(right)
    ensures TrimEnd(s + right) == TrimEnd(s)
    decreases |right|
  {
    if right == [] {
      assert s + right == s;
    } else {
      assert (s + right)[..|s + right| - 1] == s + right[..|right| - 1];
      TrimEndSkips(s, right[..|right| - 1]);
    }
  }

  lemma {:induction false} TrimSkipsRight(s: string, right: string)
    requires AllSpace(right)
    ensures Trim(s + right) == Trim(s)
    decreases |s|
  {
    if s == [] {
      assert s + right == right == right + [];
      TrimStartSkips(right, []);
    } else if IsSpace(s[0]) {
      assert (s + right)[1..] == s[1..] + right;
      TrimSkipsRight(s[1..], right);
    } else {
      TrimEndSkips(s, right);
    }
  }

  /** White space around a text makes no difference to its trimmed form. */
  lemma TrimIgnoresSpace(left: string, s: string, right: string)
    requires AllSpace(left) && AllSpace(right)
    ensures Trim(left + s + right) == Trim(s)
  {
    assert left + s + right == left + (s + right);
    TrimStartSkips(left, s + right);
    TrimSkipsRight(s, right);
  }

  lemma TrimmedStays(s: string)
    requires s == "" || (!IsSpace(s[0]) && !IsSpace(s[|s| - 1]))
    ensures Trim(s) == s
  {
  }

  /** Lower case of A to Z; no other character lower-cases to a hexadecimal digit or a dash. */
  function LowerChar(c: char): char {
    if 'A' <= c <= 'Z' then c - 'A' + 'a' else c
  }

  function ToLower(s: string): (r: string)
    ensures |r| == |s|
  {
    seq(|s|, i requires 0 <= i < |s| => LowerChar(s[i]))
  }

  predicate StartsWith(s: string, prefix: string) {
    prefix <= s
  }

  predicate OccursAt(s: string, part: string, i: nat) {
    i + |part| <= |s| && s[i..i + |part|] == part
  }

  lemma SliceOfTail(s: string, from: nat, to: nat)
    requires from <= to < |s|
    ensures s[1..][from..to] == s[from + 1..to + 1]
  {
    forall k | 0 <= k < to - from ensures s[1..][from..to][k] == s[from + 1..to + 1][k] {
    }
  }

  lemma OccursInTail(s: string, part: string)
    requires s != []
    ensures forall i: nat :: OccursAt(s, part, i + 1) == OccursAt(s[1..], part, i)
    ensures forall i: nat :: i > 0 ==> OccursAt(s, part, i) == OccursAt(s[1..], part, i - 1)
  {
    forall i: nat ensures OccursAt(s, part, i + 1) == OccursAt(s[1..], part, i) {
      if i + 1 + |part| <= |s| {
        SliceOfTail(s, i, i + |part|);
      }
    }
    forall i: nat | i > 0 ensures OccursAt(s, part, i) == OccursAt(s[1..], part, i - 1) {
      var j := i - 1;
      assert OccursAt(s, part, j + 1) == OccursAt(s[1..], part, j);
    }
  }

  /** The first position at which `part` occurs, if it does. */
  function IndexOf(s: string, part: string): (r: Option<nat>)
    ensures r.Some? ==> OccursAt(s, part, r.value) && forall i: nat :: i < r.value ==> !OccursAt(s, part, i)
    ensures r.None? ==> forall i: nat :: !OccursAt(s, part, i)
    decreases |s|
  {
    if |s| < |part| then None
    else if OccursAt(s, part, 0) then Some(0)
    else
      OccursInTail(s, part);
      match IndexOf(s[1..], part)
      case None => None
      case Some(i) => Some(i + 1)
  }

  predicate Contains(s: string, part: string) {
    IndexOf(s, part).Some?
  }

  /** The pieces between the line feeds. */
  function Lines(s: string): seq<string>
    decreases |s|
  {
    match IndexOf(s, "\n")
    case None => [s]
    case Some(i) => [s[..i]] + Lines(s[i + 1..])
  }

  predicate IsDigit(c: char) {
    '0' <= c <= '9'
  }

  predicate AllDigits(s: string) {
    s != [] && forall i :: 0 <= i < |s| ==> IsDigit(s[i])
  }
}
