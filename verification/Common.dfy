/** Small shared vocabulary: optional values, bounds, text folding and rounding. */
module Common {
  datatype Option<+T> = None | Some(value: T)

  function Min(a: int, b: int): int { if a <= b then a else b }

  function Max(a: int, b: int): int { if a <= b then b else a }

  /** Case folding, on the ASCII letters. */
  function LowerChar(c: char): char {
    if 'A' <= c <= 'Z' then (c as int + 32) as char else c
  }

  function Lower(s: string): (r: string)
    ensures |r| == |s|
  {
    seq(|s|, i requires 0 <= i < |s| => LowerChar(s[i]))
  }

  function UpperChar(c: char): char {
    if 'a' <= c <= 'z' then (c as int - 32) as char else c
  }

  function Upper(s: string): (r: string)
    ensures |r| == |s|
  {
    seq(|s|, i requires 0 <= i < |s| => UpperChar(s[i]))
  }

  /** At most the first `n` characters. */
  function Clip(s: string, n: nat): string { if |s| <= n then s else s[..n] }

  predicate IsSpace(c: char) {
    c == ' ' || c == '\t' || c == '\n' || c == '\r'
  }

  function StripLeft(s: string): string {
    if s != "" && IsSpace(s[0]) then StripLeft(s[1..]) else s
  }

  function StripRight(s: string): string {
    if s != "" && IsSpace(s[|s| - 1]) then StripRight(s[..|s| - 1]) else s
  }

  function Strip(s: string): string { StripRight(StripLeft(s)) }

  /** True when stripping has nothing left to remove. */
  predicate Tight(s: string) {
    s != "" ==> !IsSpace(s[0]) && !IsSpace(s[|s| - 1])
  }

  lemma {:induction false} StripRightTight(s: string)
    requires s != "" ==> !IsSpace(s[0])
    ensures Tight(StripRight(s)) && StripRight(s) <= s
  {
    if s != "" && IsSpace(s[|s| - 1]) {
      StripRightTight(s[..|s| - 1]);
    }
  }

  lemma {:induction false} StripTight(s: string)
    ensures Tight(Strip(s))
  {
    if s != "" && IsSpace(s[0]) {
      StripTight(s[1..]);
    } else {
      StripRightTight(s);
    }
  }

  lemma StripOfTight(s: string)
    ensures Tight(s) <==> Strip(s) == s
  {
    StripTight(s);
  }

  predicate AllSpace(s: string) { forall i :: 0 <= i < |s| ==> IsSpace(s[i]) }

  /** Stripping takes blanks off the two ends and nothing else. */
  lemma {:induction false} StripIsInner(s: string) returns (before: string, after: string)
    ensures s == before + Strip(s) + after && AllSpace(before) && AllSpace(after)
  {
    if s != "" && IsSpace(s[0]) {
      before, after := StripIsInner(s[1..]);
      before := [s[0]] + before;
      assert s == [s[0]] + s[1..];
    } else {
      before := "";
      after := StripRightIsPrefix(s);
      assert "" + StripRight(s) == StripRight(s);
    }
  }

  lemma {:induction false} StripRightIsPrefix(s: string) returns (after: string)
    ensures s == StripRight(s) + after && AllSpace(after)
  {
    if s != "" && IsSpace(s[|s| - 1]) {
      after := StripRightIsPrefix(s[..|s| - 1]);
      assert s == s[..|s| - 1] + [s[|s| - 1]];
      assert s == StripRight(s) + (after + [s[|s| - 1]]);
      after := after + [s[|s| - 1]];
    } else {
      after := "";
      assert s + "" == s;
    }
  }

  /** Folding changes letters only, and only their case. */
  lemma CaseFolds(s: string)
    ensures Lower(Upper(s)) == Lower(s) && Upper(Lower(s)) == Upper(s)
    ensures forall i :: 0 <= i < |s| ==> !('A' <= Lower(s)[i] <= 'Z') && !('a' <= Upper(s)[i] <= 'z')
    ensures forall i :: 0 <= i < |s| && !('A' <= s[i] <= 'Z') ==> Lower(s)[i] == s[i]
    ensures forall i :: 0 <= i < |s| && !('a' <= s[i] <= 'z') ==> Upper(s)[i] == s[i]
  {
    assert forall i :: 0 <= i < |s| ==> Lower(Upper(s))[i] == Lower(s)[i];
    assert forall i :: 0 <= i < |s| ==> Upper(Lower(s))[i] == Upper(s)[i];
  }

  /** Round to the nearest integer, ties to the even one, as Python's `round` does. */
  function RoundHalfEven(x: real): int {
    var f := x.Floor;
    var d := x - f as real;
    if d < 0.5 then f
    else if d > 0.5 then f + 1
    else if f % 2 == 0 then f
    else f + 1
  }

  lemma RoundIsMonotone(x: real, y: real)
    requires x <= y
    ensures RoundHalfEven(x) <= RoundHalfEven(y)
  {
    assert x.Floor <= y.Floor;
  }

  lemma RoundOfInteger(n: int)
    ensures RoundHalfEven(n as real) == n
  {
  }
}
