/** Splitting the pipe-separated header of a CEF line (`orchestrator/adapters/cef.py`). */
module Cef {
  /** The scanner: fields finished, the field in hand, and whether the last character escaped the next. */
  datatype Scan = Scan(fields: seq<string>, current: string, escaped: bool)

  function Start(): Scan { Scan([], "", false) }

  function Take(s: Scan, c: char, limit: nat): Scan {
    if s.escaped then s.(current := s.current + [c], escaped := false)
    else if c == '\\' then s.(escaped := true)
    else if c == '|' && |s.fields| < limit - 1 then Scan(s.fields + [s.current], "", false)
    else s.(current := s.current + [c])
  }

  function ScanFrom(s: Scan, line: string, limit: nat): Scan
    decreases |line|
  {
    if line == "" then s else ScanFrom(Take(s, line[0], limit), line[1..], limit)
  }

  function Fields(s: Scan): seq<string> { s.fields + [s.current] }

  function Split(line: string, limit: nat): seq<string> { Fields(ScanFrom(Start(), line, limit)) }

  /** The splitter's own loop. */
  method SplitHeader(line: string, limit: nat) returns (fields: seq<string>)
    ensures fields == Split(line, limit)
    ensures 1 <= |fields| && (limit > 0 ==> |fields| <= limit)
  {
    fields := [];
    var current, escaped := "", false;
    for i := 0 to |line|
      invariant ScanFrom(Scan(fields, current, escaped), line[i..], limit) == ScanFrom(Start(), line, limit)
      invariant |fields| == 0 || |fields| < limit
    {
      var c := line[i];
      assert line[i..][0] == c && line[i..][1..] == line[i + 1..];
      if escaped {
        current := current + [c];
        escaped := false;
      } else if c == '\\' {
        escaped := true;
      } else if c == '|' && |fields| < limit - 1 {
        fields, current := fields + [current], "";
      } else {
        current := current + [c];
      }
    }
    fields := fields + [current];
  }

  // --- writing a header -------------------------------------------------------------------

  /** A backslash before each pipe and each backslash. */
  function Escape(field: string): string {
    if field == "" then ""
    else (if field[0] == '|' || field[0] == '\\' then ['\\', field[0]] else [field[0]]) + Escape(field[1..])
  }

  /** The last field may also leave its pipes bare. */
  function EscapeSlashes(field: string): string {
    if field == "" then ""
    else (if field[0] == '\\' then ['\\', '\\'] else [field[0]]) + EscapeSlashes(field[1..])
  }

  function Join(parts: seq<string>): string {
    if parts == [] then ""
    else if |parts| == 1 then parts[0]
    else parts[0] + "|" + Join(parts[1..])
  }

  function EscapeAll(fields: seq<string>): seq<string> {
    if fields == [] then [] else [Escape(fields[0])] + EscapeAll(fields[1..])
  }

  lemma {:induction false} ScanConcat(s: Scan, a: string, b: string, limit: nat)
    ensures ScanFrom(s, a + b, limit) == ScanFrom(ScanFrom(s, a, limit), b, limit)
    decreases |a|
  {
    if a == "" {
      assert a + b == b;
    } else {
      assert (a + b)[0] == a[0] && (a + b)[1..] == a[1..] + b;
      ScanConcat(Take(s, a[0], limit), a[1..], b, limit);
    }
  }

  lemma ScanTwo(s: Scan, a: char, b: char, limit: nat)
    ensures ScanFrom(s, [a, b], limit) == Take(Take(s, a, limit), b, limit)
  {
    assert [a, b][1..] == [b] && [b][1..] == "";
    assert ScanFrom(Take(s, a, limit), [b], limit) == ScanFrom(Take(Take(s, a, limit), b, limit), "", limit);
  }

  lemma ScanOne(s: Scan, a: char, limit: nat)
    ensures ScanFrom(s, [a], limit) == Take(s, a, limit)
  {
    assert [a][1..] == "";
    assert ScanFrom(Take(s, a, limit), "", limit) == Take(s, a, limit);
  }

  /** An escaped field is read into the field in hand, whatever it holds. */
  lemma {:induction false} ReadEscaped(s: Scan, field: string, limit: nat)
    requires !s.escaped
    ensures ScanFrom(s, Escape(field), limit) == s.(current := s.current + field)
    decreases |field|
  {
    if field == "" {
      assert s.current + field == s.current;
    } else {
      var c := field[0];
      var head := if c == '|' || c == '\\' then ['\\', c] else [c];
      ScanConcat(s, head, Escape(field[1..]), limit);
      ScanTwo(s, '\\', c, limit);
      ScanOne(s, c, limit);
      ReadEscaped(s.(current := s.current + [c]), field[1..], limit);
      assert s.current + [c] + field[1..] == s.current + field;
    }
  }

  /** Once the header is full, bare pipes belong to the last field. */
  lemma {:induction false} ReadLast(s: Scan, field: string, limit: nat)
    requires !s.escaped && |s.fields| + 1 >= limit
    ensures ScanFrom(s, EscapeSlashes(field), limit) == s.(current := s.current + field)
    decreases |field|
  {
    if field == "" {
      assert s.current + field == s.current;
    } else {
      var c := field[0];
      var head := if c == '\\' then ['\\', '\\'] else [c];
      ScanConcat(s, head, EscapeSlashes(field[1..]), limit);
      ScanTwo(s, '\\', '\\', limit);
      ScanOne(s, c, limit);
      ReadLast(s.(current := s.current + [c]), field[1..], limit);
      assert s.current + [c] + field[1..] == s.current + field;
    }
  }

  lemma {:induction false} EscapeAllIs(fields: seq<string>)
    ensures |EscapeAll(fields)| == |fields|
    ensures forall k :: 0 <= k < |fields| ==> EscapeAll(fields)[k] == Escape(fields[k])
  {
    if fields != [] { EscapeAllIs(fields[1..]); }
  }

  lemma {:induction false} BareIsEscaped(field: string)
    requires '|' !in field
    ensures EscapeSlashes(field) == Escape(field)
  {
    if field != "" {
      assert field[0] in field;
      BareIsEscaped(field[1..]);
    }
  }

  lemma {:induction false} FieldsOnlyGrow(s: Scan, line: string, limit: nat)
    ensures |ScanFrom(s, line, limit).fields| >= |s.fields|
    decreases |line|
  {
    if line != "" { FieldsOnlyGrow(Take(s, line[0], limit), line[1..], limit); }
  }

  /** A bare pipe before the header is full ends the field. */
  lemma {:induction false} BarePipeSplits(s: Scan, field: string, limit: nat)
    requires !s.escaped && |s.fields| + 1 < limit && '|' in field
    ensures |ScanFrom(s, EscapeSlashes(field), limit).fields| > |s.fields|
    decreases |field|
  {
    var c := field[0];
    var head := if c == '\\' then ['\\', '\\'] else [c];
    ScanConcat(s, head, EscapeSlashes(field[1..]), limit);
    ScanTwo(s, '\\', '\\', limit);
    ScanOne(s, c, limit);
    if c == '|' {
      FieldsOnlyGrow(Take(s, c, limit), EscapeSlashes(field[1..]), limit);
    } else {
      BarePipeSplits(s.(current := s.current + [c]), field[1..], limit);
    }
  }

  /** Scanning all but the last part leaves the scanner at the start of the last field. */
  lemma {:induction false} ReadFront(s: Scan, front: seq<string>, last: string, limit: nat)
    requires !s.escaped && s.current == "" && |s.fields| + |front| < limit
    ensures ScanFrom(s, Join(EscapeAll(front) + [last]), limit) == ScanFrom(Scan(s.fields + front, "", false), last, limit)
    decreases |front|
  {
    EscapeAllIs(front);
    var parts := EscapeAll(front) + [last];
    if front == [] {
      assert parts == [last] && Scan(s.fields + front, "", false) == s;
    } else {
      var f := front[0];
      assert parts[1..] == EscapeAll(front[1..]) + [last];
      var rest := Join(parts[1..]);
      assert Join(parts) == Escape(f) + ("|" + rest);
      ReadEscaped(s, f, limit);
      var t := s.(current := f);
      ScanConcat(s, Escape(f), "|" + rest, limit);
      ScanConcat(t, "|", rest, limit);
      ScanOne(t, '|', limit);
      var next := Scan(s.fields + [f], "", false);
      assert s.current + f == f && Take(t, '|', limit) == next;
      assert ScanFrom(s, Join(parts), limit) == ScanFrom(next, rest, limit);
      ReadFront(next, front[1..], last, limit);
      assert next.fields + front[1..] == s.fields + front;
    }
  }

  lemma {:induction false} EscapeAllSnoc(front: seq<string>, last: string)
    ensures EscapeAll(front + [last]) == EscapeAll(front) + [Escape(last)]
  {
    if front != [] {
      assert (front + [last])[1..] == front[1..] + [last];
      EscapeAllSnoc(front[1..], last);
    }
  }

  lemma SplitOfEscaped(front: seq<string>, last: string, limit: nat)
    requires |front| < limit
    ensures Split(Join(EscapeAll(front) + [Escape(last)]), limit) == front + [last]
  {
    hide ScanFrom, Take, Join, Escape, EscapeAll;
    ReadFront(Start(), front, Escape(last), limit);
    assert [] + front == front && "" + last == last;
    ReadEscaped(Scan(front, "", false), last, limit);
  }

  /** Escape, join, split: exactly the fields come back. */
  lemma SplitUndoesJoin(fields: seq<string>, limit: nat)
    requires 1 <= |fields| <= limit
    ensures Split(Join(EscapeAll(fields)), limit) == fields
  {
    hide *;
    var front, last := fields[..|fields| - 1], fields[|fields| - 1];
    assert fields == front + [last];
    EscapeAllSnoc(front, last);
    SplitOfEscaped(front, last, limit);
  }

  /** Leaving the last field's pipes bare loses nothing exactly when the header is full or there is none. */
  lemma BareLastFieldIff(front: seq<string>, last: string, limit: nat)
    requires |front| < limit
    ensures Split(Join(EscapeAll(front) + [EscapeSlashes(last)]), limit) == front + [last]
            <==> |front| + 1 == limit || '|' !in last
  {
    hide ScanFrom, Take, Join, Escape, EscapeSlashes, EscapeAll;
    ReadFront(Start(), front, EscapeSlashes(last), limit);
    assert [] + front == front && "" + last == last;
    var s := Scan(front, "", false);
    if |front| + 1 == limit {
      ReadLast(s, last, limit);
    } else if '|' !in last {
      BareIsEscaped(last);
      ReadEscaped(s, last, limit);
    } else {
      BarePipeSplits(s, last, limit);
    }
  }

  lemma {:induction false} FieldCount(s: Scan, line: string, limit: nat)
    requires |s.fields| < limit
    ensures |ScanFrom(s, line, limit).fields| < limit
    decreases |line|
  {
    if line != "" { FieldCount(Take(s, line[0], limit), line[1..], limit); }
  }

  /** Any line, however escaped, reads as its canonical rewriting does: what was split can be stored and split again. */
  lemma EveryLineHasACanonicalForm(line: string, limit: nat)
    requires limit > 0
    ensures Split(Join(EscapeAll(Split(line, limit))), limit) == Split(line, limit)
  {
    FieldCount(Start(), line, limit);
    SplitUndoesJoin(Split(line, limit), limit);
  }

  // --- any line at all ------------------------------------------------------------------------

  /** The line with each escaping backslash dropped; `escaped` tells whether one stands just before it. */
  function Unescaped(line: string, escaped: bool): string {
    if line == "" then ""
    else if !escaped && line[0] == '\\' then Unescaped(line[1..], true)
    else [line[0]] + Unescaped(line[1..], false)
  }

  function BarePipes(line: string, escaped: bool): nat {
    if line == "" then 0
    else if !escaped && line[0] == '\\' then BarePipes(line[1..], true)
    else (if !escaped && line[0] == '|' then 1 else 0) + BarePipes(line[1..], false)
  }

  lemma {:induction false} JoinSnoc(front: seq<string>, last: string, more: string)
    ensures Join(front + [last]) + more == Join(front + [last + more])
    ensures Join(front + [last]) + "|" == Join(front + [last, ""])
  {
    if front == [] {
      assert [last, ""][1..] == [""];
    } else {
      assert (front + [last])[1..] == front[1..] + [last];
      assert (front + [last + more])[1..] == front[1..] + [last + more];
      assert (front + [last, ""])[1..] == front[1..] + [last, ""];
      JoinSnoc(front[1..], last, more);
    }
  }

  lemma {:induction false} ScanKeepsEverything(s: Scan, line: string, limit: nat)
    ensures Join(Fields(ScanFrom(s, line, limit))) == Join(Fields(s)) + Unescaped(line, s.escaped)
    decreases |line|
  {
    if line == "" {
      assert Join(Fields(s)) + "" == Join(Fields(s));
    } else {
      var c, t := line[0], Take(s, line[0], limit);
      JoinSnoc(s.fields, s.current, [c]);
      assert s.fields + [s.current] + [""] == s.fields + [s.current, ""];
      ScanKeepsEverything(t, line[1..], limit);
    }
  }

  /** Nothing is lost or added: the fields, with a pipe between each two, are the line less its escaping backslashes. */
  lemma SplitKeepsEverything(line: string, limit: nat)
    ensures Join(Split(line, limit)) == Unescaped(line, false)
  {
    ScanKeepsEverything(Start(), line, limit);
  }

  lemma {:induction false} ScanCounts(s: Scan, line: string, limit: nat)
    requires |s.fields| < limit
    ensures |ScanFrom(s, line, limit).fields| == if |s.fields| + BarePipes(line, s.escaped) < limit
              then |s.fields| + BarePipes(line, s.escaped) else limit - 1
    decreases |line|
  {
    if line != "" { ScanCounts(Take(s, line[0], limit), line[1..], limit); }
  }

  /** One field more than there are bare pipes, up to the limit. */
  lemma BarePipesSplit(line: string, limit: nat)
    requires limit > 0
    ensures |Split(line, limit)| == if BarePipes(line, false) < limit then BarePipes(line, false) + 1 else limit
  {
    ScanCounts(Start(), line, limit);
  }

  /** A backslash makes any character its field's own, `=` as well as a pipe, and is itself dropped; at the end it is lost. */
  lemma EscapedIsKept(s: Scan, c: char, limit: nat)
    requires !s.escaped
    ensures ScanFrom(s, ['\\', c], limit) == s.(current := s.current + [c])
    ensures Fields(ScanFrom(s, ['\\'], limit)) == Fields(s)
  {
    ScanTwo(s, '\\', c, limit);
    ScanOne(s, '\\', limit);
  }
}
