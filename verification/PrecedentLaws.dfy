/** What similarity measures and when the gate opens, said by counting and not by the model's own terms. */
module PrecedentLaws {
  import opened Common
  import opened Precedent

  // --- similarity -----------------------------------------------------------------------

  /** Points in tenths for a share of `part` in `whole`, of a property worth `weight`. */
  function Share(part: int, whole: int, weight: int): int
    requires whole > 0
  {
    RoundHalfEven(part as real / whole as real * weight as real * 10.0)
  }

  lemma Parts<T>(a: set<T>, b: set<T>)
    requires a != {} && b != {}
    ensures |a| > 0 && |b| > 0 && |a + b| > 0
    ensures Jaccard(a, b) == |a * b| as real / |a + b| as real
    ensures Overlap(a, b) == |a * b| as real / (if |a| <= |b| then |a| else |b|) as real
  {
    UnionNonempty(a, b);
  }

  lemma Nothing<T>(a: set<T>, b: set<T>)
    requires a == {} || b == {}
    ensures Jaccard(a, b) == 0.0 && Overlap(a, b) == 0.0
  {
  }

  /** Techniques and entity values: what is common, as a share of the smaller side. */
  lemma TechniquesAndValuesByContainment(q: Features, c: Features)
    ensures q.techniques != {} && c.techniques != {} ==>
      TermTenths(q, c)[0] == Share(|q.techniques * c.techniques|, Min(|q.techniques|, |c.techniques|), 30)
    ensures q.values != {} && c.values != {} ==>
      TermTenths(q, c)[3] == Share(|q.values * c.values|, Min(|q.values|, |c.values|), 15)
    ensures q.techniques == {} || c.techniques == {} ==> TermTenths(q, c)[0] == 0
    ensures q.values == {} || c.values == {} ==> TermTenths(q, c)[3] == 0
  {
    hide Jaccard, Overlap, RoundHalfEven;
    if q.techniques != {} && c.techniques != {} { Parts(q.techniques, c.techniques); } else { Nothing(q.techniques, c.techniques); }
    if q.values != {} && c.values != {} { Parts(q.values, c.values); } else { Nothing(q.values, c.values); }
    NoTenths(30);
    NoTenths(15);
  }

  /** Text, tools and shape: what is common, as a share of everything either side has. */
  lemma TheRestByCommonShare(q: Features, c: Features)
    ensures q.tokens != {} && c.tokens != {} ==>
      TermTenths(q, c)[1] == Share(|q.tokens * c.tokens|, |q.tokens + c.tokens|, 20)
    ensures q.sources != {} && c.sources != {} ==>
      TermTenths(q, c)[2] == Share(|q.sources * c.sources|, |q.sources + c.sources|, 15)
    ensures q.kinds != {} && c.kinds != {} ==>
      TermTenths(q, c)[4] == Share(|q.kinds * c.kinds|, |q.kinds + c.kinds|, 10)
    ensures q.tokens == {} || c.tokens == {} ==> TermTenths(q, c)[1] == 0
    ensures q.sources == {} || c.sources == {} ==> TermTenths(q, c)[2] == 0
    ensures q.kinds == {} || c.kinds == {} ==> TermTenths(q, c)[4] == 0
  {
    hide Jaccard, Overlap, RoundHalfEven;
    if q.tokens != {} && c.tokens != {} { Parts(q.tokens, c.tokens); } else { Nothing(q.tokens, c.tokens); }
    if q.sources != {} && c.sources != {} { Parts(q.sources, c.sources); } else { Nothing(q.sources, c.sources); }
    if q.kinds != {} && c.kinds != {} { Parts(q.kinds, c.kinds); } else { Nothing(q.kinds, c.kinds); }
    NoTenths(20);
    NoTenths(15);
    NoTenths(10);
  }

  lemma Whole(n: int, weight: int)
    requires n > 0
    ensures Share(n, n, weight) == 10 * weight
  {
    assert n as real / n as real == 1.0;
    RoundOfInteger(10 * weight);
  }

  lemma ContainedMeet<T>(a: set<T>, b: set<T>)
    requires a != {} && a <= b
    ensures a * b == a && b * a == a && |a| > 0 && |a| <= |b|
  {
    assert b == a + (b - a);
  }

  /** What one side has beyond the other costs nothing in techniques and values, whichever side it is. */
  lemma ContainmentIsFullMarks(q: Features, c: Features)
    ensures q.techniques != {} && q.techniques <= c.techniques ==> TermTenths(q, c)[0] == 300 == TermTenths(c, q)[0]
    ensures q.values != {} && q.values <= c.values ==> TermTenths(q, c)[3] == 150 == TermTenths(c, q)[3]
  {
    hide TermTenths, Share;
    TechniquesAndValuesByContainment(q, c);
    TechniquesAndValuesByContainment(c, q);
    if q.techniques != {} && q.techniques <= c.techniques {
      ContainedMeet(q.techniques, c.techniques);
      Whole(|q.techniques|, 30);
    }
    if q.values != {} && q.values <= c.values {
      ContainedMeet(q.values, c.values);
      Whole(|q.values|, 15);
    }
  }

  /** Of text, tools and shape, all is common exactly when both sides are the same. */
  lemma AllCommonIff<T>(a: set<T>, b: set<T>)
    ensures |a * b| <= |a + b| && (|a * b| == |a + b| <==> a == b)
  {
    var rest := (a + b) - (a * b);
    assert a + b == a * b + rest;
    if a != b {
      var x :| x in a + b && (x in a) != (x in b);
      assert x in rest;
    } else {
      assert a * b == a + b;
    }
  }

  /** So anything only one side has costs points, unless there is so much of the rest that it rounds away. */
  lemma DifferenceCosts(q: Features, c: Features)
    ensures q.tokens != {} && c.tokens != {} && q.tokens != c.tokens && |q.tokens + c.tokens| < 400 ==> TermTenths(q, c)[1] < 200
    ensures q.sources != {} && c.sources != {} && q.sources != c.sources && |q.sources + c.sources| < 300 ==> TermTenths(q, c)[2] < 150
    ensures q.kinds != {} && c.kinds != {} && q.kinds != c.kinds && |q.kinds + c.kinds| < 200 ==> TermTenths(q, c)[4] < 100
  {
    TheRestByCommonShare(q, c);
    AllCommonIff(q.tokens, c.tokens);
    AllCommonIff(q.sources, c.sources);
    AllCommonIff(q.kinds, c.kinds);
    hide TermTenths, Share;
    if q.tokens != {} && c.tokens != {} && q.tokens != c.tokens && |q.tokens + c.tokens| < 400 {
      PartCosts(|q.tokens * c.tokens|, |q.tokens + c.tokens|, 20);
    }
    if q.sources != {} && c.sources != {} && q.sources != c.sources && |q.sources + c.sources| < 300 {
      PartCosts(|q.sources * c.sources|, |q.sources + c.sources|, 15);
    }
    if q.kinds != {} && c.kinds != {} && q.kinds != c.kinds && |q.kinds + c.kinds| < 200 {
      PartCosts(|q.kinds * c.kinds|, |q.kinds + c.kinds|, 10);
    }
  }

  lemma PartCosts(m: int, n: int, w: int)
    requires 0 <= m < n < 20 * w
    ensures Share(m, n, w) < 10 * w
  {
    var k, x := n as real, m as real / n as real;
    assert x * k == m as real <= k - 1.0;
    var y := 1.0 - x;
    assert y * k >= 1.0;
    var t := w as real * 10.0;
    assert k < 2.0 * t;
    Scaled(y, k, t);
    var z := x * w as real * 10.0;
    assert z == x * t;
    assert z == t - y * t;
    assert z < t - 0.5;
    assert t == (10 * w) as real;
    RoundsBelow(z, 10 * w);
  }

  lemma Scaled(y: real, k: real, t: real)
    requires y * k >= 1.0 && 0.0 < k < 2.0 * t
    ensures y * t > 0.5
  {
    assert y > 0.0;
    var z := y * t;
    assert y * k < y * (2.0 * t);
    assert y * (2.0 * t) == 2.0 * z;
    assert 2.0 * z > 1.0;
  }

  lemma RoundsBelow(z: real, n: int)
    requires z < n as real - 0.5
    ensures RoundHalfEven(z) < n
  {
  }

  const CLASSES := ["LOW", "MEDIUM", "HIGH", "CRITICAL"]
  const EARNED := [100, 67, 33, 0]

  function Class(s: string): nat {
    if s == "LOW" then 0 else if s == "HIGH" then 2 else if s == "CRITICAL" then 3 else 1
  }

  /** Each class apart costs a third; an unknown class counts as MEDIUM. */
  lemma SeverityEarns(q: Features, c: Features)
    ensures var i, j := Class(q.severity), Class(c.severity);
      TermTenths(q, c)[5] == EARNED[if i <= j then j - i else i - j]
    ensures forall k :: 0 <= k < 4 ==> Class(CLASSES[k]) == k
  {
    hide Jaccard, Overlap;
    assert Tenths(1.0, 10) == 100 && Tenths(0.0, 10) == 0;
    assert Tenths(1.0 - 1.0 / 3.0, 10) == 67 && Tenths(1.0 - 2.0 / 3.0, 10) == 33;
  }

  lemma Within(t: seq<int>)
    requires |t| == 6
    requires 0 <= t[0] + t[1] + t[2] + t[3] + t[4] + t[5] <= 1000
    ensures var sum := t[0] + t[1] + t[2] + t[3] + t[4] + t[5];
      10 * SimilarityOf(t) - 5 <= sum <= 10 * SimilarityOf(t) + 5
  {
    var x := (t[0] + t[1] + t[2] + t[3] + t[4] + t[5]) as real / 10.0;
    var r := RoundHalfEven(x);
    assert r as real - 0.5 <= x <= r as real + 0.5;
  }

  /** The similarity is the sum of the six terms, rounded to a point. */
  lemma SimilarityIsTheSum(q: Features, c: Features)
    ensures var t := TermTenths(q, c); var sum := t[0] + t[1] + t[2] + t[3] + t[4] + t[5];
      10 * Similarity(q, c) - 5 <= sum <= 10 * Similarity(q, c) + 5
  {
    var t := TermTenths(q, c);
    forall k: nat | k < 6 ensures 0 <= t[k] <= 10 * WEIGHTS[k] { TermsStayWithinTheirWeights(q, c, k); }
    hide TermTenths, SimilarityOf;
    assert WEIGHTS == [30, 20, 15, 15, 10, 10];
    Within(t);
  }

  // --- what a case says --------------------------------------------------------------------

  /** A person is shown to be behind it: they corrected it, rejected it, or approved it without the machine. */
  predicate PersonBehind(r: Row) {
    || r.correction.Some?
    || (r.status == REJECTED && r.rejectedBy != AUTOPILOT_APPROVER && (r.rejectedBy == "" ==> "unknown" != AUTOPILOT_APPROVER))
    || (r.status != REJECTED && r.approvedBy != "" && r.approvedBy != AUTOPILOT_APPROVER && !r.basis)
  }

  /** The verdict that stood. */
  function Stood(r: Row): Verdict {
    match r.correction
    case Some(x) => x.verdict
    case None => r.verdict
  }

  /** It turned out wrong, came back, or its verdict was changed. */
  predicate WentWrong(r: Row) {
    || (r.outcome.Some? && (r.outcome.value.FALSE_POSITIVE? || r.outcome.value.REOPENED?))
    || (r.correction.Some? && r.correction.value.changed)
  }

  /** Decided within the last `STALENESS_DAYS` whole days. */
  predicate Recent(r: Row, now: int) { now - r.decidedAt < (STALENESS_DAYS + 1) * DAY }

  lemma RowsAreRead(r: Row, now: int)
    ensures HumanConfirmed(r) <==> PersonBehind(r)
    ensures FinalVerdict(r) == Stood(r)
    ensures Reversed(r) <==> WentWrong(r)
    ensures AgeDays(r, now) <= STALENESS_DAYS <==> Recent(r, now)
    ensures Fresh(r, now) <==> Recent(r, now) && !WentWrong(r)
  {
    var d: int, n: int, e := DAY, STALENESS_DAYS, now - r.decidedAt;
    Days(e, n, d);
  }

  lemma Days(e: int, n: int, d: int)
    requires n >= 0 && d > 0
    ensures Max(0, e / d) <= n <==> e < (n + 1) * d
  {
    assert e == e / d * d + e % d;
    if e / d <= n { AtMost(e / d, n, d); } else { AtMost(n + 1, e / d, d); }
  }

  lemma AtMost(a: int, b: int, d: int)
    requires a <= b && d > 0
    ensures a * d <= b * d
  {
  }

  /** The age in whole days, and never less than none. */
  lemma AgeIsInDays(r: Row, now: int)
    ensures r.decidedAt <= now ==> AgeDays(r, now) * DAY <= now - r.decidedAt < (AgeDays(r, now) + 1) * DAY
    ensures now < r.decidedAt ==> AgeDays(r, now) == 0
  {
    var d: int, e := DAY, now - r.decidedAt;
    assert e == e / d * d + e % d;
    if e >= 0 { assert e / d >= 0; } else { assert e / d < 0; }
  }

  function Counting(rows: seq<Row>, similar: seq<RowId>, v: Verdict, now: int): set<RowId> {
    set i | i in similar && i < |rows| && PersonBehind(rows[i]) && Stood(rows[i]) == v && Recent(rows[i], now) && !WentWrong(rows[i])
  }

  /** The gate opens exactly when no retrieved case with a person behind it says otherwise or went wrong, and enough are recent. */
  lemma GateOpensIff(rows: seq<Row>, similar: seq<RowId>, v: Verdict, now: int)
    requires Distinct(similar) && forall k :: 0 <= k < |similar| ==> similar[k] < |rows|
    ensures Gate(rows, similar, v, now).ok <==>
      && (forall k :: 0 <= k < |similar| && PersonBehind(rows[similar[k]]) ==>
            Stood(rows[similar[k]]) == v && !WentWrong(rows[similar[k]]))
      && |Counting(rows, similar, v, now)| >= MIN_PRECEDENTS
  {
    NothingAgainst(rows, similar, v);
    SelectIs(rows, similar, IsFresh(v, now));
    var recent := Select(rows, similar, IsFresh(v, now));
    hide Select, Counting, HumanConfirmed, FinalVerdict, Reversed, PersonBehind, Stood, WentWrong;
    forall k | 0 <= k < |similar|
      ensures HumanConfirmed(rows[similar[k]]) == PersonBehind(rows[similar[k]])
      ensures FinalVerdict(rows[similar[k]]) == Stood(rows[similar[k]])
      ensures Reversed(rows[similar[k]]) == WentWrong(rows[similar[k]])
    {
      RowsAreRead(rows[similar[k]], now);
    }
    CountingIs(rows, similar, v, now);
    SizeOf(recent);
  }

  lemma CountingIs(rows: seq<Row>, similar: seq<RowId>, v: Verdict, now: int)
    requires forall k :: 0 <= k < |similar| ==> similar[k] < |rows|
    ensures Counting(rows, similar, v, now) == Members(Select(rows, similar, IsFresh(v, now)))
  {
    hide Select, HumanConfirmed, FinalVerdict, Fresh, PersonBehind, Stood, WentWrong, Recent;
    SelectIs(rows, similar, IsFresh(v, now));
    forall i | i in similar && i < |rows|
      ensures IsFresh(v, now)(rows[i]) <==>
        PersonBehind(rows[i]) && Stood(rows[i]) == v && Recent(rows[i], now) && !WentWrong(rows[i])
    {
      RowsAreRead(rows[i], now);
    }
  }

  function Members(q: seq<RowId>): set<RowId> { set x | x in q }

  lemma {:induction false} SizeOf(q: seq<RowId>)
    requires Distinct(q)
    ensures |Members(q)| == |q|
  {
    if q != [] {
      var front, l := q[..|q| - 1], q[|q| - 1];
      SizeOf(front);
      assert q == front + [l];
      assert Members(q) == Members(front) + {l};
      assert l !in front;
    }
  }

  /** The cases come back by falling similarity, the younger first among equals, and only unmerged, settled others. */
  lemma RetrievedInOrder(rows: seq<Row>, self: RowId, q: Features, now: int, floor: int, take: nat, want: Verdict,
                         pool: seq<RowId>, top: seq<RowId>)
    requires IsPool(rows, self, pool) && IsTop(rows, q, now, floor, take, want, pool, top)
    ensures forall k :: 0 <= k < |top| ==>
      && top[k] < |rows| && top[k] != self && !rows[top[k]].merged
      && rows[top[k]].status in {APPROVED, EXECUTING, DONE, FAILED, REJECTED, SIMULATED}
      && Similarity(q, rows[top[k]].features) >= floor && (want != "" ==> Stood(rows[top[k]]) == want)
    ensures forall j, k :: 0 <= j < k < |top| ==>
      var a, b := Similarity(q, rows[top[j]].features), Similarity(q, rows[top[k]].features);
      a > b || (a == b && AgeDays(rows[top[j]], now) <= AgeDays(rows[top[k]], now))
  {
    hide Similarity, AgeDays;
    forall k | 0 <= k < |top|
      ensures top[k] < |rows| && top[k] != self && !rows[top[k]].merged
      ensures rows[top[k]].status in {APPROVED, EXECUTING, DONE, FAILED, REJECTED, SIMULATED}
    {
      assert top[k] in pool;
      var i :| 0 <= i < |pool| && pool[i] == top[k];
      assert Eligible(rows, self, pool[i]);
    }
  }
}
