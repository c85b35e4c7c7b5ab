/** Precedent retrieval and the gate machine approvals must pass (`orchestrator/precedent.py`). */
module Precedent {
  import opened Common

  type Positive = n: int | 1 <= n witness 1
  const CANDIDATE_POOL: Positive
  const MIN_PRECEDENTS: Positive
  const SIMILARITY_FLOOR: Positive
  const STALENESS_DAYS: Positive
  /** Clock ticks in a day. */
  const DAY: Positive
  /** The name machine approvals are stored under. */
  type Name = s: string | s != "" witness "tier2-autopilot"
  const AUTOPILOT_APPROVER: Name

  type Verdict = string
  type RowId = nat

  datatype Approval = PENDING | APPROVED | EXECUTING | DONE | FAILED | REJECTED | SIMULATED | SUPERSEDED
  datatype Outcome = TRUE_POSITIVE | FALSE_POSITIVE | REOPENED
  datatype Correction = Correction(verdict: Verdict, changed: bool)

  datatype Features = Features(techniques: set<string>, sources: set<string>, values: set<(string, string)>,
                               kinds: set<string>, tokens: set<string>, severity: string)

  /** A situation joined with its decision, its newest correction and its newest outcome. */
  datatype Row = Row(merged: bool, lastSeen: int, features: Features, verdict: Verdict, status: Approval,
                     approvedBy: string, rejectedBy: string, basis: bool,
                     correction: Option<Correction>, outcome: Option<Outcome>, decidedAt: int)

  // --- similarity -------------------------------------------------------------------

  const W_TECHNIQUE := 30
  const W_TEXT := 20
  const W_SOURCE := 15
  const W_VALUE := 15
  const W_SHAPE := 10
  const W_SEVERITY := 10

  function Jaccard<T>(a: set<T>, b: set<T>): real {
    if a == {} || b == {} then 0.0 else UnionNonempty(a, b); |a * b| as real / |a + b| as real
  }

  lemma UnionNonempty<T>(a: set<T>, b: set<T>)
    requires a != {}
    ensures |a + b| > 0
  {
    var x :| x in a;
    assert x in a + b;
  }

  function Overlap<T>(a: set<T>, b: set<T>): real {
    if a == {} || b == {} then 0.0 else |a * b| as real / Min(|a|, |b|) as real
  }

  function Rank(s: string): int {
    if s == "LOW" then 0 else if s == "MEDIUM" then 1 else if s == "HIGH" then 2 else if s == "CRITICAL" then 3 else 1
  }

  function Closeness(a: string, b: string): real {
    var distance := if Rank(a) >= Rank(b) then Rank(a) - Rank(b) else Rank(b) - Rank(a);
    if distance >= 3 then 0.0 else 1.0 - distance as real / 3.0
  }

  /** Points rounded to one decimal, counted in tenths. */
  function Tenths(ratio: real, weight: int): int { RoundHalfEven(ratio * weight as real * 10.0) }

  function TermTenths(q: Features, c: Features): seq<int> {
    [Tenths(Overlap(q.techniques, c.techniques), W_TECHNIQUE),
     Tenths(Jaccard(q.tokens, c.tokens), W_TEXT),
     Tenths(Jaccard(q.sources, c.sources), W_SOURCE),
     Tenths(Overlap(q.values, c.values), W_VALUE),
     Tenths(Jaccard(q.kinds, c.kinds), W_SHAPE),
     Tenths(Closeness(q.severity, c.severity), W_SEVERITY)]
  }

  function SimilarityOf(t: seq<int>): int
    requires |t| == 6
  {
    var total := t[0] + t[1] + t[2] + t[3] + t[4] + t[5];
    RoundHalfEven(if total > 1000 then 100.0 else total as real / 10.0)
  }

  function Similarity(q: Features, c: Features): int { SimilarityOf(TermTenths(q, c)) }

  lemma RatioRange<T>(a: set<T>, b: set<T>)
    ensures 0.0 <= Jaccard(a, b) <= 1.0 && 0.0 <= Overlap(a, b) <= 1.0
    ensures Jaccard(a, b) == Jaccard(b, a) && Overlap(a, b) == Overlap(b, a)
    ensures a != {} ==> Jaccard(a, a) == 1.0 && Overlap(a, a) == 1.0
  {
    assert a * b == b * a && a + b == b + a && a * a == a && a + a == a;
    InterSize(a, b);
    if a != {} && b != {} {
      UnionNonempty(a, b);
      Fraction(|a * b|, |a + b|);
      Fraction(|a * b|, Min(|a|, |b|));
    }
    if a != {} { Fraction(|a|, |a|); }
  }

  lemma Fraction(m: nat, n: nat)
    requires m <= n && n > 0
    ensures 0.0 <= m as real / n as real <= 1.0
    ensures m == n ==> m as real / n as real == 1.0
  {
  }

  lemma InterSize<T>(a: set<T>, b: set<T>)
    ensures |a * b| <= |a| && |a * b| <= |b| && |a * b| <= |a + b|
  {
    assert a == a * b + (a - b);
    assert b == a * b + (b - a);
    assert a + b == a + (b - a);
  }

  lemma TenthsRange(ratio: real, weight: int)
    requires 0.0 <= ratio <= 1.0 && weight >= 0
    ensures 0 <= Tenths(ratio, weight) <= 10 * weight
  {
    var x := ratio * weight as real;
    assert 0.0 <= x <= weight as real;
    RoundIsMonotone(0.0, x * 10.0);
    RoundIsMonotone(x * 10.0, (10 * weight) as real);
    RoundOfInteger(10 * weight);
  }

  /** A similarity is a percentage, the same in both directions, and full for a fully described twin. */
  lemma SimilarityIsAPercentage(q: Features, c: Features)
    ensures 0 <= Similarity(q, c) <= 100
    ensures Similarity(q, c) == Similarity(c, q)
    ensures q.techniques != {} && q.sources != {} && q.values != {} && q.kinds != {} && q.tokens != {}
            ==> Similarity(q, q) == 100
  {
    hide Jaccard, Overlap, Tenths, SimilarityOf;
    RatioRange(q.techniques, c.techniques);
    RatioRange(q.tokens, c.tokens);
    RatioRange(q.sources, c.sources);
    RatioRange(q.values, c.values);
    RatioRange(q.kinds, c.kinds);
    TenthsRange(Overlap(q.techniques, c.techniques), W_TECHNIQUE);
    TenthsRange(Jaccard(q.tokens, c.tokens), W_TEXT);
    TenthsRange(Jaccard(q.sources, c.sources), W_SOURCE);
    TenthsRange(Overlap(q.values, c.values), W_VALUE);
    TenthsRange(Jaccard(q.kinds, c.kinds), W_SHAPE);
    TenthsRange(Closeness(q.severity, c.severity), W_SEVERITY);
    TotalRange(TermTenths(q, c));
    if q.techniques != {} && q.sources != {} && q.values != {} && q.kinds != {} && q.tokens != {} {
      FullMarks(q);
    }
  }

  const WEIGHTS := [W_TECHNIQUE, W_TEXT, W_SOURCE, W_VALUE, W_SHAPE, W_SEVERITY]

  /** What two cases have in common, property by property; severities always compare. */
  predicate Shares(q: Features, c: Features, k: nat) {
    match k
    case 0 => q.techniques * c.techniques != {}
    case 1 => q.tokens * c.tokens != {}
    case 2 => q.sources * c.sources != {}
    case 3 => q.values * c.values != {}
    case 4 => q.kinds * c.kinds != {}
    case _ => Rank(q.severity) - Rank(c.severity) < 3 && Rank(c.severity) - Rank(q.severity) < 3
  }

  /** Each property earns at most its own weight, and nothing where nothing is shared; the weights make 100. */
  lemma TermsStayWithinTheirWeights(q: Features, c: Features, k: nat)
    requires k < 6
    ensures 0 <= TermTenths(q, c)[k] <= 10 * WEIGHTS[k]
    ensures !Shares(q, c, k) ==> TermTenths(q, c)[k] == 0
    ensures W_TECHNIQUE + W_TEXT + W_SOURCE + W_VALUE + W_SHAPE + W_SEVERITY == 100
  {
    hide Jaccard, Overlap, Tenths;
    RatioRange(q.techniques, c.techniques);
    RatioRange(q.tokens, c.tokens);
    RatioRange(q.sources, c.sources);
    RatioRange(q.values, c.values);
    RatioRange(q.kinds, c.kinds);
    DisjointRatio(q.techniques, c.techniques);
    DisjointRatio(q.tokens, c.tokens);
    DisjointRatio(q.sources, c.sources);
    DisjointRatio(q.values, c.values);
    DisjointRatio(q.kinds, c.kinds);
    var ratio :=
      if k == 0 then Overlap(q.techniques, c.techniques) else if k == 1 then Jaccard(q.tokens, c.tokens)
      else if k == 2 then Jaccard(q.sources, c.sources) else if k == 3 then Overlap(q.values, c.values)
      else if k == 4 then Jaccard(q.kinds, c.kinds) else Closeness(q.severity, c.severity);
    TenthsRange(ratio, WEIGHTS[k]);
    NoTenths(WEIGHTS[k]);
  }

  lemma DisjointRatio<T>(a: set<T>, b: set<T>)
    ensures a * b == {} ==> Jaccard(a, b) == 0.0 && Overlap(a, b) == 0.0
  {
  }

  lemma NoTenths(weight: int)
    ensures Tenths(0.0, weight) == 0
  {
    RoundOfInteger(0);
    assert 0.0 * weight as real * 10.0 == 0.0;
  }

  lemma TotalRange(t: seq<int>)
    requires |t| == 6 && forall i :: 0 <= i < 6 ==> t[i] >= 0
    ensures 0 <= SimilarityOf(t) <= 100
  {
    var total := t[0] + t[1] + t[2] + t[3] + t[4] + t[5];
    var x := if total > 1000 then 100.0 else total as real / 10.0;
    RoundIsMonotone(0.0, x);
    RoundIsMonotone(x, 100.0);
    RoundOfInteger(0);
    RoundOfInteger(100);
  }

  lemma FullMarks(q: Features)
    requires q.techniques != {} && q.sources != {} && q.values != {} && q.kinds != {} && q.tokens != {}
    ensures Similarity(q, q) == 100
  {
    hide Jaccard, Overlap;
    RatioRange(q.techniques, q.techniques);
    RatioRange(q.tokens, q.tokens);
    RatioRange(q.sources, q.sources);
    RatioRange(q.values, q.values);
    RatioRange(q.kinds, q.kinds);
    RoundOfInteger(300);
    RoundOfInteger(200);
    RoundOfInteger(150);
    RoundOfInteger(100);
    assert TermTenths(q, q) == [300, 200, 150, 150, 100, 100];
  }

  /** The accumulating loop over the terms. */
  method ScoreSimilarity(q: Features, c: Features) returns (similarity: int, points: seq<int>)
    ensures similarity == Similarity(q, c) && 0 <= similarity <= 100
    ensures points == TermTenths(q, c)
  {
    SimilarityIsAPercentage(q, c);
    points := TermTenths(q, c);
    assert Similarity(q, c) == SimilarityOf(points);
    hide Similarity, TermTenths, RoundHalfEven;
    var total := 0;
    for i := 0 to |points|
      invariant total == Prefix(points, i)
    {
      total := total + points[i];
    }
    PrefixOfSix(points);
    similarity := RoundHalfEven(if total > 1000 then 100.0 else total as real / 10.0);
  }

  function Prefix(t: seq<int>, n: nat): int
    requires n <= |t|
  {
    if n == 0 then 0 else Prefix(t, n - 1) + t[n - 1]
  }

  lemma PrefixOfSix(t: seq<int>)
    requires |t| == 6
    ensures Prefix(t, 6) == t[0] + t[1] + t[2] + t[3] + t[4] + t[5]
  {
    assert Prefix(t, 1) == t[0];
    assert Prefix(t, 2) == t[0] + t[1];
    assert Prefix(t, 4) == t[0] + t[1] + t[2] + t[3];
  }

  // --- what a row says ---------------------------------------------------------------

  predicate Settled(s: Approval) {
    s == APPROVED || s == EXECUTING || s == DONE || s == FAILED || s == REJECTED || s == SIMULATED
  }

  /** `_resolution`: is a person shown to stand behind the row as it is? */
  predicate Resolved(r: Row) {
    if r.status == REJECTED then (if r.rejectedBy == "" then "unknown" else r.rejectedBy) != AUTOPILOT_APPROVER
    else r.approvedBy != "" && !(r.basis || r.approvedBy == AUTOPILOT_APPROVER)
  }

  predicate HumanConfirmed(r: Row) { r.correction.Some? || Resolved(r) }

  function FinalVerdict(r: Row): Verdict { if r.correction.Some? then r.correction.value.verdict else r.verdict }

  predicate Reversed(r: Row) {
    || r.outcome == Some(FALSE_POSITIVE) || r.outcome == Some(REOPENED)
    || (r.correction.Some? && r.correction.value.changed)
  }

  function AgeDays(r: Row, now: int): int { Max(0, (now - r.decidedAt) / DAY) }

  predicate Fresh(r: Row, now: int) { AgeDays(r, now) <= STALENESS_DAYS && !Reversed(r) }

  // --- retrieval ------------------------------------------------------------------------

  predicate Distinct<T(==)>(q: seq<T>) { forall i, j :: 0 <= i < j < |q| ==> q[i] != q[j] }

  predicate Eligible(rows: seq<Row>, self: RowId, i: RowId) {
    i < |rows| && i != self && !rows[i].merged && Settled(rows[i].status)
  }

  /** The newest settled situations, as many as the pool holds; ties are left to the database. */
  ghost predicate IsPool(rows: seq<Row>, self: RowId, pool: seq<RowId>) {
    && Distinct(pool) && |pool| <= CANDIDATE_POOL
    && (forall k :: 0 <= k < |pool| ==> Eligible(rows, self, pool[k]))
    && (forall j, k :: 0 <= j < k < |pool| ==> rows[pool[j]].lastSeen >= rows[pool[k]].lastSeen)
    && (forall i: RowId :: Eligible(rows, self, i) && i !in pool ==>
          |pool| == CANDIDATE_POOL && forall k :: 0 <= k < |pool| ==> rows[pool[k]].lastSeen >= rows[i].lastSeen)
  }

  /** The order of the result: more similar first, then younger. */
  predicate NoWorse(rows: seq<Row>, q: Features, now: int, i: RowId, j: RowId)
    requires i < |rows| && j < |rows|
  {
    var a, b := Similarity(q, rows[i].features), Similarity(q, rows[j].features);
    a > b || (a == b && AgeDays(rows[i], now) <= AgeDays(rows[j], now))
  }

  /** Similar enough, and of the verdict asked for, if one is. */
  predicate Kept(rows: seq<Row>, q: Features, floor: int, want: Verdict, i: RowId) {
    i < |rows| && Similarity(q, rows[i].features) >= floor && (want != "" ==> FinalVerdict(rows[i]) == want)
  }

  /** The `take` best of those kept from the pool, best first. */
  ghost predicate IsTop(rows: seq<Row>, q: Features, now: int, floor: int, take: nat, want: Verdict,
                        pool: seq<RowId>, top: seq<RowId>) {
    && Distinct(top) && |top| <= take
    && (forall k :: 0 <= k < |top| ==> top[k] in pool && Kept(rows, q, floor, want, top[k]))
    && (forall j, k :: 0 <= j < k < |top| ==> NoWorse(rows, q, now, top[j], top[k]))
    && (forall i :: i in pool && i !in top && Kept(rows, q, floor, want, i) ==>
          |top| == take && forall k :: 0 <= k < |top| ==> NoWorse(rows, q, now, top[k], i))
  }

  function InsertBest(rows: seq<Row>, q: Features, now: int, scored: seq<RowId>, i: RowId): seq<RowId>
    requires i < |rows| && forall k :: 0 <= k < |scored| ==> scored[k] < |rows|
  {
    if scored == [] || NoWorse(rows, q, now, scored[|scored| - 1], i) then scored + [i]
    else InsertBest(rows, q, now, scored[..|scored| - 1], i) + [scored[|scored| - 1]]
  }

  ghost predicate Ranked(rows: seq<Row>, q: Features, now: int, scored: seq<RowId>) {
    && Distinct(scored)
    && (forall k :: 0 <= k < |scored| ==> scored[k] < |rows|)
    && (forall j, k :: 0 <= j < k < |scored| ==> NoWorse(rows, q, now, scored[j], scored[k]))
  }

  lemma {:induction false} InsertBestRanks(rows: seq<Row>, q: Features, now: int, scored: seq<RowId>, i: RowId)
    requires Ranked(rows, q, now, scored) && i < |rows| && i !in scored
    ensures Ranked(rows, q, now, InsertBest(rows, q, now, scored, i))
    ensures forall x :: x in InsertBest(rows, q, now, scored, i) <==> x in scored || x == i
  {
    hide Similarity, AgeDays;
    if scored != [] && !NoWorse(rows, q, now, scored[|scored| - 1], i) {
      var front, l := scored[..|scored| - 1], scored[|scored| - 1];
      assert scored == front + [l] && l !in front;
      InsertBestRanks(rows, q, now, front, i);
      var f := InsertBest(rows, q, now, front, i);
      forall k | 0 <= k < |f| ensures NoWorse(rows, q, now, f[k], l) {
        assert f[k] in f;
        if f[k] != i {
          var m :| 0 <= m < |front| && front[m] == f[k];
        }
      }
    }
  }

  /** The first `n` of a list, in order. */
  ghost predicate IsSorted(rows: seq<Row>, q: Features, now: int, list: seq<RowId>, n: nat, sorted: seq<RowId>)
    requires n <= |list|
  {
    Ranked(rows, q, now, sorted) && forall x :: x in sorted <==> x in list[..n]
  }

  lemma SortedGrows(rows: seq<Row>, q: Features, now: int, list: seq<RowId>, n: nat, sorted: seq<RowId>)
    requires Distinct(list) && n < |list| && list[n] < |rows|
    requires IsSorted(rows, q, now, list, n, sorted)
    ensures forall k :: 0 <= k < |sorted| ==> sorted[k] < |rows|
    ensures IsSorted(rows, q, now, list, n + 1, InsertBest(rows, q, now, sorted, list[n]))
  {
    hide NoWorse, InsertBest;
    assert list[..n + 1] == list[..n] + [list[n]] && list[n] !in list[..n];
    InsertBestRanks(rows, q, now, sorted, list[n]);
  }

  lemma PrefixContains(s: seq<RowId>, n: nat)
    requires n <= |s|
    ensures forall m :: 0 <= m < n ==> s[m] in s[..n]
  {
    assert forall m :: 0 <= m < n ==> s[..n][m] == s[m];
  }

  function IsOf(want: Verdict): Row -> bool { (r: Row) => FinalVerdict(r) == want }

  method DropBelow(rows: seq<Row>, q: Features, floor: int, pool: seq<RowId>) returns (scored: seq<RowId>)
    requires Distinct(pool) && forall k :: 0 <= k < |pool| ==> pool[k] < |rows|
    ensures Distinct(scored)
    ensures forall x :: x in scored <==> x in pool && Kept(rows, q, floor, "", x)
  {
    hide Similarity, FinalVerdict;
    scored := [];
    for i := 0 to |pool|
      invariant Distinct(scored)
      invariant forall x :: x in scored <==> x in pool[..i] && Kept(rows, q, floor, "", x)
    {
      assert pool[..i + 1] == pool[..i] + [pool[i]] && pool[i] !in pool[..i];
      var similarity, _ := ScoreSimilarity(q, rows[pool[i]].features);
      if similarity >= floor { scored := scored + [pool[i]]; }
    }
    assert pool[..|pool|] == pool;
  }

  method SortCases(rows: seq<Row>, q: Features, now: int, list: seq<RowId>) returns (sorted: seq<RowId>)
    requires Distinct(list) && forall k :: 0 <= k < |list| ==> list[k] < |rows|
    ensures Ranked(rows, q, now, sorted) && forall x :: x in sorted <==> x in list
  {
    sorted := [];
    for i := 0 to |list|
      invariant IsSorted(rows, q, now, list, i, sorted)
    {
      hide *;
      SortedGrows(rows, q, now, list, i, sorted);
      sorted := InsertBest(rows, q, now, sorted, list[i]);
    }
    assert list[..|list|] == list;
  }

  /** Score the pool, drop what is below the floor or of another verdict, sort, cut. */
  method FindPrecedents(rows: seq<Row>, q: Features, now: int, floor: int, take: nat, want: Verdict, pool: seq<RowId>)
    returns (top: seq<RowId>)
    requires Distinct(pool) && forall k :: 0 <= k < |pool| ==> pool[k] < |rows|
    ensures IsTop(rows, q, now, floor, take, want, pool, top)
  {
    hide Similarity, FinalVerdict, NoWorse, Distinct, Ranked, IsTop, Select;
    var scored := DropBelow(rows, q, floor, pool);
    assert forall k :: 0 <= k < |scored| ==> scored[k] in scored;
    if want != "" {
      SelectIs(rows, scored, IsOf(want));
      scored := Select(rows, scored, IsOf(want));
      assert forall k :: 0 <= k < |scored| ==> scored[k] in scored;
    }
    var sorted := SortCases(rows, q, now, scored);
    top := if |sorted| <= take then sorted else sorted[..take];
    TopOfRanked(rows, q, now, floor, take, want, pool, sorted, top);
  }

  lemma TopOfRanked(rows: seq<Row>, q: Features, now: int, floor: int, take: nat, want: Verdict, pool: seq<RowId>,
                    scored: seq<RowId>, top: seq<RowId>)
    requires Ranked(rows, q, now, scored)
    requires forall x :: x in scored <==> x in pool && Kept(rows, q, floor, want, x)
    requires top == if |scored| <= take then scored else scored[..take]
    ensures IsTop(rows, q, now, floor, take, want, pool, top)
  {
    hide Kept, NoWorse;
    assert top == scored[..|top|];
    PrefixContains(scored, |top|);
    assert forall k :: 0 <= k < |top| ==> top[k] == scored[k] && scored[k] in scored;
    forall i | i in scored && i !in top
      ensures |top| == take && forall k :: 0 <= k < |top| ==> NoWorse(rows, q, now, top[k], i)
    {
      var m :| 0 <= m < |scored| && scored[m] == i;
    }
  }

  // --- the gate -------------------------------------------------------------------------

  datatype Basis = Basis(matching: seq<RowId>, recent: seq<RowId>, reversals: nat, contrary: nat, ok: bool)

  function Select(rows: seq<Row>, ids: seq<RowId>, keep: Row -> bool): seq<RowId>
    requires forall k :: 0 <= k < |ids| ==> ids[k] < |rows|
  {
    if ids == [] then []
    else
      var front, l := ids[..|ids| - 1], ids[|ids| - 1];
      Select(rows, front, keep) + (if keep(rows[l]) then [l] else [])
  }

  function IsMatching(v: Verdict): Row -> bool { (r: Row) => HumanConfirmed(r) && FinalVerdict(r) == v }

  function IsContrary(v: Verdict): Row -> bool { (r: Row) => HumanConfirmed(r) && FinalVerdict(r) != v }

  function IsReversal(v: Verdict): Row -> bool { (r: Row) => HumanConfirmed(r) && FinalVerdict(r) == v && Reversed(r) }

  function IsFresh(v: Verdict, now: int): Row -> bool {
    (r: Row) => HumanConfirmed(r) && FinalVerdict(r) == v && Fresh(r, now)
  }

  /** Does what was retrieved support acting on the verdict without a person? */
  function Gate(rows: seq<Row>, similar: seq<RowId>, v: Verdict, now: int): Basis
    requires forall k :: 0 <= k < |similar| ==> similar[k] < |rows|
  {
    var matching := Select(rows, similar, IsMatching(v));
    var recent := Select(rows, similar, IsFresh(v, now));
    var reversals, contrary := |Select(rows, similar, IsReversal(v))|, |Select(rows, similar, IsContrary(v))|;
    Basis(matching, recent, reversals, contrary, reversals == 0 && contrary == 0 && |recent| >= MIN_PRECEDENTS)
  }

  lemma {:induction false} SelectIs(rows: seq<Row>, ids: seq<RowId>, keep: Row -> bool)
    requires forall k :: 0 <= k < |ids| ==> ids[k] < |rows|
    ensures forall x :: x in Select(rows, ids, keep) <==> x in ids && x < |rows| && keep(rows[x])
    ensures Distinct(ids) ==> Distinct(Select(rows, ids, keep))
  {
    if ids != [] {
      var front, l := ids[..|ids| - 1], ids[|ids| - 1];
      assert ids == front + [l];
      SelectIs(rows, front, keep);
      if Distinct(ids) { assert l !in front; }
    }
  }

  lemma SelectNext(rows: seq<Row>, ids: seq<RowId>, i: nat, keep: Row -> bool)
    requires i < |ids| && forall k :: 0 <= k < |ids| ==> ids[k] < |rows|
    ensures Select(rows, ids[..i + 1], keep) == Select(rows, ids[..i], keep) + (if keep(rows[ids[i]]) then [ids[i]] else [])
  {
    assert ids[..i + 1][..i] == ids[..i];
  }

  /** No reversal and no contrary case among those retrieved. */
  lemma NothingAgainst(rows: seq<Row>, similar: seq<RowId>, v: Verdict)
    requires forall k :: 0 <= k < |similar| ==> similar[k] < |rows|
    ensures Select(rows, similar, IsReversal(v)) == [] && Select(rows, similar, IsContrary(v)) == [] <==>
      forall k :: 0 <= k < |similar| && HumanConfirmed(rows[similar[k]]) ==>
        FinalVerdict(rows[similar[k]]) == v && !Reversed(rows[similar[k]])
  {
    hide HumanConfirmed, FinalVerdict, Reversed, Select;
    SelectIs(rows, similar, IsReversal(v));
    SelectIs(rows, similar, IsContrary(v));
    var a, b := Select(rows, similar, IsReversal(v)), Select(rows, similar, IsContrary(v));
    if a != [] { assert a[0] in a; }
    if b != [] { assert b[0] in b; }
    forall k | a == [] && b == [] && 0 <= k < |similar| && HumanConfirmed(rows[similar[k]])
      ensures FinalVerdict(rows[similar[k]]) == v && !Reversed(rows[similar[k]])
    {
      assert similar[k] !in a && similar[k] !in b;
    }
  }

  /** The gate's loop over the retrieved cases. */
  method AutopilotPrecedent(rows: seq<Row>, similar: seq<RowId>, v: Verdict, now: int) returns (basis: Basis)
    requires forall k :: 0 <= k < |similar| ==> similar[k] < |rows|
    ensures basis == Gate(rows, similar, v, now)
    ensures basis.ok <==>
      && (forall k :: 0 <= k < |similar| && HumanConfirmed(rows[similar[k]]) ==>
            FinalVerdict(rows[similar[k]]) == v && !Reversed(rows[similar[k]]))
      && |basis.recent| >= MIN_PRECEDENTS
  {
    var matching, recent, reversals, contrary := [], [], 0, 0;
    for i := 0 to |similar|
      invariant matching == Select(rows, similar[..i], IsMatching(v))
      invariant recent == Select(rows, similar[..i], IsFresh(v, now))
      invariant reversals == |Select(rows, similar[..i], IsReversal(v))|
      invariant contrary == |Select(rows, similar[..i], IsContrary(v))|
    {
      SelectNext(rows, similar, i, IsMatching(v));
      SelectNext(rows, similar, i, IsFresh(v, now));
      SelectNext(rows, similar, i, IsReversal(v));
      SelectNext(rows, similar, i, IsContrary(v));
      hide HumanConfirmed, FinalVerdict, Reversed, AgeDays, Select, Fresh;
      var r := rows[similar[i]];
      if HumanConfirmed(r) {
        if FinalVerdict(r) == v {
          matching := matching + [similar[i]];
          if Reversed(r) { reversals := reversals + 1; }
          if Fresh(r, now) { recent := recent + [similar[i]]; }
        } else {
          contrary := contrary + 1;
        }
      }
    }
    assert similar[..|similar|] == similar;
    NothingAgainst(rows, similar, v);
    hide Select, HumanConfirmed, FinalVerdict, Reversed, AgeDays;
    basis := Basis(matching, recent, reversals, contrary, reversals == 0 && contrary == 0 && |recent| >= MIN_PRECEDENTS);
  }

  /** How many cases the gate retrieves. */
  const TAKE: nat := Max(4 * MIN_PRECEDENTS, 12)

  /** What the gate may retrieve for a situation and say of a verdict, given the pool. */
  ghost predicate GateMaySay(rows: seq<Row>, self: RowId, q: Features, v: Verdict, now: int, similar: seq<RowId>, basis: Basis) {
    exists pool ::
      && IsPool(rows, self, pool) && IsTop(rows, q, now, SIMILARITY_FLOOR, TAKE, "", pool, similar)
      && (forall k :: 0 <= k < |similar| ==> similar[k] < |rows|) && basis == Gate(rows, similar, v, now)
  }

  /** The whole gate: retrieve at its own floor and limit, then judge. */
  method ConsultGate(rows: seq<Row>, self: RowId, q: Features, v: Verdict, now: int, pool: seq<RowId>)
    returns (similar: seq<RowId>, basis: Basis)
    requires IsPool(rows, self, pool)
    ensures IsTop(rows, q, now, SIMILARITY_FLOOR, TAKE, "", pool, similar)
    ensures GateMaySay(rows, self, q, v, now, similar, basis)
    ensures basis.ok ==> |similar| >= MIN_PRECEDENTS
  {
    similar := FindPrecedents(rows, q, now, SIMILARITY_FLOOR, TAKE, "", pool);
    assert forall k :: 0 <= k < |similar| ==> similar[k] < |rows|;
    basis := AutopilotPrecedent(rows, similar, v, now);
    SelectFewer(rows, similar, IsFresh(v, now));
    hide IsTop, IsPool, Gate;
    assert GateMaySay(rows, self, q, v, now, similar, basis);
  }

  lemma {:induction false} SelectFewer(rows: seq<Row>, ids: seq<RowId>, keep: Row -> bool)
    requires forall k :: 0 <= k < |ids| ==> ids[k] < |rows|
    ensures |Select(rows, ids, keep)| <= |ids|
  {
    if ids != [] { SelectFewer(rows, ids[..|ids| - 1], keep); }
  }
}
