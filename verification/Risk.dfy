/** The deterministic risk score of a situation (`score_situation` in `orchestrator/situation.py`). */
module Risk {
  import opened Common
  import opened Detections

  const CROSS_TOOL_POINTS := 12
  const CROSS_TOOL_CAP := 24
  const VOLUME_POINTS := 2
  const VOLUME_CAP := 10
  const MULTI_HOST_POINTS := 6
  const MULTI_USER_POINTS := 4
  const MULTI_TECHNIQUE_POINTS := 5

  datatype FactorKind =
    | HighestMemberSeverity | CrossToolCorroboration | DetectionVolume
    | MultipleHosts | MultipleAccounts | MultipleTechniques | SourceTrustWeight

  datatype Factor = Factor(kind: FactorKind, points: int)

  type Trust = map<string, real>

  // --- What is counted ------------------------------------------------------

  function SeverityOf(d: Detection): string { if d.severity == "" then "MEDIUM" else d.severity }

  function SourceOf(d: Detection): string { if d.sourceTool == "" then "unknown" else d.sourceTool }

  function Severities(ms: seq<Detection>): seq<string> {
    seq(|ms|, i requires 0 <= i < |ms| => SeverityOf(ms[i]))
  }

  function Elems(ms: seq<Detection>): set<Detection> { set d | d in ms }

  function SourcesIn(ds: set<Detection>): set<string> { set d | d in ds :: SourceOf(d) }

  function HostsIn(ds: set<Detection>): set<string> { (set d | d in ds :: Lower(d.entities.host)) - {""} }

  function UsersIn(ds: set<Detection>): set<string> { (set d | d in ds :: Lower(d.entities.user)) - {""} }

  function TechniquesIn(ds: set<Detection>): set<string> { set d, t | d in ds && t in d.techniques :: t }

  function Sources(ms: seq<Detection>): set<string> { SourcesIn(Elems(ms)) }

  function Hosts(ms: seq<Detection>): set<string> { HostsIn(Elems(ms)) }

  function Users(ms: seq<Detection>): set<string> { UsersIn(Elems(ms)) }

  function Techniques(ms: seq<Detection>): set<string> { TechniquesIn(Elems(ms)) }

  // --- The specification ----------------------------------------------------

  function SeverityBase(s: string): int {
    if s == "CRITICAL" then 88
    else if s == "HIGH" then 70
    else if s == "MEDIUM" then 45
    else if s == "LOW" then 22
    else 45
  }

  function Capped(cap: int, points: int, extra: int): int { if extra > 0 then Min(cap, points * extra) else 0 }

  /** The countable facts a score is made of. */
  datatype Profile = Profile(top: string, tools: nat, volume: nat, hosts: nat, users: nat, techniques: nat)

  function ProfileOf(ms: seq<Detection>): Profile {
    Profile(MaxSeverity(Severities(ms)), |Sources(ms)|, |ms|, |Hosts(ms)|, |Users(ms)|, |Techniques(ms)|)
  }

  function RawOf(p: Profile): int {
    SeverityBase(p.top)
    + Capped(CROSS_TOOL_CAP, CROSS_TOOL_POINTS, p.tools - 1)
    + Capped(VOLUME_CAP, VOLUME_POINTS, p.volume - 1)
    + (if p.hosts >= 2 then MULTI_HOST_POINTS else 0)
    + (if p.users >= 2 then MULTI_USER_POINTS else 0)
    + (if p.techniques >= 2 then MULTI_TECHNIQUE_POINTS else 0)
  }

  /** The total before any trust weighting. */
  function Raw(ms: seq<Detection>): int { RawOf(ProfileOf(ms)) }

  function TrustIn(trust: Trust, source: string): real { if source in trust then trust[source] else 1.0 }

  ghost function TrustSum(sources: set<string>, trust: Trust): real {
    if sources == {} then 0.0
    else
      var x :| x in sources;
      TrustIn(trust, x) + TrustSum(sources - {x}, trust)
  }

  ghost function MeanTrust(ms: seq<Detection>, trust: Trust): real
    requires ms != []
  {
    SourcesNonempty(ms);
    TrustSum(Sources(ms), trust) / |Sources(ms)| as real
  }

  predicate Neutral(mean: real) { -0.001 <= mean - 1.0 <= 0.001 }

  /** The total the factors explain, before clamping to 0..100. */
  ghost function Unclamped(ms: seq<Detection>, trust: Trust): int
    requires ms != []
  {
    Weigh(Raw(ms), MeanTrust(ms, trust))
  }

  function Weigh(raw: int, mean: real): int {
    if Neutral(mean) then raw else RoundHalfEven(raw as real * mean)
  }

  ghost function Score(ms: seq<Detection>, trust: Trust): int {
    if ms == [] then 0 else Max(0, Min(100, Unclamped(ms, trust)))
  }

  function SeverityFromScore(score: int): string {
    if score >= 85 then "CRITICAL" else if score >= 65 then "HIGH" else if score >= 40 then "MEDIUM" else "LOW"
  }

  function Points(factors: seq<Factor>): int {
    if factors == [] then 0 else Points(factors[..|factors| - 1]) + factors[|factors| - 1].points
  }

  lemma PointsAppend(factors: seq<Factor>, f: Factor)
    ensures Points(factors + [f]) == Points(factors) + f.points
  {
    assert (factors + [f])[..|factors|] == factors;
  }

  lemma SourcesNonempty(ms: seq<Detection>)
    requires ms != []
    ensures |Sources(ms)| > 0
  {
    assert ms[0] in Elems(ms);
    assert SourceOf(ms[0]) in Sources(ms);
  }

  /** The sum does not depend on which source is taken first. */
  lemma {:induction false} TrustSumPick(sources: set<string>, x: string, trust: Trust)
    requires x in sources
    ensures TrustSum(sources, trust) == TrustIn(trust, x) + TrustSum(sources - {x}, trust)
    decreases |sources|
  {
    var y :| y in sources && TrustSum(sources, trust) == TrustIn(trust, y) + TrustSum(sources - {y}, trust);
    if y != x {
      TrustSumPick(sources - {y}, x, trust);
      TrustSumPick(sources - {x}, y, trust);
      assert sources - {y} - {x} == sources - {x} - {y};
    }
  }

  // --- The loop ---------------------------------------------------------------

  method SumTrust(sources: set<string>, trust: Trust) returns (total: real)
    ensures total == TrustSum(sources, trust)
  {
    var todo := sources;
    total := 0.0;
    while todo != {}
      invariant todo <= sources
      invariant total + TrustSum(todo, trust) == TrustSum(sources, trust)
    {
      var x :| x in todo;
      TrustSumPick(todo, x, trust);
      total := total + TrustIn(trust, x);
      todo := todo - {x};
    }
  }

  /** Score a situation, keeping every term with its points. */
  method ScoreSituation(ms: seq<Detection>, trust: Trust)
    returns (score: int, severity: string, factors: seq<Factor>)
    ensures score == Score(ms, trust) && severity == SeverityFromScore(score)
    ensures (severity == "CRITICAL" <==> score >= 85) && (severity == "HIGH" <==> 65 <= score < 85)
    ensures (severity == "MEDIUM" <==> 40 <= score < 65) && (severity == "LOW" <==> score < 40)
    ensures 0 <= score <= 100
    ensures ms == [] ==> factors == []
    ensures ms != [] ==> Points(factors) == Unclamped(ms, trust)
  {
    if ms == [] {
      return 0, "LOW", [];
    }
    var top := FindMaxSeverity(Severities(ms));
    MaxSeverityIsUnique(Severities(ms), top);
    var sources := Sources(ms);
    SourcesNonempty(ms);
    score, factors := CountFactors(Profile(top, |sources|, |ms|, |Hosts(ms)|, |Users(ms)|, |Techniques(ms)|));
    var total := SumTrust(sources, trust);
    var mean := total / |sources| as real;
    assert mean == MeanTrust(ms, trust) && score == Raw(ms);
    if !Neutral(mean) {
      score, factors := AddFactor(score, factors, SourceTrustWeight, Weigh(score, mean) - score);
    }
    assert score == Unclamped(ms, trust);
    score := Max(0, Min(100, score));
    severity := SeverityFromScore(score);
  }

  /** The terms that are countable facts about the members. */
  method CountFactors(p: Profile) returns (score: int, factors: seq<Factor>)
    requires p.tools > 0 && p.volume > 0
    ensures score == RawOf(p) == Points(factors)
  {
    score, factors := AddFactor(0, [], HighestMemberSeverity, SeverityBase(p.top));
    if p.tools > 1 {
      score, factors := AddFactor(score, factors, CrossToolCorroboration, Min(CROSS_TOOL_CAP, CROSS_TOOL_POINTS * (p.tools - 1)));
    }
    if p.volume > 1 {
      score, factors := AddFactor(score, factors, DetectionVolume, Min(VOLUME_CAP, VOLUME_POINTS * (p.volume - 1)));
    }
    if p.hosts >= 2 {
      score, factors := AddFactor(score, factors, MultipleHosts, MULTI_HOST_POINTS);
    }
    if p.users >= 2 {
      score, factors := AddFactor(score, factors, MultipleAccounts, MULTI_USER_POINTS);
    }
    if p.techniques >= 2 {
      score, factors := AddFactor(score, factors, MultipleTechniques, MULTI_TECHNIQUE_POINTS);
    }
  }

  method AddFactor(score: int, factors: seq<Factor>, kind: FactorKind, points: int)
    returns (score': int, factors': seq<Factor>)
    requires Points(factors) == score
    ensures score' == score + points && Points(factors') == score'
    ensures factors' != [] && factors'[|factors'| - 1] == Factor(kind, points)
  {
    PointsAppend(factors, Factor(kind, points));
    score', factors' := score + points, factors + [Factor(kind, points)];
  }

  // --- Properties -------------------------------------------------------------

  /** Only the bag of members matters, whatever the trust weights are. */
  lemma ScoreIgnoresOrder(ms: seq<Detection>, ns: seq<Detection>, trust: Trust)
    requires multiset(ms) == multiset(ns)
    ensures Score(ms, trust) == Score(ns, trust)
  {
    assert |ms| == |multiset(ms)| == |multiset(ns)| == |ns|;
    forall d ensures d in ms <==> d in ns {
      assert (d in ms) == (d in multiset(ms)) && (d in ns) == (d in multiset(ns));
    }
    assert Elems(ms) == Elems(ns);
    SameTopSeverity(ms, ns);
  }

  lemma SameTopSeverity(ms: seq<Detection>, ns: seq<Detection>)
    requires forall d :: d in ms <==> d in ns
    ensures MaxSeverity(Severities(ms)) == MaxSeverity(Severities(ns))
  {
    SeveritiesIn(ms, ns);
    SeveritiesIn(ns, ms);
    MaxSeverityIsUnique(Severities(ns), MaxSeverity(Severities(ms)));
  }

  lemma MembersGiveFacts(ds: set<Detection>, es: set<Detection>)
    requires ds <= es
    ensures SourcesIn(ds) <= SourcesIn(es) && HostsIn(ds) <= HostsIn(es)
    ensures UsersIn(ds) <= UsersIn(es) && TechniquesIn(ds) <= TechniquesIn(es)
  {
  }

  lemma SeveritiesIn(ms: seq<Detection>, ns: seq<Detection>)
    requires forall d :: d in ms ==> d in ns
    ensures forall s :: s in Severities(ms) ==> s in Severities(ns)
  {
    forall s | s in Severities(ms) ensures s in Severities(ns) {
      var i :| 0 <= i < |ms| && Severities(ms)[i] == s;
      var d := ms[i];
      assert d in ns;
      var j :| 0 <= j < |ns| && ns[j] == d;
      assert Severities(ns)[j] == s;
    }
  }

  ghost predicate FullTrust(trust: Trust) { forall s :: s in trust ==> trust[s] == 1.0 }

  lemma {:induction false} FullTrustSum(sources: set<string>, trust: Trust)
    requires FullTrust(trust)
    ensures TrustSum(sources, trust) == |sources| as real
    decreases |sources|
  {
    if sources != {} {
      var x :| x in sources;
      TrustSumPick(sources, x, trust);
      FullTrustSum(sources - {x}, trust);
    }
  }

  /** Adding a detection never lowers the raw total. */
  lemma RawGrows(ms: seq<Detection>, d: Detection)
    requires ms != []
    ensures Raw(ms) <= Raw(ms + [d])
  {
    var more := ms + [d];
    MembersGiveFacts(Elems(ms), Elems(more));
    SeveritiesIn(ms, more);
    SubsetSize(Sources(ms), Sources(more));
    SubsetSize(Hosts(ms), Hosts(more));
    SubsetSize(Users(ms), Users(more));
    SubsetSize(Techniques(ms), Techniques(more));
    RawMonotone(ProfileOf(ms), ProfileOf(more));
  }

  lemma RawMonotone(p: Profile, q: Profile)
    requires 0 <= SeverityRank(p.top) <= SeverityRank(q.top)
    requires p.tools <= q.tools && p.volume <= q.volume && p.hosts <= q.hosts
    requires p.users <= q.users && p.techniques <= q.techniques
    ensures RawOf(p) <= RawOf(q)
  {
  }

  lemma SubsetSize<T>(a: set<T>, b: set<T>)
    requires a <= b
    ensures |a| <= |b|
  {
    assert b == a + (b - a);
  }

  // --- when one more detection cannot lower the score -------------------------------

  ghost predicate NonNegative(trust: Trust) { forall s :: s in trust ==> trust[s] >= 0.0 }

  lemma {:induction false} TrustSumIsNonNegative(sources: set<string>, trust: Trust)
    requires NonNegative(trust)
    ensures TrustSum(sources, trust) >= 0.0
    decreases |sources|
  {
    if sources != {} {
      var x :| x in sources;
      TrustSumPick(sources, x, trust);
      TrustSumIsNonNegative(sources - {x}, trust);
    }
  }

  /** The guard: a source already among the members, or one trusted no less than they are on average. */
  ghost predicate HoldsTheMean(ms: seq<Detection>, d: Detection, trust: Trust)
    requires ms != []
  {
    SourceOf(d) in Sources(ms) || TrustIn(trust, SourceOf(d)) >= MeanTrust(ms, trust)
  }

  lemma SourcesOfOneMore(ms: seq<Detection>, d: Detection)
    ensures Sources(ms + [d]) == Sources(ms) + {SourceOf(d)}
  {
    assert Elems(ms + [d]) == Elems(ms) + {d};
  }

  lemma AverageStaysUp(sum: real, n: nat, x: real)
    requires n > 0 && x >= sum / n as real
    ensures (x + sum) / (n + 1) as real >= sum / n as real
  {
    var k, m := n as real, sum / n as real;
    assert m * k == sum;
    assert m * (k + 1.0) == sum + m <= sum + x;
    Quotient(m, sum + x, k + 1.0);
  }

  lemma Quotient(m: real, y: real, k: real)
    requires k > 0.0 && m * k <= y
    ensures m <= y / k
  {
    var z := y / k;
    assert z * k == y;
  }

  /** Under the guard the mean trust does not fall; without it, it does. */
  lemma MeanHoldsIff(ms: seq<Detection>, d: Detection, trust: Trust)
    requires ms != []
    ensures MeanTrust(ms, trust) <= MeanTrust(ms + [d], trust) <==> HoldsTheMean(ms, d, trust)
  {
    hide TrustSum, Sources;
    var x, known := SourceOf(d), Sources(ms);
    SourcesOfOneMore(ms, d);
    SourcesNonempty(ms);
    if x in known {
      assert Sources(ms + [d]) == known;
    } else {
      var all := known + {x};
      assert |all| == |known| + 1;
      TrustSumPick(all, x, trust);
      assert all - {x} == known;
      var sum := TrustSum(known, trust);
      if TrustIn(trust, x) >= MeanTrust(ms, trust) {
        AverageStaysUp(sum, |known|, TrustIn(trust, x));
      } else {
        AverageFalls(sum, |known|, TrustIn(trust, x));
      }
    }
  }

  lemma AverageFalls(sum: real, n: nat, x: real)
    requires n > 0 && x < sum / n as real
    ensures (x + sum) / (n + 1) as real < sum / n as real
  {
    var k, m := n as real, sum / n as real;
    assert m * k == sum;
    assert m * (k + 1.0) == sum + m;
    var y := (x + sum) / (k + 1.0);
    assert y * (k + 1.0) == x + sum;
    assert y * (k + 1.0) < m * (k + 1.0);
  }

  lemma WeighIs(raw: int, mean: real, x: real)
    requires x == raw as real * mean
    ensures Weigh(raw, mean) == if Neutral(mean) then raw else RoundHalfEven(x)
  {
  }

  lemma WeighIsMonotone(a: int, b: int, m: real, n: real)
    requires 0 <= a <= b && 0.0 <= m <= n
    ensures Weigh(a, m) <= Weigh(b, n)
  {
    var x, y := a as real * m, b as real * n;
    WeighIs(a, m, x);
    WeighIs(b, n, y);
    Product(a as real, b as real, m, n);
    if Neutral(m) && !Neutral(n) { Product(a as real, b as real, 1.0, n); }
    if !Neutral(m) && Neutral(n) { Product(a as real, b as real, m, 1.0); }
    RoundsInOrder(a, b, x, y, Neutral(m), Neutral(n));
  }

  lemma RoundsInOrder(a: int, b: int, x: real, y: real, p: bool, q: bool)
    requires a <= b && x <= y && (p && !q ==> a as real <= y) && (!p && q ==> x <= b as real)
    ensures (if p then a else RoundHalfEven(x)) <= if q then b else RoundHalfEven(y)
  {
    RoundIsMonotone(x, y);
    RoundOfInteger(a);
    RoundOfInteger(b);
    if p && !q { RoundIsMonotone(a as real, y); }
    if !p && q { RoundIsMonotone(x, b as real); }
  }

  lemma Product(a: real, b: real, m: real, n: real)
    requires 0.0 <= a <= b && 0.0 <= m <= n
    ensures a * m <= b * n
  {
    assert a * m <= b * m && b * m <= b * n;
  }

  /** One more detection lowers neither score nor severity while its source does not drag the mean trust down. */
  lemma AnotherDetectionHoldsTheScore(ms: seq<Detection>, d: Detection, trust: Trust)
    requires NonNegative(trust) && (ms != [] ==> HoldsTheMean(ms, d, trust))
    ensures Score(ms, trust) <= Score(ms + [d], trust)
    ensures SeverityRank(SeverityFromScore(Score(ms, trust)))
            <= SeverityRank(SeverityFromScore(Score(ms + [d], trust)))
  {
    hide ProfileOf, TrustSum, Sources, HoldsTheMean, SeverityFromScore, Weigh;
    if ms != [] {
      MeanHoldsIff(ms, d, trust);
      SourcesNonempty(ms);
      TrustSumIsNonNegative(Sources(ms), trust);
      Quotient(0.0, TrustSum(Sources(ms), trust), |Sources(ms)| as real);
      RawGrows(ms, d);
      WeighIsMonotone(Raw(ms), Raw(ms + [d]), MeanTrust(ms, trust), MeanTrust(ms + [d], trust));
    }
    SeverityFollowsScore(Score(ms, trust), Score(ms + [d], trust));
  }

  /** In particular with every source fully trusted. */
  lemma AnotherDetectionNeverLowers(ms: seq<Detection>, d: Detection, trust: Trust)
    requires FullTrust(trust)
    ensures Score(ms, trust) <= Score(ms + [d], trust)
    ensures SeverityRank(SeverityFromScore(Score(ms, trust)))
            <= SeverityRank(SeverityFromScore(Score(ms + [d], trust)))
  {
    if ms != [] {
      SourcesNonempty(ms);
      FullTrustSum(Sources(ms), trust);
      var n := |Sources(ms)| as real;
      assert n / n == 1.0;
    }
    AnotherDetectionHoldsTheScore(ms, d, trust);
  }

  lemma SeverityFollowsScore(a: int, b: int)
    requires 0 <= a <= b || 0 == a
    requires b >= 0
    ensures SeverityRank(SeverityFromScore(a)) <= SeverityRank(SeverityFromScore(b))
  {
  }

  /** Without full trust it can: corroboration by a distrusted tool pulls the score down. */
  lemma DistrustedDetectionCanLower(a: Detection, b: Detection)
    requires a == Detection("a", 0, "HIGH", {}, Entities("", "", "", "", "", "", "", "", ""))
    requires b == a.(sourceTool := "b")
    ensures Score([a, b], map["b" := 0.1]) < Score([a], map["b" := 0.1])
  {
    var trust: Trust := map["b" := 0.1];
    hide ProfileOf, TrustSum, Sources, RoundHalfEven;
    PairFacts(a, b);
    PairTrust();
    assert MeanTrust([a], trust) == 1.0 && MeanTrust([a, b], trust) == 0.55;
    assert Raw([a]) == 70 && Raw([a, b]) == 84;
    PairWeight();
  }

  lemma PairWeight()
    ensures Weigh(84, 0.55) < 50
  {
  }

  lemma PairTrust()
    ensures TrustSum({"a"}, map["b" := 0.1]) == 1.0
    ensures TrustSum({"a", "b"}, map["b" := 0.1]) == 1.1
    ensures |{"a"}| == 1 && |{"a", "b"}| == 2
  {
    var trust: Trust := map["b" := 0.1];
    TrustSumPick({"a"}, "a", trust);
    TrustSumPick({"a", "b"}, "a", trust);
    TrustSumPick({"b"}, "b", trust);
    assert {"a"} - {"a"} == {} && {"a", "b"} - {"a"} == {"b"} && {"b"} - {"b"} == {};
  }

  lemma PairFacts(a: Detection, b: Detection)
    requires a == Detection("a", 0, "HIGH", {}, Entities("", "", "", "", "", "", "", "", ""))
    requires b == a.(sourceTool := "b")
    ensures Sources([a]) == {"a"} && Sources([a, b]) == {"a", "b"}
    ensures ProfileOf([a]) == Profile("HIGH", 1, 1, 0, 0, 0)
    ensures ProfileOf([a, b]) == Profile("HIGH", 2, 2, 0, 0, 0)
  {
    assert Elems([a]) == {a} && Elems([a, b]) == {a, b};
    assert SourceOf(a) == "a" && SourceOf(b) == "b";
    SourcesOfPair(a, b);
    NobodyNamed([a]);
    NobodyNamed([a, b]);
    assert Severities([a]) == ["HIGH"] && Severities([a, b]) == ["HIGH", "HIGH"];
    MaxSeverityIsUnique(["HIGH"], "HIGH");
    MaxSeverityIsUnique(["HIGH", "HIGH"], "HIGH");
  }

  lemma SourcesOfPair(a: Detection, b: Detection)
    ensures SourcesIn({a}) == {SourceOf(a)}
    ensures SourcesIn({a, b}) == {SourceOf(a), SourceOf(b)}
    ensures SourceOf(a) != SourceOf(b) ==> |{SourceOf(a), SourceOf(b)}| == 2
  {
    assert a in {a} && a in {a, b} && b in {a, b};
    assert SourceOf(a) in SourcesIn({a, b}) && SourceOf(b) in SourcesIn({a, b});
  }

  lemma NobodyNamed(ms: seq<Detection>)
    requires forall d :: d in ms ==> d.entities.host == "" && d.entities.user == "" && d.techniques == {}
    ensures Hosts(ms) == {} && Users(ms) == {} && Techniques(ms) == {}
  {
    assert Lower("") == "";
  }
}
