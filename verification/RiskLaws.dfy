/** What earns a situation its points, by counting its members. */
module RiskLaws {
  import opened Common
  import opened Detections
  import opened Risk

  /** Points for the gravest member; a blank severity counts as MEDIUM, an unknown one as nothing above LOW. */
  function Grade(ms: seq<Detection>): int {
    if exists d :: d in ms && d.severity == "CRITICAL" then 88
    else if exists d :: d in ms && d.severity == "HIGH" then 70
    else if exists d :: d in ms && (d.severity == "MEDIUM" || d.severity == "") then 45
    else 22
  }

  function Tools(ms: seq<Detection>): set<string> {
    set d | d in ms :: if d.sourceTool == "" then "unknown" else d.sourceTool
  }

  /** Machines and accounts that are named, whatever their case. */
  function HostNames(ms: seq<Detection>): set<string> { set d | d in ms && d.entities.host != "" :: Lower(d.entities.host) }

  function UserNames(ms: seq<Detection>): set<string> { set d | d in ms && d.entities.user != "" :: Lower(d.entities.user) }

  function Asserted(ms: seq<Detection>): set<string> { set d, t | d in ms && t in d.techniques :: t }

  lemma SameSets(ms: seq<Detection>)
    ensures Sources(ms) == Tools(ms) && Hosts(ms) == HostNames(ms) && Users(ms) == UserNames(ms)
    ensures Techniques(ms) == Asserted(ms)
  {
    assert forall s: string :: Lower(s) == "" <==> s == "";
    assert forall d :: d in Elems(ms) <==> d in ms;
    hide Lower;
    forall x ensures x in Hosts(ms) <==> x in HostNames(ms) {
      if x in Hosts(ms) { var d :| d in ms && Lower(d.entities.host) == x; }
    }
    forall x ensures x in Users(ms) <==> x in UserNames(ms) {
      if x in Users(ms) { var d :| d in ms && Lower(d.entities.user) == x; }
    }
  }

  lemma GradeIsBase(ms: seq<Detection>)
    requires ms != []
    ensures SeverityBase(MaxSeverity(Severities(ms))) == Grade(ms)
  {
    var top := MaxSeverity(Severities(ms));
    assert IsMaxSeverity(Severities(ms), top);
    forall d | d in ms ensures SeverityRank(SeverityOf(d)) <= SeverityRank(top) {
      var i :| 0 <= i < |ms| && ms[i] == d;
      assert Severities(ms)[i] == SeverityOf(d) && Severities(ms)[i] in Severities(ms);
    }
    if top in Severities(ms) {
      var i :| 0 <= i < |ms| && Severities(ms)[i] == top;
      assert ms[i] in ms && SeverityOf(ms[i]) == top;
    }
  }

  /** The whole unweighted score, by counting. */
  lemma PointsByCounting(ms: seq<Detection>)
    requires ms != []
    ensures Raw(ms) == Grade(ms)
      + Min(24, 12 * (|Tools(ms)| - 1)) + Min(10, 2 * (|ms| - 1))
      + (if |HostNames(ms)| >= 2 then 6 else 0) + (if |UserNames(ms)| >= 2 then 4 else 0)
      + (if |Asserted(ms)| >= 2 then 5 else 0)
    ensures |Tools(ms)| >= 1
  {
    GradeIsBase(ms);
    SameSets(ms);
    SourcesNonempty(ms);
    hide Grade, MaxSeverity, Tools, HostNames, UserNames, Asserted, Sources, Hosts, Users, Techniques;
  }

  lemma OneMoreName(ms: seq<Detection>, d: Detection)
    ensures Tools(ms + [d]) == Tools(ms) + Tools([d])
    ensures HostNames(ms + [d]) == HostNames(ms) + HostNames([d])
    ensures UserNames(ms + [d]) == UserNames(ms) + UserNames([d])
    ensures Asserted(ms + [d]) == Asserted(ms) + Asserted([d])
    ensures |Tools([d])| == 1 && |HostNames([d])| <= 1 && |UserNames([d])| <= 1
  {
    hide Lower;
    assert forall e :: e in ms + [d] <==> e in ms || e in [d];
    assert Tools(ms + [d]) == Tools(ms) + Tools([d]);
    assert HostNames(ms + [d]) == HostNames(ms) + HostNames([d]);
    assert UserNames(ms + [d]) == UserNames(ms) + UserNames([d]);
    assert Asserted(ms + [d]) == Asserted(ms) + Asserted([d]);
    hide Asserted;
    OneName(d);
  }

  lemma OneName(d: Detection)
    ensures |Tools([d])| == 1 && |HostNames([d])| <= 1 && |UserNames([d])| <= 1
  {
    hide Lower;
    assert forall e :: e in [d] <==> e == d;
    assert Tools([d]) == {if d.sourceTool == "" then "unknown" else d.sourceTool};
    assert HostNames([d]) == if d.entities.host == "" then {} else {Lower(d.entities.host)};
    assert UserNames([d]) == if d.entities.user == "" then {} else {Lower(d.entities.user)};
  }

  lemma Union<T>(a: set<T>, b: set<T>)
    requires |b| <= 1
    ensures |a + b| == |a| + if b <= a then 0 else 1
  {
    if b <= a {
      assert a + b == a;
    } else {
      var x :| x in b && x !in a;
      assert |b - {x}| == 0 && b == {x};
    }
  }

  /**
   What one more detection earns: the step in severity; 12 for a tool not yet among fewer than three; 2 among
   fewer than six detections; 6 and 4 for the second host and account; 5 when a second technique comes up.
   */
  lemma WhatOneMoreEarns(ms: seq<Detection>, d: Detection)
    requires ms != []
    ensures Raw(ms + [d]) - Raw(ms) == Grade(ms + [d]) - Grade(ms)
      + (if |Tools(ms)| < 3 && !(Tools([d]) <= Tools(ms)) then 12 else 0)
      + (if |ms| < 6 then 2 else 0)
      + (if |HostNames(ms)| == 1 && !(HostNames([d]) <= HostNames(ms)) then 6 else 0)
      + (if |UserNames(ms)| == 1 && !(UserNames([d]) <= UserNames(ms)) then 4 else 0)
      + (if |Asserted(ms)| < 2 && |Asserted(ms) + Asserted([d])| >= 2 then 5 else 0)
  {
    hide Raw, Grade, Tools, HostNames, UserNames, Asserted;
    PointsByCounting(ms);
    PointsByCounting(ms + [d]);
    OneMoreName(ms, d);
    Union(Tools(ms), Tools([d]));
    Union(HostNames(ms), HostNames([d]));
    Union(UserNames(ms), UserNames([d]));
    SubsetSize(Asserted(ms), Asserted(ms) + Asserted([d]));
  }

  /** The mean of the tools' weights, a tool without one counting 1.0, scales the whole score once it is off by more than 0.001. */
  lemma TrustScales(ms: seq<Detection>, trust: Trust)
    requires ms != []
    ensures var mean := MeanTrust(ms, trust);
      && mean * |Tools(ms)| as real == TrustSum(Tools(ms), trust)
      && Score(ms, trust) ==
           Max(0, Min(100, if mean < 0.999 || mean > 1.001 then RoundHalfEven(Raw(ms) as real * mean) else Raw(ms)))
  {
    hide Raw, RoundHalfEven, TrustSum;
    SameSets(ms);
    SourcesNonempty(ms);
    hide Sources, Tools;
    WeighIs(Raw(ms), MeanTrust(ms, trust), Raw(ms) as real * MeanTrust(ms, trust));
    var n, sum := |Tools(ms)| as real, TrustSum(Tools(ms), trust);
    assert n > 0.0 && sum / n * n == sum;
  }

  /** One tool's weight is the one it was given, or 1.0. */
  lemma OneToolsTrust(tool: string, trust: Trust)
    ensures TrustSum({tool}, trust) == if tool in trust then trust[tool] else 1.0
  {
    TrustSumPick({tool}, tool, trust);
    assert {tool} - {tool} == {};
  }

  const CLASSES := ["LOW", "MEDIUM", "HIGH", "CRITICAL"]

  /** A detection alone, fully trusted and asserting at most one technique, keeps its own severity. */
  lemma LoneDetectionKeepsItsSeverity(d: Detection, trust: Trust)
    requires FullTrust(trust) && d.severity in CLASSES && |d.techniques| <= 1
    ensures SeverityFromScore(Score([d], trust)) == d.severity
  {
    hide TrustSum, Raw, HostNames, UserNames, Tools, Sources;
    assert d in [d] && forall e :: e in [d] ==> e == d;
    assert Asserted([d]) == d.techniques;
    OneName(d);
    PointsByCounting([d]);
    FullTrustSum(Sources([d]), trust);
    SourcesNonempty([d]);
    var n := |Sources([d])| as real;
    assert n / n == 1.0;
    assert Raw([d]) == Grade([d]);
    assert Score([d], trust) == Max(0, Min(100, Raw([d])));
  }
}
