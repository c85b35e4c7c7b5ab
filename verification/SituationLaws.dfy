/** Which situations a detection may touch, and which it must, said of rows, keys and decisions. */
module SituationLaws {
  import opened Common
  import opened Detections
  import opened Situations
  import opened SituationFacts
  import opened SituationInvariant
  import opened SituationStep
  import opened SituationRuns
  import Risk

  // --- what the model's terms come to -----------------------------------------------------

  /** Open, with room for one more, and the detection no more than a window before its first or after its last. */
  predicate InReach(row: SitRow, d: Detection) {
    row.status == OPEN && row.count < MAX_MEMBERS && row.first - WINDOW <= d.detectedAt <= row.last + WINDOW
  }

  predicate Holds(g: Graph, k: Key) { k.ns in g && exists x :: x in g[k.ns] && Lower(x) == k.value }

  /** The detection's addresses, accounts, hosts, hashes and links that the row's graph holds. */
  function CommonKeys(row: SitRow, d: Detection): set<Key> {
    set k | k in KeySet(d.entities) && k.ns in {IP, USER, HOST, HASH, URL} && Holds(row.graph, k)
  }

  /** Somebody, or something, has decided the situation: its decision is past PENDING, or a person's. */
  predicate Decided(s: Store, row: SitRow) {
    row.alert.Some? && row.alert.value in s.decs && (s.decs[row.alert.value].status != PENDING || s.decs[row.alert.value].human)
  }

  lemma {:induction false} DistinctFold(ks: seq<Key>)
    requires DistinctFolded(ks)
    ensures Distinct(JoinableOf(FoldAll(ks)))
  {
    assert Distinct(FoldAll(ks));
    DistinctJoinable(FoldAll(ks));
  }

  lemma {:induction false} DistinctJoinable(ks: seq<Key>)
    requires Distinct(ks)
    ensures Distinct(JoinableOf(ks))
  {
    if ks != [] {
      assert ks == [ks[0]] + ks[1..];
      assert forall i :: 0 <= i < |ks[1..]| ==> ks[1..][i] == ks[i + 1];
      DistinctJoinable(ks[1..]);
      JoinableIn(ks[1..], ks[0]);
    }
  }

  lemma {:induction false} DistinctCarried(g: Graph, ks: seq<Key>)
    requires Distinct(ks)
    ensures Distinct(CarriedOf(g, ks))
  {
    hide Carries;
    if ks != [] {
      assert ks == [ks[0]] + ks[1..];
      assert forall i :: 0 <= i < |ks[1..]| ==> ks[1..][i] == ks[i + 1];
      DistinctCarried(g, ks[1..]);
      CarriedIn(g, ks[1..], ks[0]);
    }
  }

  function KeysOf(q: seq<Key>): set<Key> { set x | x in q }

  lemma {:induction false} SizeOf(q: seq<Key>)
    requires Distinct(q)
    ensures |KeysOf(q)| == |q|
  {
    if q != [] {
      var front, l := q[..|q| - 1], q[|q| - 1];
      SizeOf(front);
      assert q == front + [l];
      assert KeysOf(q) == KeysOf(front) + {l};
      assert l !in front;
    }
  }

  /** The keys a match is ranked by are the common ones, each once. */
  lemma SharedAreCommon(row: SitRow, d: Detection)
    ensures KeysOf(Shared(row, d)) == CommonKeys(row, d) && |Shared(row, d)| == |CommonKeys(row, d)|
    ensures Shared(row, d) != [] <==> CommonKeys(row, d) != {}
  {
    hide Shared, CommonKeys;
    SharedIsDistinct(row, d);
    SizeOf(Shared(row, d));
    forall k ensures k in Shared(row, d) <==> k in CommonKeys(row, d) { SharedIn(row, d, k); }
    assert KeysOf(Shared(row, d)) == CommonKeys(row, d);
    if Shared(row, d) != [] { assert Shared(row, d)[0] in Shared(row, d); }
  }

  lemma SharedIsDistinct(row: SitRow, d: Detection)
    ensures Distinct(Shared(row, d))
  {
    hide Carries, NamespacedOf, JoinableOf, FoldAll;
    NamespacedIsExact(d.entities.Fields());
    DistinctFold(NamespacedValues(d.entities));
    DistinctCarried(row.graph, JoinKeys(d.entities));
  }

  lemma SharedIn(row: SitRow, d: Detection, k: Key)
    ensures k in Shared(row, d) <==> k in CommonKeys(row, d)
  {
    hide JoinKeys, KeySet, CarriedOf, Carries, Holds;
    CarriedIn(row.graph, JoinKeys(d.entities), k);
    JoinKeysAre(d.entities, k);
    HoldsIsCarries(row.graph, k);
  }

  lemma HoldsIsCarries(g: Graph, k: Key)
    ensures Holds(g, k) <==> Carries(g, k)
  {
  }

  /** An open match is one in reach, with a key in common, that nobody has decided. */
  lemma ScoredIff(s: Store, d: Detection, id: SitId)
    ensures Scored(s, d, id) <==>
      id in s.sits && InReach(s.sits[id], d) && CommonKeys(s.sits[id], d) != {} && !Decided(s, s.sits[id])
    ensures Matches(s, d, id) <==> id in s.sits && InReach(s.sits[id], d) && CommonKeys(s.sits[id], d) != {}
    ensures id in s.sits ==> (Frozen(s, id) <==> Decided(s, s.sits[id]))
  {
    hide Shared, CommonKeys;
    if id in s.sits { SharedAreCommon(s.sits[id], d); }
  }

  lemma RankedAreThere(s: Store, d: Detection, r: seq<SitId>)
    requires Ranking(s, d, r)
    ensures forall x :: x in r ==> x in s.sits
  {
    hide Shared;
    forall i | 0 <= i < |r| ensures r[i] in s.sits { assert Scored(s, d, r[i]); }
  }

  // --- what was decided ---------------------------------------------------------------------

  /** Whatever arrives, a situation whose decision is past PENDING, or a person's, keeps row, members and decision. */
  lemma DecidedIsUntouched(s: Store, d: Detection, r: seq<SitId>, newId: SitId, trust: Risk.Trust, id: SitId, a: AlertId)
    requires Inv(s) && Ranking(s, d, r) && newId !in s.sits
    requires id in s.sits && s.sits[id].alert == Some(a) && a in s.decs && (s.decs[a].status != PENDING || s.decs[a].human)
    ensures forall x :: x in r ==> x in s.sits
    ensures var t := Correlated(s, d, r, newId, trust);
      && Shaped(t) && id in t.sits && t.sits[id] == s.sits[id]
      && MemberIds(t.home, id) == MemberIds(s.home, id)
      && a in t.decs && t.decs[a] == s.decs[a]
      && id !in r && Winner(r, newId) != id
  {
    hide Inv, Correlated, Shared, Candidate;
    ScoredIff(s, d, id);
    FrozenIsUntouched(s, d, r, newId, trust, id);
    forall i | 0 <= i < |r| ensures r[i] != id { assert Scored(s, d, r[i]); }
  }

  /** The detection joins a situation already there exactly when one in reach, with a key in common, is undecided. */
  lemma JoinsIff(s: Store, d: Detection, r: seq<SitId>, newId: SitId)
    requires Ranking(s, d, r) && newId !in s.sits
    ensures Winner(r, newId) in s.sits <==>
      exists id :: id in s.sits && InReach(s.sits[id], d) && CommonKeys(s.sits[id], d) != {} && !Decided(s, s.sits[id])
    ensures r == [] <==> Winner(r, newId) == newId
  {
    hide Scored, InReach, CommonKeys, Decided;
    if r != [] {
      assert Scored(s, d, r[0]);
      ScoredIff(s, d, r[0]);
    }
    if id :| id in s.sits && InReach(s.sits[id], d) && CommonKeys(s.sits[id], d) != {} && !Decided(s, s.sits[id]) {
      ScoredIff(s, d, id);
      assert id in r;
    }
  }

  /** The one it joins has the most keys in common, and is the oldest of those with as many. */
  lemma WinnerIsBest(s: Store, d: Detection, r: seq<SitId>, newId: SitId, id: SitId)
    requires Ranking(s, d, r) && newId !in s.sits
    requires id in s.sits && InReach(s.sits[id], d) && CommonKeys(s.sits[id], d) != {} && !Decided(s, s.sits[id])
    ensures var w := Winner(r, newId);
      && w in s.sits && InReach(s.sits[w], d) && CommonKeys(s.sits[w], d) != {} && !Decided(s, s.sits[w])
      && |CommonKeys(s.sits[id], d)| <= |CommonKeys(s.sits[w], d)|
      && (|CommonKeys(s.sits[id], d)| == |CommonKeys(s.sits[w], d)| ==> s.sits[w].first <= s.sits[id].first)
  {
    hide Shared, InReach, CommonKeys, Decided, Candidate;
    ScoredIff(s, d, id);
    var k :| 0 <= k < |r| && r[k] == id;
    assert Scored(s, d, r[0]);
    ScoredIff(s, d, r[0]);
    assert k == 0 || NoWorse(s, d, r[0], r[k]);
    SharedAreCommon(s.sits[r[0]], d);
    SharedAreCommon(s.sits[id], d);
  }

  // --- what is absorbed ------------------------------------------------------------------------

  lemma {:induction false} GreedyLeaves(s: Store, ids: seq<SitId>, budget: int, id: SitId)
    requires forall x :: x in ids ==> x in s.sits
    requires id in ids && id !in Fitting(s, ids, budget)
    ensures forall x :: x in Fitting(s, ids, budget) ==> x in s.sits
    ensures SumCounts(s, Fitting(s, ids, budget)) + s.sits[id].count > budget
  {
    var c, rest := s.sits[ids[0]].count, ids[1..];
    assert ids == [ids[0]] + rest;
    FittingIsFrom(s, ids, budget);
    if c <= budget {
      var f := Fitting(s, rest, budget - c);
      assert ([ids[0]] + f)[1..] == f;
      assert id != ids[0] by { assert ids[0] in Fitting(s, ids, budget); }
      GreedyLeaves(s, rest, budget - c, id);
    } else if ids[0] == id {
      SumIsNatural(s, Fitting(s, ids, budget));
    } else {
      GreedyLeaves(s, rest, budget, id);
    }
  }

  lemma {:induction false} FittingIsFrom(s: Store, ids: seq<SitId>, budget: int)
    requires forall x :: x in ids ==> x in s.sits
    ensures forall x :: x in Fitting(s, ids, budget) ==> x in ids
  {
    if ids != [] {
      assert ids == [ids[0]] + ids[1..];
      FittingIsFrom(s, ids[1..], budget - s.sits[ids[0]].count);
      FittingIsFrom(s, ids[1..], budget);
    }
  }

  lemma {:induction false} SumIsNatural(s: Store, ids: seq<SitId>)
    requires forall x :: x in ids ==> x in s.sits
    ensures SumCounts(s, ids) >= 0
  {
    if ids != [] { SumIsNatural(s, ids[1..]); }
  }

  /** After the step the winner has its own members, those of the absorbed, and the detection. */
  lemma WinnerCounts(s: Store, d: Detection, r: seq<SitId>, newId: SitId, trust: Risk.Trust)
    requires Inv(s) && Ranking(s, d, r) && newId !in s.sits && r != []
    ensures forall x :: x in r ==> x in s.sits
    ensures forall x :: x in Absorbed(s, r) ==> x in s.sits
    ensures var t := Correlated(s, d, r, newId, trust);
      r[0] in t.sits && t.sits[r[0]].count == s.sits[r[0]].count + SumCounts(s, Absorbed(s, r)) + 1
  {
    assert Winner(r, newId) == r[0];
    hide *;
    var t, w, gone, ms := StepShape(s, d, r, newId, trust);
    WinnerIsGood(s, d, r, newId, trust);
    OpenCounts(t, r[0]);
    GroupSize(s, d, r, newId);
  }

  lemma OpenCounts(s: Store, id: SitId)
    requires Shaped(s) && id in s.sits && GoodOpen(s, id)
    ensures s.sits[id].count == |MemberIds(s.home, id)|
  {
    hide Chained, Connected, Members;
    AgreesGivesBounds(s, id);
  }

  /** What could have been absorbed and was not would not fit: together they would exceed the cap. */
  lemma LeftApartWouldNotFit(s: Store, d: Detection, r: seq<SitId>, newId: SitId, trust: Risk.Trust, id: SitId)
    requires Inv(s) && Ranking(s, d, r) && newId !in s.sits
    requires id in s.sits && InReach(s.sits[id], d) && CommonKeys(s.sits[id], d) != {} && !Decided(s, s.sits[id])
    requires id != Winner(r, newId)
    ensures forall x :: x in r ==> x in s.sits
    ensures var t, w := Correlated(s, d, r, newId, trust), Winner(r, newId);
      && w in t.sits && id in t.sits
      && (t.sits[id].status == MERGED || t.sits[w].count + s.sits[id].count > MAX_MEMBERS)
      && (t.sits[id].status == MERGED ==> t.sits[id].mergedInto == Some(w))
  {
    hide InReach, CommonKeys, Decided, Scored, Correlated, Inv;
    ScoredIff(s, d, id);
    assert id in r;
    assert r == [r[0]] + r[1..];
    WinnerCounts(s, d, r, newId, trust);
    if id in Absorbed(s, r) {
      OnlyMachineProposalsAreSuperseded(s, d, r, newId, trust);
    } else {
      GreedyLeaves(s, r[1..], MAX_MEMBERS - s.sits[r[0]].count - 1, id);
      BystanderIsUntouched(s, d, r, newId, trust, id);
    }
  }

  // --- what a recomputed row shows --------------------------------------------------------------

  lemma ScoreRange(ms: seq<Detection>, trust: Risk.Trust)
    ensures 0 <= Risk.Score(ms, trust) <= 100
  {
  }

  /** Its tools are the members' tools, and its severity and score belong together. */
  lemma RowShowsItsMembers(s: Store, id: SitId)
    requires Inv(s) && id in s.sits && s.sits[id].status == OPEN
    ensures s.sits[id].sources == set i | i in MemberIds(s.home, id) && i < |s.dets| :: Risk.SourceOf(s.dets[i])
    ensures 0 <= s.sits[id].score <= 100 && s.sits[id].severity == Risk.SeverityFromScore(s.sits[id].score)
  {
    hide Linked, Connected, Chained, Rooted, Members, Risk.Score, Risk.SeverityFromScore, Risk.SourceOf;
    assert GoodOpen(s, id);
    MembersAre(s.dets, s.home, id);
    var ms := Members(s.dets, s.home, id);
    var trust :| s.sits[id] == Derived(s.sits[id], ms, trust);
    ScoreRange(ms, trust);
    hide Inv, GoodOpen, Derived;
    forall x ensures x in Risk.Sources(ms) <==>
      x in (set i | i in MemberIds(s.home, id) && i < |s.dets| :: Risk.SourceOf(s.dets[i]))
    {
      if x in Risk.Sources(ms) {
        var e :| e in ms && Risk.SourceOf(e) == x;
        var i :| i in MemberIds(s.home, id) && s.dets[i] == e;
      }
      if i :| i in MemberIds(s.home, id) && i < |s.dets| && Risk.SourceOf(s.dets[i]) == x { assert s.dets[i] in ms; }
    }
  }
}
