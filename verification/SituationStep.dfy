/** One `correlate` keeps the invariant. */
module SituationStep {
  import opened Common
  import opened Detections
  import opened Situations
  import opened SituationFacts
  import opened SituationInvariant
  import Risk

  // --- the groups that come together ---------------------------------------------

  function Elements(ids: seq<SitId>): set<SitId> { set id | id in ids }

  function SumCounts(s: Store, ids: seq<SitId>): int
    requires forall id :: id in ids ==> id in s.sits
  {
    if ids == [] then 0 else s.sits[ids[0]].count + SumCounts(s, ids[1..])
  }

  lemma {:induction false} FittingFits(s: Store, ids: seq<SitId>, budget: int)
    requires forall id :: id in ids ==> id in s.sits
    requires Distinct(ids) && budget >= 0
    ensures Distinct(Fitting(s, ids, budget))
    ensures forall id :: id in Fitting(s, ids, budget) ==> id in ids
    ensures SumCounts(s, Fitting(s, ids, budget)) <= budget
  {
    if ids != [] {
      var c, rest := s.sits[ids[0]].count, ids[1..];
      assert ids == [ids[0]] + rest;
      FittingFits(s, rest, if c <= budget then budget - c else budget);
      if c <= budget {
        var f := Fitting(s, rest, budget - c);
        assert ids[0] !in f;
        assert ([ids[0]] + f)[1..] == f;
      }
    }
  }

  /** Every situation the detection ties together: the absorbed ones and the existing winner. */
  function Group(s: Store, r: seq<SitId>): set<SitId>
    requires forall id :: id in r ==> id in s.sits
  {
    Elements(Absorbed(s, r)) + (if r == [] then {} else {r[0]})
  }

  lemma AbsorbedFacts(s: Store, d: Detection, r: seq<SitId>, newId: SitId)
    requires Inv(s) && Ranking(s, d, r) && newId !in s.sits
    ensures forall id :: id in r ==> Scored(s, d, id)
    ensures forall g :: g in Group(s, r) ==> Scored(s, d, g)
    ensures Distinct(Absorbed(s, r)) && Winner(r, newId) !in Absorbed(s, r)
    ensures r != [] ==> s.sits[r[0]].count + SumCounts(s, Absorbed(s, r)) + 1 <= MAX_MEMBERS
    ensures Mergeable(Placed(s, d, r, newId), Winner(r, newId), Absorbed(s, r)) == Elements(Absorbed(s, r))
  {
    hide Linked, Shared, Frozen, GoodOpen, Rooted;
    if r != [] {
      assert Scored(s, d, r[0]);
      assert r == [r[0]] + r[1..];
      assert Distinct(r[1..]);
      FittingFits(s, r[1..], MAX_MEMBERS - s.sits[r[0]].count - 1);
      assert r[0] !in r[1..];
    }
  }

  function Pool(home: seq<SitId>, g: set<SitId>): set<nat> {
    set i | 0 <= i < |home| && home[i] in g
  }

  lemma NoPool(home: seq<SitId>)
    ensures Pool(home, Elements([])) == {}
  {
  }

  lemma PoolSplits(home: seq<SitId>, h: SitId, t: seq<SitId>)
    requires h !in t
    ensures |Pool(home, Elements([h] + t))| == |MemberIds(home, h)| + |Pool(home, Elements(t))|
  {
    var a, b := MemberIds(home, h), Pool(home, Elements(t));
    assert Pool(home, Elements([h] + t)) == a + b && a !! b;
  }

  lemma {:induction false} PoolSize(s: Store, ids: seq<SitId>)
    requires Inv(s) && Distinct(ids)
    requires forall id :: id in ids ==> id in s.sits && s.sits[id].status == OPEN
    ensures |Pool(s.home, Elements(ids))| == SumCounts(s, ids)
  {
    hide Linked, Connected, Chained, Rooted, Agrees, Pool, MemberIds;
    if ids == [] {
      NoPool(s.home);
      assert Pool(s.home, Elements(ids)) == {};
    } else {
      var h, t := ids[0], ids[1..];
      assert ids == [h] + t && h !in t;
      PoolSize(s, t);
      assert GoodOpen(s, h);
      AgreesGivesBounds(s, h);
      PoolSplits(s.home, h, t);
    }
  }

  // --- chains and links survive the union -------------------------------------------

  lemma NearGrows(dets: seq<Detection>, more: seq<Detection>, m: set<nat>, m': set<nat>, p: int)
    requires dets <= more && m <= m' && Near(dets, m, p)
    ensures Near(more, m', p)
  {
    var i :| i in m && i < |dets| && p < dets[i].detectedAt <= p + WINDOW;
    assert i in m' && more[i] == dets[i];
  }

  lemma MembersInPool(home: seq<SitId>, g: set<SitId>, id: SitId)
    requires id in g
    ensures MemberIds(home, id) <= Pool(home, g)
  {
  }

  lemma ChainedUnion(s: Store, d: Detection, g: set<SitId>, m: set<nat>, lo: int, hi: int)
    requires Inv(s) && (forall id :: id in g ==> Scored(s, d, id))
    requires m == Pool(s.home, g) + {|s.dets|}
    requires Bounds(s.dets + [d], m, lo, hi)
    ensures Chained(s.dets + [d], m, lo, hi)
  {
    forall p | lo <= p < hi ensures Near(s.dets + [d], m, p) {
      NearInUnion(s, d, g, m, lo, hi, p);
    }
  }

  lemma NearInUnion(s: Store, d: Detection, g: set<SitId>, m: set<nat>, lo: int, hi: int, p: int)
    requires Inv(s) && (forall id :: id in g ==> Scored(s, d, id))
    requires m == Pool(s.home, g) + {|s.dets|}
    requires Bounds(s.dets + [d], m, lo, hi) && lo <= p < hi
    ensures Near(s.dets + [d], m, p)
  {
    hide Linked, Shared, Frozen, GoodOpen, Rooted, Agrees, Scored, Inv;
    var more, n, t := s.dets + [d], |s.dets|, d.detectedAt;
    assert more[n] == d && n in m;
    if p < t <= p + WINDOW {
    } else if t > p {
      var i :| i in m && i < |more| && more[i].detectedAt == lo;
      var id := s.home[i];
      OpenMemberFacts(s, d, id, i);
      MembersInPool(s.home, g, id);
      NearGrows(s.dets, more, MemberIds(s.home, id), m, p);
    } else {
      var j :| j in m && j < |more| && more[j].detectedAt == hi;
      var id := s.home[j];
      OpenMemberFacts(s, d, id, j);
      MembersInPool(s.home, g, id);
      if s.sits[id].first <= p {
        NearGrows(s.dets, more, MemberIds(s.home, id), m, p);
      } else {
        var k :| k in MemberIds(s.home, id) && k < |s.dets| && s.dets[k].detectedAt == s.sits[id].first;
        assert k in m && more[k] == s.dets[k];
      }
    }
  }

  lemma OpenMemberFacts(s: Store, d: Detection, id: SitId, i: nat)
    requires Inv(s) && Scored(s, d, id) && i < |s.home| && s.home[i] == id
    ensures id in s.sits && Bounds(s.dets, MemberIds(s.home, id), s.sits[id].first, s.sits[id].last)
    ensures Chained(s.dets, MemberIds(s.home, id), s.sits[id].first, s.sits[id].last)
    ensures s.sits[id].first <= s.dets[i].detectedAt <= s.sits[id].last
    ensures s.sits[id].last >= d.detectedAt - WINDOW && s.sits[id].first <= d.detectedAt + WINDOW
  {
    hide Linked, Shared, Frozen, Rooted, Connected, Derived, Chained, Members;
    assert GoodOpen(s, id);
    AgreesGivesBounds(s, id);
    assert i in MemberIds(s.home, id);
  }

  /** A matched situation holds a member the new detection is linked to. */
  lemma MatchIsALink(s: Store, d: Detection, id: SitId) returns (x: nat)
    requires Inv(s) && Scored(s, d, id)
    ensures x in MemberIds(s.home, id) && Linked(s.dets[x], d)
  {
    assert GoodOpen(s, id);
    var k := Shared(s.sits[id], d)[0];
    CarriedIn(s.sits[id].graph, JoinKeys(d.entities), k);
    JoinKeysAre(d.entities, k);
    AgreesGivesIndex(s, id, k);
    x :| x in MemberIds(s.home, id) && k in GraphKeys(s.dets[x]);
  }

  lemma JoinedGrows(dets: seq<Detection>, more: seq<Detection>, m: set<nat>, m': set<nat>, a: nat, b: nat)
    requires dets <= more && m <= m' && Joined(dets, m, a, b)
    ensures Joined(more, m', a, b)
  {
    var p :| IsPath(dets, m, a, b, p);
    assert IsPath(more, m', a, b, p);
  }

  lemma JoinedThrough(dets: seq<Detection>, m: set<nat>, a: nat, b: nat, c: nat)
    requires Joined(dets, m, a, b) && Joined(dets, m, b, c)
    ensures Joined(dets, m, a, c)
  {
    var p :| IsPath(dets, m, a, b, p);
    var q :| IsPath(dets, m, b, c, q);
    var pq := p + q[1..];
    forall k | 0 <= k < |pq| - 1 ensures Linked(dets[pq[k]], dets[pq[k + 1]]) {
      if k >= |p| - 1 {
        var j := k - (|p| - 1);
        assert pq[k] == q[j] && pq[k + 1] == q[j + 1];
      }
    }
    assert IsPath(dets, m, a, c, pq);
  }

  lemma LinkedIsSymmetric(a: Detection, b: Detection)
    requires Linked(a, b)
    ensures Linked(b, a)
  {
  }

  lemma LinkJoins(dets: seq<Detection>, m: set<nat>, a: nat, b: nat)
    requires a in m && b in m && a < |dets| && b < |dets| && Linked(dets[a], dets[b])
    ensures Joined(dets, m, a, b) && Joined(dets, m, b, a)
  {
    hide Linked, KeySet, GraphKeys;
    LinkedIsSymmetric(dets[a], dets[b]);
    assert IsPath(dets, m, a, b, [a, b]);
    assert IsPath(dets, m, b, a, [b, a]);
  }

  /** Every member of a tied situation has a path to the new detection and back. */
  lemma ReachesNew(s: Store, d: Detection, g: set<SitId>, m: set<nat>, a: nat)
    requires Inv(s) && (forall id :: id in g ==> Scored(s, d, id))
    requires m == Pool(s.home, g) + {|s.dets|} && a in m
    ensures Joined(s.dets + [d], m, a, |s.dets|) && Joined(s.dets + [d], m, |s.dets|, a)
  {
    var more, n := s.dets + [d], |s.dets|;
    if a == n {
      assert IsPath(more, m, n, n, [n]);
    } else {
      var id := s.home[a];
      var x := MatchIsALink(s, d, id);
      assert GoodOpen(s, id);
      assert a in MemberIds(s.home, id);
      MembersInPool(s.home, g, id);
      JoinedGrows(s.dets, more, MemberIds(s.home, id), m, a, x);
      JoinedGrows(s.dets, more, MemberIds(s.home, id), m, x, a);
      LinkJoins(more, m, x, n);
      JoinedThrough(more, m, a, x, n);
      JoinedThrough(more, m, n, x, a);
    }
  }

  lemma ConnectedUnion(s: Store, d: Detection, g: set<SitId>, m: set<nat>)
    requires Inv(s) && (forall id :: id in g ==> Scored(s, d, id))
    requires m == Pool(s.home, g) + {|s.dets|}
    ensures Connected(s.dets + [d], m)
  {
    forall a, b | a in m && b in m ensures Joined(s.dets + [d], m, a, b) {
      ReachesNew(s, d, g, m, a);
      ReachesNew(s, d, g, m, b);
      JoinedThrough(s.dets + [d], m, a, |s.dets|, b);
    }
  }

  // --- the forest survives the merge ----------------------------------------------------

  /** `sits'` is `sits` with the situations in `gone` pointed at the OPEN situation `w`. */
  ghost predicate Redirected(sits: map<SitId, SitRow>, sits': map<SitId, SitRow>, gone: set<SitId>, w: SitId) {
    && sits.Keys <= sits'.Keys
    && w in sits' && sits'[w].status == OPEN && w !in gone
    && (forall id :: id in gone ==> id in sits && sits[id].status == OPEN
                                    && sits'[id].status == MERGED && sits'[id].mergedInto == Some(w))
    && (forall id :: id in sits && id !in gone ==> sits'[id].status == sits[id].status
                                                   && sits'[id].mergedInto == sits[id].mergedInto)
  }

  function NewRoot(root: SitId, gone: set<SitId>, w: SitId): SitId { if root in gone then w else root }

  lemma {:induction false} ResolvesAfter(sits: map<SitId, SitRow>, sits': map<SitId, SitRow>, gone: set<SitId>, w: SitId,
                                         id: SitId, root: SitId, n: nat)
    requires Redirected(sits, sits', gone, w) && Resolves(sits, id, root, n)
    ensures Resolves(sits', id, NewRoot(root, gone, w), if root in gone then n + 1 else n)
    decreases n
  {
    if n > 0 {
      ResolvesAfter(sits, sits', gone, w, sits[id].mergedInto.value, root, n - 1);
    } else if root in gone {
      assert Resolves(sits', w, w, 0);
    }
  }

  // --- the whole step ------------------------------------------------------------------------

  lemma PooledHome(s: Store, g: set<SitId>, gone: set<SitId>, w: SitId)
    requires Shaped(s) && gone <= g && g - gone <= {w} && w !in gone
    requires w in g || forall i :: 0 <= i < |s.home| ==> s.home[i] != w
    ensures MemberIds(MoveHome(s.home + [w], gone, w), w) == Pool(s.home, g) + {|s.dets|}
  {
    var home', n := MoveHome(s.home + [w], gone, w), |s.dets|;
    assert home'[n] == w;
    forall i | 0 <= i < n ensures home'[i] == w <==> s.home[i] in g {
      assert (s.home + [w])[i] == s.home[i];
      if s.home[i] in g && s.home[i] !in gone {
        assert s.home[i] in g - gone;
      }
    }
  }

  lemma MembersNonempty(dets: seq<Detection>, home: seq<SitId>, id: SitId, i: nat)
    requires |home| <= |dets| && i in MemberIds(home, id)
    ensures Members(dets, home, id) != []
  {
    MembersAre(dets, home, id);
  }

  lemma WinnerRow(s: Store, d: Detection, r: seq<SitId>, newId: SitId)
    requires Inv(s) && Ranking(s, d, r)
    ensures forall id :: id in r ==> id in s.sits
    ensures var row := if r == [] then NewRow(d) else s.sits[r[0]];
            row.status == OPEN && row.mergedInto == None
  {
    hide Linked, Shared, Rooted, Agrees, Chained, Connected, Frozen;
    if r != [] {
      assert Scored(s, d, r[0]);
      assert GoodOpen(s, r[0]);
    }
  }

  /** Where rows and situations stand after the step, before the invariant is argued. */
  lemma StepShape(s: Store, d: Detection, r: seq<SitId>, newId: SitId, trust: Risk.Trust)
    returns (s': Store, w: SitId, gone: set<SitId>, ms: seq<Detection>)
    requires Inv(s) && Ranking(s, d, r) && newId !in s.sits
    ensures forall id :: id in r ==> id in s.sits
    ensures s' == Correlated(s, d, r, newId, trust) && Shaped(s')
    ensures w == Winner(r, newId) && gone == Elements(Absorbed(s, r)) && w !in gone
    ensures s'.dets == s.dets + [d] && s'.home == MoveHome(s.home + [w], gone, w)
    ensures MemberIds(s'.home, w) == Pool(s.home, Group(s, r)) + {|s.dets|}
    ensures ms == Members(s'.dets, s'.home, w) != []
    ensures s'.sits.Keys == s.sits.Keys + {w}
    ensures s'.sits[w] == Derived(if r == [] then NewRow(d) else s.sits[r[0]], ms, trust)
    ensures s'.sits[w].status == OPEN && s'.sits[w].mergedInto == None
    ensures forall id :: id in s.sits && id != w ==>
              s'.sits[id] == if id in gone then s.sits[id].(status := MERGED, mergedInto := Some(w)) else s.sits[id]
    ensures s'.decs == Supersede(s.decs, s.sits, gone)
  {
    assert Shaped(s);
    hide Linked, Shared, Frozen, Rooted, GoodOpen, Scored, Members, Ranking, Derived, MemberIds, Correlated, Inv,
      Absorbed, Supersede, AlertOf, Pool, Group, NoWorse, Mergeable, MarkMerged, MoveHome, Placed, Elements, Winner;
    WinnerRow(s, d, r, newId);
    w, gone := Winner(r, newId), Elements(Absorbed(s, r));
    ms := CorrelatedIs(s, d, r, newId, trust);
    s' := Correlated(s, d, r, newId, trust);
    PlacedRows(s, d, r, newId);
    MarkFacts(s.sits, Placed(s, d, r, newId).sits, gone, w, s'.sits[w]);
    DerivedKeeps(if r == [] then NewRow(d) else s.sits[r[0]], ms, trust);
  }

  lemma PlacedRows(s: Store, d: Detection, r: seq<SitId>, newId: SitId)
    requires newId !in s.sits && forall id :: id in r ==> id in s.sits
    ensures var w, sits := Winner(r, newId), Placed(s, d, r, newId).sits;
            && sits.Keys == s.sits.Keys + {w}
            && sits[w] == (if r == [] then NewRow(d) else s.sits[r[0]])
            && forall id :: id in s.sits && id != w ==> sits[id] == s.sits[id]
  {
  }

  lemma CorrelatedIs(s: Store, d: Detection, r: seq<SitId>, newId: SitId, trust: Risk.Trust)
    returns (ms: seq<Detection>)
    requires Inv(s) && Ranking(s, d, r) && newId !in s.sits
    ensures forall id :: id in r ==> id in s.sits
    ensures var w, gone := Winner(r, newId), Elements(Absorbed(s, r));
            var home := MoveHome(s.home + [w], gone, w);
            var sits := Placed(s, d, r, newId).sits;
            && MemberIds(home, w) == Pool(s.home, Group(s, r)) + {|s.dets|}
            && ms == Members(s.dets + [d], home, w) != []
            && w !in gone && Shaped(Correlated(s, d, r, newId, trust))
            && Correlated(s, d, r, newId, trust) ==
                 Store(s.dets + [d], home, MarkMerged(sits, gone, w)[w := Derived(sits[w], ms, trust)],
                       Supersede(s.decs, s.sits, gone))
  {
    hide Linked, Shared, Frozen, Rooted, GoodOpen, Derived, Fitting, Carries;
    AbsorbedFacts(s, d, r, newId);
    var w, gone := Winner(r, newId), Elements(Absorbed(s, r));
    var p := Placed(s, d, r, newId);
    PooledHome(s, Group(s, r), gone, w);
    ms := Members(p.dets, MoveHome(p.home, gone, w), w);
    MembersNonempty(p.dets, MoveHome(p.home, gone, w), w, |s.dets|);
    hide MemberIds, MoveHome, Members, Ranking, Scored, Absorbed, Inv, Group, Pool, AlertOf;
    SameAlerts(s.sits, p.sits, gone);
    AlertsDecide(s.decs, p.sits, s.sits, gone);
    assert MarkMerged(p.sits, gone, w)[w] == p.sits[w];
  }

  lemma AlertsDecide(decs: map<AlertId, Decision>, sits: map<SitId, SitRow>, more: map<SitId, SitRow>, gone: set<SitId>)
    requires forall a: AlertId :: AlertOf(sits, gone, a) <==> AlertOf(more, gone, a)
    ensures Supersede(decs, sits, gone) == Supersede(decs, more, gone)
  {
  }

  lemma MarkFacts(base: map<SitId, SitRow>, sits: map<SitId, SitRow>, gone: set<SitId>, w: SitId, row: SitRow)
    requires sits.Keys == base.Keys + {w} && w !in gone
    requires forall id :: id in base && id != w ==> sits[id] == base[id]
    ensures var after := MarkMerged(sits, gone, w)[w := row];
            && after.Keys == base.Keys + {w}
            && forall id :: id in base && id != w ==>
                 after[id] == if id in gone then base[id].(status := MERGED, mergedInto := Some(w)) else base[id]
  {
  }

  lemma DerivedKeeps(row: SitRow, ms: seq<Detection>, trust: Risk.Trust)
    requires ms != []
    ensures var row' := Derived(row, ms, trust);
            row'.status == row.status && row'.mergedInto == row.mergedInto && row'.alert == row.alert
  {
  }

  lemma SameAlerts(sits: map<SitId, SitRow>, more: map<SitId, SitRow>, gone: set<SitId>)
    requires forall id :: id in gone ==> id in sits && id in more && more[id] == sits[id]
    ensures forall a :: AlertOf(more, gone, a) <==> AlertOf(sits, gone, a)
  {
  }

  /** The winner after the step is a good OPEN situation. */
  lemma WinnerIsGood(s: Store, d: Detection, r: seq<SitId>, newId: SitId, trust: Risk.Trust)
    requires Inv(s) && Ranking(s, d, r) && newId !in s.sits
    ensures forall id :: id in r ==> id in s.sits
    ensures var s' := Correlated(s, d, r, newId, trust);
            Shaped(s') && Winner(r, newId) in s'.sits && s'.sits[Winner(r, newId)].status == OPEN
            && GoodOpen(s', Winner(r, newId))
  {
    var s', w, gone, ms := StepShape(s, d, r, newId, trust);
    AbsorbedFacts(s, d, r, newId);
    var g, row, m := Group(s, r), s'.sits[w], MemberIds(s'.home, w);
    assert row == Derived(row, ms, trust);
    assert Agrees(row, ms);
    AgreesGivesBounds(s', w);
    ChainedUnion(s, d, g, m, row.first, row.last);
    ConnectedUnion(s, d, g, m);
    WinnerFits(s, d, r, newId, m);
  }

  /** All the members of the situations that come together, and the new detection. */
  lemma GroupSize(s: Store, d: Detection, r: seq<SitId>, newId: SitId)
    requires Inv(s) && Ranking(s, d, r) && newId !in s.sits && r != []
    requires forall x :: x in r ==> x in s.sits
    ensures forall x :: x in Absorbed(s, r) ==> x in s.sits
    ensures |Pool(s.home, Group(s, r)) + {|s.dets|}| == s.sits[r[0]].count + SumCounts(s, Absorbed(s, r)) + 1
  {
    hide Linked, Shared, Rooted, GoodOpen, Frozen, Fitting, Mergeable, Placed;
    AbsorbedFacts(s, d, r, newId);
    GroupIsListed(s, r);
    var ids := [r[0]] + Absorbed(s, r);
    assert ids[1..] == Absorbed(s, r);
    assert forall id :: id in ids ==> id in Group(s, r);
    PoolSize(s, ids);
    NewRowIsOutside(s, Group(s, r));
  }

  lemma GroupIsListed(s: Store, r: seq<SitId>)
    requires r != [] && forall x :: x in r ==> x in s.sits
    ensures Elements([r[0]] + Absorbed(s, r)) == Group(s, r)
  {
    hide Fitting;
  }

  lemma NewRowIsOutside(s: Store, g: set<SitId>)
    requires Shaped(s)
    ensures |Pool(s.home, g) + {|s.dets|}| == |Pool(s.home, g)| + 1
  {
  }

  lemma WinnerFits(s: Store, d: Detection, r: seq<SitId>, newId: SitId, m: set<nat>)
    requires Inv(s) && Ranking(s, d, r) && newId !in s.sits
    requires forall id :: id in r ==> id in s.sits
    requires m == Pool(s.home, Group(s, r)) + {|s.dets|}
    ensures |m| <= MAX_MEMBERS
  {
    if r == [] {
      assert Pool(s.home, Group(s, r)) == {};
    } else {
      hide Inv, Ranking, Pool, Group, Fitting, SumCounts, Absorbed;
      AbsorbedFacts(s, d, r, newId);
      GroupSize(s, d, r, newId);
    }
  }

  /** A situation that is neither the winner nor absorbed is left exactly as it was. */
  lemma BystanderIsUntouched(s: Store, d: Detection, r: seq<SitId>, newId: SitId, trust: Risk.Trust, id: SitId)
    requires Inv(s) && Ranking(s, d, r) && newId !in s.sits
    requires id in s.sits && id != Winner(r, newId) && id !in Absorbed(s, r)
    ensures forall x :: x in r ==> x in s.sits
    ensures var s' := Correlated(s, d, r, newId, trust);
            Shaped(s') && id in s'.sits && s'.sits[id] == s.sits[id]
            && MemberIds(s'.home, id) == MemberIds(s.home, id)
            && Members(s'.dets, s'.home, id) == Members(s.dets, s.home, id)
  {
    hide Linked, Shared, Rooted, GoodOpen, Derived, Members, Correlated;
    var s', w, gone, ms := StepShape(s, d, r, newId, trust);
    MembersFrame(s.dets, s'.dets, s.home, s'.home, id);
  }

  lemma GoodOpenFrame(s: Store, s': Store, id: SitId)
    requires Shaped(s) && Shaped(s') && id in s.sits && id in s'.sits && s.dets <= s'.dets
    requires s'.sits[id].(alert := None) == s.sits[id].(alert := None) && GoodOpen(s, id)
    requires MemberIds(s'.home, id) == MemberIds(s.home, id)
    requires Members(s'.dets, s'.home, id) == Members(s.dets, s.home, id)
    ensures GoodOpen(s', id)
  {
    var row, row', m, ms := s.sits[id], s'.sits[id], MemberIds(s.home, id), Members(s.dets, s.home, id);
    var trust :| row == Derived(row, ms, trust);
    assert row' == Derived(row', ms, trust);
    forall p | row.first <= p < row.last ensures Near(s'.dets, m, p) {
      NearGrows(s.dets, s'.dets, m, m, p);
    }
    forall a, b | a in m && b in m ensures Joined(s'.dets, m, a, b) {
      JoinedGrows(s.dets, s'.dets, m, m, a, b);
    }
  }

  lemma StepRedirects(s: Store, d: Detection, r: seq<SitId>, newId: SitId, trust: Risk.Trust)
    requires Inv(s) && Ranking(s, d, r) && newId !in s.sits
    ensures forall id :: id in r ==> id in s.sits
    ensures Redirected(s.sits, Correlated(s, d, r, newId, trust).sits, Elements(Absorbed(s, r)), Winner(r, newId))
  {
    hide Linked, Shared, Rooted, GoodOpen, Derived, Members, Correlated;
    var s', w, gone, ms := StepShape(s, d, r, newId, trust);
    AbsorbedFacts(s, d, r, newId);
    WinnerRow(s, d, r, newId);
    forall g | g in gone ensures g in s.sits && s.sits[g].status == OPEN {
      assert g in Group(s, r);
    }
  }

  /** Main preservation result. */
  lemma CorrelateKeepsInv(s: Store, d: Detection, r: seq<SitId>, newId: SitId, trust: Risk.Trust)
    requires Inv(s) && Ranking(s, d, r) && newId !in s.sits
    ensures forall id :: id in r ==> id in s.sits
    ensures Inv(Correlated(s, d, r, newId, trust))
  {
    hide Linked, Shared, GoodOpen, Derived, Members, Correlated, Ranking;
    var s', w, gone, ms := StepShape(s, d, r, newId, trust);
    AbsorbedFacts(s, d, r, newId);
    StepRedirects(s, d, r, newId, trust);
    WinnerIsGood(s, d, r, newId, trust);
    forall id | id in s'.sits && s'.sits[id].status == OPEN ensures GoodOpen(s', id) {
      if id != w {
        BystanderIsUntouched(s, d, r, newId, trust, id);
        GoodOpenFrame(s, s', id);
      }
    }
    forall id | id in s'.sits ensures Rooted(s'.sits, id) {
      if id == w {
        assert Resolves(s'.sits, w, w, 0);
      } else {
        assert Rooted(s.sits, id);
        var root, n :| Resolves(s.sits, id, root, n);
        ResolvesAfter(s.sits, s'.sits, gone, w, id, root, n);
      }
    }
  }
}
