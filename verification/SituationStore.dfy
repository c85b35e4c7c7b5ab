/** The store itself, updated in place the way `orchestrator/situation.py` updates its tables. */
module SituationStore {
  import opened Common
  import opened Detections
  import opened Situations
  import opened SituationInvariant
  import Step = SituationStep
  import Laws = SituationLaws
  import Risk

  /** What became of a detection: `CorrelationOutcome`. */
  datatype Outcome = Outcome(situation: SitId, created: bool, joinedOn: seq<Key>, merged: seq<SitId>, related: set<SitId>)

  // --- specification-side lemmas ------------------------------------------------------

  lemma MergeOneMore(s: Store, w: SitId, done: set<SitId>, t: SitId)
    requires t in s.sits && t !in done && t != w && s.sits[t].status == OPEN
    requires forall x :: x in done ==> x != w
    ensures MergedInto(MergedInto(s, w, done), w, {t}) == MergedInto(s, w, done + {t})
  {
    var sits := MarkMerged(s.sits, done, w);
    assert MoveHome(MoveHome(s.home, done, w), {t}, w) == MoveHome(s.home, done + {t}, w);
    assert MarkMerged(sits, {t}, w) == MarkMerged(s.sits, done + {t}, w);
    forall x: AlertId ensures AlertOf(s.sits, done + {t}, x) <==> AlertOf(s.sits, done, x) || AlertOf(sits, {t}, x) {
      AlertsOfOneMore(s.sits, sits, done, t, x);
    }
    hide AlertOf, MarkMerged;
    assert Supersede(Supersede(s.decs, s.sits, done), sits, {t}) == Supersede(s.decs, s.sits, done + {t});
  }

  lemma AlertsOfOneMore(sits: map<SitId, SitRow>, marked: map<SitId, SitRow>, done: set<SitId>, t: SitId, x: AlertId)
    requires t in sits && t in marked && marked[t] == sits[t]
    ensures AlertOf(sits, done + {t}, x) <==> AlertOf(sits, done, x) || AlertOf(marked, {t}, x)
  {
    assert t in {t} && t in done + {t};
  }

  lemma MergeNothing(s: Store, w: SitId)
    ensures MergedInto(s, w, {}) == s
  {
    assert MoveHome(s.home, {}, w) == s.home;
    assert MarkMerged(s.sits, {}, w) == s.sits;
    assert Supersede(s.decs, s.sits, {}) == s.decs;
  }

  /** Insert before the first entry that is strictly worse. */
  function InsertRanked(s: Store, d: Detection, r: seq<SitId>, id: SitId): seq<SitId>
    requires id in s.sits && forall k :: 0 <= k < |r| ==> r[k] in s.sits
  {
    if r == [] || NoWorse(s, d, r[|r| - 1], id) then r + [id]
    else InsertRanked(s, d, r[..|r| - 1], id) + [r[|r| - 1]]
  }

  ghost predicate RankedAmong(s: Store, d: Detection, r: seq<SitId>, ids: set<SitId>) {
    && Distinct(r)
    && (forall id :: id in r <==> id in ids)
    && (forall k :: 0 <= k < |r| ==> r[k] in s.sits)
    && (forall i, j :: 0 <= i < j < |r| ==> NoWorse(s, d, r[i], r[j]))
  }

  lemma {:induction false} InsertKeepsRanking(s: Store, d: Detection, r: seq<SitId>, ids: set<SitId>, id: SitId)
    requires RankedAmong(s, d, r, ids) && id in s.sits && id !in ids
    ensures RankedAmong(s, d, InsertRanked(s, d, r, id), ids + {id})
  {
    hide Shared;
    if r != [] && !NoWorse(s, d, r[|r| - 1], id) {
      var front, l := r[..|r| - 1], r[|r| - 1];
      assert r == front + [l];
      assert l !in front;
      InsertKeepsRanking(s, d, front, ids - {l}, id);
      var f := InsertRanked(s, d, front, id);
      forall k | 0 <= k < |f| ensures NoWorse(s, d, f[k], l) {
        assert f[k] in f;
        if f[k] != id {
          assert f[k] in front;
          var m :| 0 <= m < |front| && front[m] == f[k];
        }
      }
      assert forall x :: x in f + [l] <==> x in ids + {id};
    }
  }

  // --- helper loops ---------------------------------------------------------------------

  method BuildEntityGraph(ms: seq<Detection>) returns (graph: Graph)
    ensures graph == BuildGraph(ms)
  {
    hide NamespacedValues, AddValues, Cleaned;
    graph := map[];
    for i := 0 to |ms|
      invariant graph == BuildGraph(ms[..i])
    {
      var values := CollectNamespaced(Cleaned(ms[i].entities));
      graph := AddMember(graph, values);
      assert ms[..i + 1][..i] == ms[..i];
    }
    assert ms[..|ms|] == ms;
  }

  method AddMember(before: Graph, values: seq<Key>) returns (graph: Graph)
    ensures graph == AddValues(before, values)
  {
    graph := before;
    for j := 0 to |values|
      invariant graph == AddValues(before, values[..j])
    {
      assert values[..j + 1][..j] == values[..j];
      var bucket := Bucket(graph, values[j].ns);
      if !Carries(graph, Folded(values[j])) {
        bucket := bucket + [values[j].value];
      }
      graph := graph[values[j].ns := bucket];
    }
    assert values[..|values|] == values;
  }

  method TimeBounds(ms: seq<Detection>) returns (first: int, last: int)
    requires ms != []
    ensures first == MinAt(ms) && last == MaxAt(ms)
  {
    first, last := ms[0].detectedAt, ms[0].detectedAt;
    for i := 1 to |ms|
      invariant first == MinAt(ms[..i]) && last == MaxAt(ms[..i])
    {
      assert ms[..i + 1][..i] == ms[..i];
      if ms[i].detectedAt < first { first := ms[i].detectedAt; }
      if ms[i].detectedAt > last { last := ms[i].detectedAt; }
    }
    assert ms[..|ms|] == ms;
  }

  /** The frozen ones, or the others, of a listing, in its order. */
  function Those(s: Store, ids: seq<SitId>, frozen: bool): seq<SitId>
    requires forall id :: id in ids ==> id in s.sits
  {
    if ids == [] then []
    else
      var front, l := ids[..|ids| - 1], ids[|ids| - 1];
      Those(s, front, frozen) + (if Frozen(s, l) == frozen then [l] else [])
  }

  /** A partition: each side holds what belongs there, as often as it is listed. */
  lemma {:induction false} ThoseAre(s: Store, ids: seq<SitId>, frozen: bool)
    requires forall id :: id in ids ==> id in s.sits
    ensures forall id :: id in Those(s, ids, frozen) <==> id in ids && Frozen(s, id) == frozen
    ensures multiset(Those(s, ids, frozen)) + multiset(Those(s, ids, !frozen)) == multiset(ids)
  {
    hide Frozen;
    if ids != [] {
      var front, l := ids[..|ids| - 1], ids[|ids| - 1];
      assert ids == front + [l];
      ThoseAre(s, front, frozen);
    }
  }

  /** The frozen side, said of rows and decisions. */
  lemma FrozenSide(s: Store, ids: seq<SitId>)
    requires forall id :: id in ids ==> id in s.sits
    ensures forall id :: id in Those(s, ids, true) <==>
      && id in ids && s.sits[id].alert.Some? && s.sits[id].alert.value in s.decs
      && (s.decs[s.sits[id].alert.value].status != PENDING || s.decs[s.sits[id].alert.value].human)
    ensures multiset(Those(s, ids, false)) + multiset(Those(s, ids, true)) == multiset(ids)
  {
    hide Those;
    ThoseAre(s, ids, true);
  }

  ghost function ScoredIn(s: Store, d: Detection, ids: seq<SitId>): set<SitId> { set id | id in ids && Scored(s, d, id) }

  function FrozenIn(s: Store, d: Detection, ids: seq<SitId>): set<SitId> {
    set id | id in ids && Matches(s, d, id) && Frozen(s, id)
  }

  lemma CandidatesAreStored(s: Store, d: Detection)
    ensures forall id :: Candidate(s, d, id) ==> id in s.sits
  {
  }

  lemma NoCandidates(s: Store, d: Detection)
    ensures RankedAmong(s, d, [], ScoredIn(s, d, [])) && FrozenIn(s, d, []) == {}
  {
  }

  lemma NotYetRanked(s: Store, d: Detection, r: seq<SitId>, ids: seq<SitId>, id: SitId)
    requires RankedAmong(s, d, r, ScoredIn(s, d, ids)) && id !in ids
    ensures id !in ScoredIn(s, d, ids) && forall k :: 0 <= k < |r| ==> r[k] in s.sits
  {
  }

  lemma OneMoreCandidate(s: Store, d: Detection, ids: seq<SitId>, id: SitId)
    requires id in s.sits && Candidate(s, d, id)
    ensures ScoredIn(s, d, ids + [id]) ==
      if Shared(s.sits[id], d) != [] && !Frozen(s, id) then ScoredIn(s, d, ids) + {id} else ScoredIn(s, d, ids)
    ensures FrozenIn(s, d, ids + [id]) ==
      if Shared(s.sits[id], d) != [] && Frozen(s, id) then FrozenIn(s, d, ids) + {id} else FrozenIn(s, d, ids)
    ensures Scored(s, d, id) <==> Shared(s.sits[id], d) != [] && !Frozen(s, id)
    ensures ScoredIn(s, d, ids) <= Step.Elements(ids)
  {
    hide Shared, Candidate, Frozen;
  }

  lemma AllCandidates(s: Store, d: Detection, ids: seq<SitId>, r: seq<SitId>)
    requires forall id :: id in ids <==> Candidate(s, d, id)
    requires RankedAmong(s, d, r, ScoredIn(s, d, ids))
    ensures Ranking(s, d, r)
    ensures FrozenIn(s, d, ids) == set id | id in s.sits && Matches(s, d, id) && Frozen(s, id)
  {
    CandidatesAreStored(s, d);
    hide Shared, Candidate, Frozen;
    assert forall i :: 0 <= i < |r| ==> r[i] in r;
  }

  class SituationTables {
    var dets: seq<Detection>
    var home: seq<SitId>
    var sits: map<SitId, SitRow>
    var decs: map<AlertId, Decision>

    function State(): Store
      reads this
    {
      Store(dets, home, sits, decs)
    }

    constructor ()
      ensures State() == EMPTY && Inv(State())
    {
      dets, home, sits, decs := [], [], map[], map[];
      new;
      EmptyIsGood();
    }

    /** Split the listed candidates into those still open to change and those whose decision is settled. */
    method PartitionCandidates(ids: seq<SitId>) returns (openIds: seq<SitId>, frozenIds: seq<SitId>)
      requires forall id :: id in ids ==> id in sits
      ensures openIds == Those(State(), ids, false) && frozenIds == Those(State(), ids, true)
      ensures forall id :: id in frozenIds <==>
        && id in ids && sits[id].alert.Some? && sits[id].alert.value in decs
        && (decs[sits[id].alert.value].status != PENDING || decs[sits[id].alert.value].human)
      ensures multiset(openIds) + multiset(frozenIds) == multiset(ids)
    {
      FrozenSide(State(), ids);
      openIds, frozenIds := [], [];
      for i := 0 to |ids|
        invariant openIds == Those(State(), ids[..i], false) && frozenIds == Those(State(), ids[..i], true)
      {
        hide Frozen;
        assert ids[i] in ids && ids[..i + 1][..i] == ids[..i];
        if Frozen(State(), ids[i]) {
          frozenIds := frozenIds + [ids[i]];
        } else {
          openIds := openIds + [ids[i]];
        }
      }
      assert ids[..|ids|] == ids;
    }

    /** What the candidate query returns. */
    method ListCandidates(d: Detection) returns (ids: seq<SitId>)
      ensures Distinct(ids) && forall id :: id in ids <==> Candidate(State(), d, id)
    {
      hide Candidate;
      ids := [];
      var todo := sits.Keys;
      ghost var seen: set<SitId> := {};
      while todo != {}
        invariant seen + todo == sits.Keys && seen !! todo
        invariant Distinct(ids) && forall id :: id in ids <==> id in seen && Candidate(State(), d, id)
      {
        var id :| id in todo;
        todo := todo - {id};
        if Candidate(State(), d, id) { ids := ids + [id]; }
        seen := seen + {id};
      }
      CandidatesAreStored(State(), d);
    }

    /** Fold situations into another, one row at a time. */
    method MergeSituations(w: SitId, absorbed: seq<SitId>) returns (merged: seq<SitId>)
      requires Shaped(State())
      modifies this
      ensures State() == MergedInto(old(State()), w, Mergeable(old(State()), w, absorbed))
      ensures Distinct(merged) && forall id :: id in merged <==> id in Mergeable(old(State()), w, absorbed)
    {
      ghost var s0 := State();
      var rows := sits;
      var todo := set t | t in absorbed && t != w && t in sits;
      merged := [];
      ghost var done: set<SitId> := {};
      MergeNothing(s0, w);
      while todo != {}
        invariant State() == MergedInto(s0, w, done)
        invariant rows == s0.sits && todo <= rows.Keys && done <= rows.Keys
        invariant done + (set t | t in todo && rows[t].status == OPEN) == Mergeable(s0, w, absorbed)
        invariant done !! todo && w !in todo && w !in done
        invariant Distinct(merged) && forall id :: id in merged <==> id in done
      {
        var t :| t in todo;
        todo := todo - {t};
        if rows[t].status == OPEN {
          MergeOneMore(s0, w, done, t);
          MergeOne(t, w);
          merged := merged + [t];
          done := done + {t};
        }
      }
      assert done == Mergeable(s0, w, absorbed);
    }

    /** One absorbed row: its detections, its status and pointer, its pending decision. */
    method MergeOne(t: SitId, w: SitId)
      requires t in sits
      modifies this
      ensures State() == MergedInto(old(State()), w, {t})
    {
      ghost var s0 := State();
      home := seq(|home|, i requires 0 <= i < |home| reads this => if home[i] == t then w else home[i]);
      var alert := sits[t].alert;
      sits := sits[t := sits[t].(status := MERGED, mergedInto := Some(w))];
      if alert.Some? && alert.value in decs && decs[alert.value].status == PENDING {
        decs := decs[alert.value := decs[alert.value].(status := SUPERSEDED)];
      }
      assert home == MoveHome(s0.home, {t}, w);
      assert sits == MarkMerged(s0.sits, {t}, w);
      forall a: AlertId ensures AlertOf(s0.sits, {t}, a) <==> s0.sits[t].alert == Some(a) {
        assert t in {t};
      }
      assert decs == Supersede(s0.decs, s0.sits, {t});
    }

    /** Bring the row in line with its members; a situation without members is left alone. */
    method Recompute(id: SitId, trust: Risk.Trust)
      requires Shaped(State())
      modifies this`sits
      ensures State() == Recomputed(old(State()), id, trust)
    {
      if id in sits {
        var ms := Members(dets, home, id);
        if ms != [] {
          var score, severity, factors := Risk.ScoreSituation(ms, trust);
          var graph := BuildEntityGraph(ms);
          var first, last := TimeBounds(ms);
          sits := sits[id := sits[id].(first := first, last := last, count := |ms|, sources := Risk.Sources(ms),
                                       graph := graph, score := score, severity := severity)];
        }
      }
    }

    /** The open matches best first, and the settled ones that matched. */
    method RankCandidates(d: Detection) returns (r: seq<SitId>, frozen: set<SitId>)
      ensures Ranking(State(), d, r)
      ensures frozen == set id | id in sits && Matches(State(), d, id) && Frozen(State(), id)
    {
      hide Shared, Candidate, Frozen, Ranking, RankedAmong, ScoredIn, FrozenIn, Those, Matches, Scored;
      var s := State();
      CandidatesAreStored(s, d);
      NoCandidates(s, d);
      var ids := ListCandidates(d);
      var openIds, frozenIds := PartitionCandidates(ids);
      ThoseAre(s, ids, false);
      ThoseAre(s, ids, true);
      r, frozen := [], {};
      for i := 0 to |ids|
        invariant RankedAmong(s, d, r, ScoredIn(s, d, ids[..i]))
        invariant frozen == FrozenIn(s, d, ids[..i])
      {
        var id := ids[i];
        assert id in ids && ids[..i + 1] == ids[..i] + [id] && id !in ids[..i];
        OneMoreCandidate(s, d, ids[..i], id);
        if Shared(sits[id], d) != [] {
          if id in frozenIds {
            frozen := frozen + {id};
          } else if id in openIds {
            NotYetRanked(s, d, r, ids[..i], id);
            InsertKeepsRanking(s, d, r, ScoredIn(s, d, ids[..i]), id);
            r := InsertRanked(s, d, r, id);
          }
        }
      }
      assert ids[..|ids|] == ids;
      AllCandidates(s, d, ids, r);
    }

    /** Which situation wins, which it absorbs, and which matched but are left alone. */
    method ChoosePlace(d: Detection) returns (r: seq<SitId>, toMerge: seq<SitId>, related: set<SitId>)
      requires Inv(State())
      ensures Ranking(State(), d, r) && forall id :: id in r ==> id in sits
      ensures toMerge == Absorbed(State(), r) && Distinct(toMerge) && forall id :: id in toMerge ==> id in r
      ensures related == set id | id in sits && IsRelated(State(), d, r, id)
    {
      hide Shared, Inv, Candidate, IsRelated, Frozen, Rooted;
      var frozen;
      r, frozen := RankCandidates(d);
      toMerge, related := [], frozen;
      RankingFacts(State(), d, r);
      if r != [] {
        var skipped;
        var allowance := MAX_MEMBERS - sits[r[0]].count - 1;
        toMerge, skipped := ChooseAbsorbed(r[1..], allowance);
        related := related + skipped;
        Step.FittingFits(State(), r[1..], allowance);
      }
      RelatedIs(State(), d, r, frozen);
    }

    /** Store a detection and place it: join the best match, absorb what fits, or open a situation. */
    method Correlate(d: Detection, newId: SitId, trust: Risk.Trust) returns (out: Outcome, ghost r: seq<SitId>)
      requires Inv(State()) && newId !in sits
      modifies this
      ensures Ranking(old(State()), d, r) && forall id :: id in r ==> id in old(sits)
      ensures State() == Correlated(old(State()), d, r, newId, trust) && Inv(State())
      ensures out.situation == Winner(r, newId) && out.created == (r == [])
      ensures out.joinedOn == if r == [] then [] else Shared(old(sits)[r[0]], d)
      ensures Distinct(out.merged) && forall id :: id in out.merged <==> id in Absorbed(old(State()), r)
      ensures out.related == set id | id in old(sits) && IsRelated(old(State()), d, r, id)
      ensures out.created <==> !exists id ::
        && id in old(sits) && Laws.InReach(old(sits)[id], d) && Laws.CommonKeys(old(sits)[id], d) != {}
        && !Laws.Decided(old(State()), old(sits)[id])
      ensures forall id | id in old(sits) && Laws.InReach(old(sits)[id], d) && Laws.CommonKeys(old(sits)[id], d) != {}
                         && Laws.Decided(old(State()), old(sits)[id]) ::
        id in out.related && id in sits && sits[id] == old(sits)[id]
    {
      assert Shaped(State());
      hide Shared, Inv, Recomputed, MergedInto, Mergeable, Ranking, IsRelated, Absorbed, Matches;
      ghost var s0 := State();
      var ranked, toMerge, related := ChoosePlace(d);
      r := ranked;
      Step.CorrelateKeepsInv(s0, d, r, newId, trust);
      Step.AbsorbedFacts(s0, d, r, newId);
      var chosen, joinedOn := newId, [];
      if ranked != [] {
        assert ranked[0] in ranked;
        chosen, joinedOn := ranked[0], Shared(sits[ranked[0]], d);
      } else {
        sits := sits[newId := NewRow(d)];
      }
      dets, home := dets + [d], home + [chosen];
      assert State() == Placed(s0, d, r, newId);
      var merged := MergeSituations(chosen, toMerge);
      Recompute(chosen, trust);
      out := Outcome(chosen, ranked == [], joinedOn, merged, related);
      Laws.JoinsIff(s0, d, r, newId);
      AllDecidedAreRelated(s0, d, r, newId, trust);
    }

    /** Absorb in rank order under the member budget. */
    method ChooseAbsorbed(ids: seq<SitId>, allowance: int) returns (chosen: seq<SitId>, skipped: set<SitId>)
      requires forall id :: id in ids ==> id in sits
      requires Distinct(ids) && allowance >= 0
      ensures chosen == Fitting(State(), ids, allowance)
      ensures skipped == set id | id in ids && id !in chosen
    {
      chosen, skipped := [], {};
      var budget := allowance;
      for i := 0 to |ids|
        invariant 0 <= budget
        invariant forall id :: id in ids[i..] ==> id in sits
        invariant chosen + Fitting(State(), ids[i..], budget) == Fitting(State(), ids, allowance)
        invariant forall id :: id in chosen ==> id in ids[..i]
        invariant skipped == set id | id in ids[..i] && id !in chosen
      {
        assert ids[i] in ids;
        assert ids[i..] == [ids[i]] + ids[i + 1..];
        assert ids[..i + 1] == ids[..i] + [ids[i]];
        assert ids[i] !in ids[..i];
        if sits[ids[i]].count <= budget {
          budget := budget - sits[ids[i]].count;
          chosen := chosen + [ids[i]];
        } else {
          skipped := skipped + {ids[i]};
        }
      }
      assert ids[..|ids|] == ids;
    }
  }

  lemma RankingFacts(s: Store, d: Detection, r: seq<SitId>)
    requires Ranking(s, d, r)
    ensures forall id :: id in r ==> id in s.sits && Scored(s, d, id)
    ensures r != [] ==> Distinct(r[1..]) && s.sits[r[0]].count < MAX_MEMBERS && forall id :: id in r[1..] ==> id in r
  {
    if r != [] {
      assert Scored(s, d, r[0]);
    }
  }

  ghost predicate IsRelated(s: Store, d: Detection, r: seq<SitId>, id: SitId)
    requires forall x :: x in r ==> x in s.sits
  {
    id in s.sits && Matches(s, d, id) && id !in Absorbed(s, r) && (r == [] || id != r[0])
  }

  /** A match somebody has decided is named among the related, and its row stays. */
  lemma DecidedIsRelated(s: Store, d: Detection, r: seq<SitId>, newId: SitId, trust: Risk.Trust, id: SitId)
    requires Inv(s) && Ranking(s, d, r) && newId !in s.sits
    requires id in s.sits && Laws.InReach(s.sits[id], d) && Laws.CommonKeys(s.sits[id], d) != {} && Laws.Decided(s, s.sits[id])
    ensures forall x :: x in r ==> x in s.sits
    ensures IsRelated(s, d, r, id)
    ensures Shaped(s) && id in Correlated(s, d, r, newId, trust).sits
    ensures Correlated(s, d, r, newId, trust).sits[id] == s.sits[id]
  {
    Laws.DecidedIsUntouched(s, d, r, newId, trust, id, s.sits[id].alert.value);
    Laws.ScoredIff(s, d, id);
    Step.AbsorbedFacts(s, d, r, newId);
    hide Laws.InReach, Laws.CommonKeys, Laws.Decided, Inv, Correlated, Shared, Candidate, Frozen;
    forall g | g in Absorbed(s, r) ensures g != id { assert g in Step.Group(s, r); }
  }

  lemma AllDecidedAreRelated(s: Store, d: Detection, r: seq<SitId>, newId: SitId, trust: Risk.Trust)
    requires Inv(s) && Ranking(s, d, r) && newId !in s.sits
    ensures forall x :: x in r ==> x in s.sits
    ensures Shaped(s)
    ensures forall id | id in s.sits && Laws.InReach(s.sits[id], d) && Laws.CommonKeys(s.sits[id], d) != {}
                        && Laws.Decided(s, s.sits[id]) ::
      IsRelated(s, d, r, id) && id in Correlated(s, d, r, newId, trust).sits
      && Correlated(s, d, r, newId, trust).sits[id] == s.sits[id]
  {
    Step.AbsorbedFacts(s, d, r, newId);
    assert forall x :: x in r ==> x in s.sits by { Laws.RankedAreThere(s, d, r); }
    hide Laws.InReach, Laws.CommonKeys, Laws.Decided, Ranking, Correlated, IsRelated;
    forall id | id in s.sits && Laws.InReach(s.sits[id], d) && Laws.CommonKeys(s.sits[id], d) != {}
      && Laws.Decided(s, s.sits[id])
      ensures IsRelated(s, d, r, id) && id in Correlated(s, d, r, newId, trust).sits
      ensures Correlated(s, d, r, newId, trust).sits[id] == s.sits[id]
    {
      DecidedIsRelated(s, d, r, newId, trust, id);
    }
  }

  lemma RelatedIs(s: Store, d: Detection, r: seq<SitId>, frozen: set<SitId>)
    requires Ranking(s, d, r) && forall id :: id in r ==> id in s.sits
    requires frozen == set id | id in s.sits && Matches(s, d, id) && Frozen(s, id)
    ensures (set id | id in s.sits && IsRelated(s, d, r, id))
            == frozen + (if r == [] then {} else set id | id in r[1..] && id !in Absorbed(s, r))
  {
    hide Shared, Fitting, Candidate;
    RankingFacts(s, d, r);
    if r != [] {
      assert r == [r[0]] + r[1..];
      Step.FittingFits(s, r[1..], MAX_MEMBERS - s.sits[r[0]].count - 1);
    }
  }
}
