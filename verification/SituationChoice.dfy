/** When the winner depends on the inputs alone (`orchestrator/situation.py`). */
module SituationChoice {
  import opened Common
  import opened Detections
  import opened Situations
  import opened SituationInvariant
  import opened SituationRuns
  import Step = SituationStep
  import Risk

  /** No other open match is as good as `w`. */
  ghost predicate Untied(s: Store, d: Detection, w: SitId)
    requires w in s.sits
  {
    forall id :: Scored(s, d, id) && id != w ==> !NoWorse(s, d, id, w)
  }

  /** The listing with its `k`-th entry brought to the front. */
  function Promoted(r: seq<SitId>, k: nat): seq<SitId>
    requires k < |r|
  {
    [r[k]] + r[..k] + r[k + 1..]
  }

  /** Where the entry now at `i` was. */
  function Was(k: nat, i: nat): nat { if i == 0 then k else if i <= k then i - 1 else i }

  function Becomes(k: nat, i: nat): nat { if i == k then 0 else if i < k then i + 1 else i }

  lemma PromotedAt(r: seq<SitId>, k: nat, i: nat)
    requires k < |r| && i < |r|
    ensures |Promoted(r, k)| == |r| && Promoted(r, k)[i] == r[Was(k, i)]
    ensures Was(k, Becomes(k, i)) == i && Becomes(k, i) < |r|
  {
  }

  lemma ScoredIsStored(s: Store, d: Detection, r: seq<SitId>)
    requires Ranking(s, d, r)
    ensures forall i :: 0 <= i < |r| ==> r[i] in s.sits
  {
    forall i | 0 <= i < |r| ensures r[i] in s.sits { assert Scored(s, d, r[i]); }
  }

  lemma PromotedIsARanking(s: Store, d: Detection, r: seq<SitId>, k: nat)
    requires Ranking(s, d, r) && k < |r| && r[k] in s.sits && r[0] in s.sits && NoWorse(s, d, r[k], r[0])
    ensures Ranking(s, d, Promoted(r, k))
  {
    ScoredIsStored(s, d, r);
    hide Scored, Shared, Promoted, Was, Becomes;
    var q := Promoted(r, k);
    forall i | 0 <= i < |r| ensures Scored(s, d, q[i]) && q[i] in s.sits { PromotedAt(r, k, i); }
    forall id | Scored(s, d, id) ensures id in q {
      var i :| 0 <= i < |r| && r[i] == id;
      PromotedAt(r, k, i);
      PromotedAt(r, k, Becomes(k, i));
      assert q[Becomes(k, i)] == id;
    }
    forall i: nat, j: nat | i < j < |q| ensures q[i] != q[j] && NoWorse(s, d, q[i], q[j]) {
      PromotedAt(r, k, i);
      PromotedAt(r, k, j);
      Order(s, d, r, k, i, j);
    }
  }

  lemma Order(s: Store, d: Detection, r: seq<SitId>, k: nat, i: nat, j: nat)
    requires Ranking(s, d, r) && k < |r| && i < j < |r|
    requires forall i :: 0 <= i < |r| ==> r[i] in s.sits
    requires NoWorse(s, d, r[k], r[0])
    ensures r[Was(k, i)] != r[Was(k, j)] && NoWorse(s, d, r[Was(k, i)], r[Was(k, j)])
  {
    hide Scored, Shared;
    var a, b := Was(k, i), Was(k, j);
    if a < b {
      assert NoWorse(s, d, r[a], r[b]);
    } else {
      assert a == k && b < k;
      assert b == 0 || NoWorse(s, d, r[0], r[b]);
    }
  }

  lemma FirstIsAsGood(s: Store, d: Detection, q: seq<SitId>, w: SitId)
    requires Ranking(s, d, q) && Scored(s, d, w) && w in s.sits
    ensures q != [] && q[0] in s.sits && Scored(s, d, q[0]) && (q[0] == w || NoWorse(s, d, q[0], w))
  {
    ScoredIsStored(s, d, q);
    hide Scored, NoWorse;
    assert w in q;
    var k :| 0 <= k < |q| && q[k] == w;
  }

  /** Whatever order the database lists ties in, one winner comes first, exactly when the best match is untied. */
  lemma WinnerIsDeterminedIff(s: Store, d: Detection, r: seq<SitId>)
    requires Ranking(s, d, r) && r != []
    ensures r[0] in s.sits
    ensures (forall q :: Ranking(s, d, q) ==> q != [] && q[0] == r[0]) <==> Untied(s, d, r[0])
  {
    assert Scored(s, d, r[0]);
    assert r[0] in s.sits;
    ScoredIsStored(s, d, r);
    hide Scored, NoWorse;
    if Untied(s, d, r[0]) {
      forall q | Ranking(s, d, q) ensures q != [] && q[0] == r[0] {
        FirstIsAsGood(s, d, q, r[0]);
      }
    } else {
      var id :| Scored(s, d, id) && id != r[0] && NoWorse(s, d, id, r[0]);
      assert id in r;
      var k :| 0 <= k < |r| && r[k] == id;
      PromotedIsARanking(s, d, r, k);
      assert Promoted(r, k)[0] == id;
    }
  }

  // --- a tie the database decides ---------------------------------------------------

  /** Two flows from different addresses, and one between them, at the same moment. */
  function Flow(src: string, dst: string): Detection {
    Detection("ids", 0, "HIGH", {}, Entities("", "", "", "", src, dst, "", "", ""))
  }

  const FIRST := Flow("a", "")
  const SECOND := Flow("b", "")
  const BRIDGE := Flow("a", "b")

  const TIE := [Ingest(FIRST, [], 0, map[]), Ingest(SECOND, [], 1, map[])]

  lemma {:induction false} SkipEmpty(fields: seq<Key>, j: nat, k: nat)
    requires j <= k <= |fields| && forall i :: j <= i < k ==> fields[i].value == ""
    ensures NamespacedOf(fields[..k]) == NamespacedOf(fields[..j])
  {
    if j < k {
      assert fields[..k][..k - 1] == fields[..k - 1];
      SkipEmpty(fields, j, k - 1);
    }
  }

  lemma NextField(fields: seq<Key>, k: nat)
    requires k < |fields| && fields[k].value != ""
    ensures var rest := NamespacedOf(fields[..k]);
      NamespacedOf(fields[..k + 1]) == if HasFolded(rest, fields[k]) then rest else rest + [fields[k]]
  {
    assert fields[..k + 1][..k] == fields[..k];
  }

  lemma FlowValues(src: string, dst: string)
    requires src in {"a", "b"} && dst in {"", "b"} && src != dst
    ensures NamespacedValues(Flow(src, dst).entities) == [Key(IP, src)] + if dst == "" then [] else [Key(IP, dst)]
  {
    var f := Flow(src, dst).entities.Fields();
    ShortIsClean(src);
    ShortIsClean(dst);
    assert |f| == 9 && f[4] == Key(IP, src) && f[5] == Key(IP, dst);
    assert forall i :: 0 <= i < 9 && i != 4 && i != 5 ==> f[i].value == "";
    assert f[..9] == f;
    ValuesOfFlow(f, Key(IP, src), Key(IP, dst));
  }

  lemma ValuesOfFlow(f: seq<Key>, a: Key, b: Key)
    requires |f| == 9 && f[4] == a && f[5] == b && a.value != "" && Folded(a) != Folded(b)
    requires forall i :: 0 <= i < 9 && i != 4 && i != 5 ==> f[i].value == ""
    ensures NamespacedOf(f[..9]) == [a] + if b.value == "" then [] else [b]
  {
    hide NamespacedOf, Folded;
    EmptyFields(f);
    SkipEmpty(f, 0, 4);
    NextField(f, 4);
    assert !HasFolded([], a);
    if b.value != "" { NextField(f, 5); } else { SkipEmpty(f, 5, 6); }
    SkipEmpty(f, 6, 9);
  }

  lemma EmptyFields(f: seq<Key>)
    ensures NamespacedOf(f[..0]) == []
  {
  }

  /** What a flow is joined on. */
  lemma FlowJoins(src: string, dst: string)
    requires src in {"a", "b"} && dst in {"", "b"} && src != dst
    ensures JoinKeys(Flow(src, dst).entities) == [Key(IP, src)] + if dst == "" then [] else [Key(IP, dst)]
  {
    var ks := [Key(IP, src)] + if dst == "" then [] else [Key(IP, dst)];
    FlowValues(src, dst);
    ShortIsClean(src);
    ShortIsClean(dst);
    hide NamespacedValues, Lower;
    assert FoldAll(ks) == ks;
    if dst != "" { assert ks[1..] == [Key(IP, dst)] && ks[1..][1..] == []; } else { assert ks[1..] == []; }
  }

  /** What the graph of a flow carries. */
  lemma FlowGraph(src: string, dst: string)
    requires src in {"a", "b"} && dst in {"", "b"} && src != dst
    ensures GraphKeys(Flow(src, dst)) == {Key(IP, src)} + if dst == "" then {} else {Key(IP, dst)}
  {
    var e := Flow(src, dst).entities;
    var f := e.Fields();
    ShortIsClean(src);
    ShortIsClean(dst);
    ShortIsClean("");
    assert Cleaned(e) == e;
    hide CleanEntity, Lower, Cleaned;
    assert f[4] in f && f[5] in f;
    assert |f| == 9 && forall i :: 0 <= i < 9 && i != 4 && i != 5 ==> f[i].value == "";
    forall x | x in f && x.value != "" ensures x == Key(IP, src) || (dst != "" && x == Key(IP, dst)) {
      var i :| 0 <= i < 9 && f[i] == x;
    }
  }

  lemma ShortIsClean(s: string)
    requires s in {"", "a", "b"}
    ensures CleanEntity(s) == s && Lower(s) == s
  {
    assert Lower(s) == s;
  }

  /** A detection that matches nothing opens a situation of its own and changes no other. */
  lemma OpensAlone(s: Store, d: Detection, newId: SitId, trust: Risk.Trust)
    requires Inv(s) && Ranking(s, d, []) && newId !in s.sits
    ensures var t := Correlated(s, d, [], newId, trust);
      && Inv(t) && t.dets == s.dets + [d] && t.home == s.home + [newId] && t.decs == s.decs
      && t.sits.Keys == s.sits.Keys + {newId} && (forall id :: id in s.sits ==> t.sits[id] == s.sits[id])
      && t.sits[newId].status == OPEN && t.sits[newId].alert == None
  {
    hide Inv, Derived, Ranking, Members;
    Step.CorrelateKeepsInv(s, d, [], newId, trust);
    var ms := Step.CorrelatedIs(s, d, [], newId, trust);
    var sits := Placed(s, d, [], newId).sits;
    assert Step.Elements(Absorbed(s, [])) == {};
    assert MarkMerged(sits, {}, newId) == sits && Supersede(s.decs, s.sits, {}) == s.decs;
    assert MoveHome(s.home + [newId], {}, newId) == s.home + [newId];
    Step.DerivedKeeps(sits[newId], ms, trust);
  }

  /** A situation of one undecided flow, seen from another flow. */
  lemma LoneSituation(s: Store, id: SitId, i: nat, d: Detection)
    requires Inv(s) && id in s.sits && s.sits[id].status == OPEN && s.sits[id].alert == None
    requires MemberIds(s.home, id) == {i} && i < |s.dets| && s.dets[i].detectedAt == d.detectedAt
    ensures Candidate(s, d, id) && !Frozen(s, id) && s.sits[id].first == d.detectedAt
    ensures forall q :: Carries(s.sits[id].graph, q) <==> q in GraphKeys(s.dets[i])
  {
    hide Members, Derived, Chained, Connected, Carries, GraphKeys;
    assert GoodOpen(s, id);
    AgreesGivesBounds(s, id);
    forall q ensures Carries(s.sits[id].graph, q) <==> q in GraphKeys(s.dets[i]) {
      AgreesGivesIndex(s, id, q);
      assert i in MemberIds(s.home, id);
    }
  }

  /** The store after the first flow, and after the second. */
  ghost function AfterFirst(): Store { Correlated(EMPTY, FIRST, [], 0, map[]) }

  ghost function AfterSecond(): Store
    requires Shaped(AfterFirst())
  {
    Correlated(AfterFirst(), SECOND, [], 1, map[])
  }

  lemma FirstOpens()
    ensures Ranking(EMPTY, FIRST, []) && Inv(AfterFirst()) && AfterFirst().sits.Keys == {0}
    ensures var s := AfterFirst();
      && s.dets == [FIRST] && s.home == [0] && s.sits[0].status == OPEN && s.sits[0].alert == None
      && Ranking(s, SECOND, [])
  {
    hide Inv, Correlated, MemberIds, JoinKeys, GraphKeys;
    EmptyIsGood();
    assert Ranking(EMPTY, FIRST, []);
    OpensAlone(EMPTY, FIRST, 0, map[]);
    var s := AfterFirst();
    assert s.dets == [FIRST] && s.home == [0];
    OneMember(s.home, 0, 0);
    LoneSituation(s, 0, 0, SECOND);
    FlowJoins("b", "");
    FlowGraph("a", "");
    CarriedOfOne(s.sits[0].graph, Key(IP, "b"));
  }

  lemma SecondOpens()
    ensures Shaped(AfterFirst()) && Inv(AfterSecond()) && AfterSecond().sits.Keys == {0, 1}
    ensures var t := AfterSecond();
      && t.dets == [FIRST, SECOND] && t.home == [0, 1]
      && forall id :: id in {0, 1} ==> t.sits[id].status == OPEN && t.sits[id].alert == None
  {
    FirstOpens();
    hide Inv, Correlated, Ranking;
    assert Shaped(AfterFirst()) by { ShapedByInv(AfterFirst()); }
    OpensAlone(AfterFirst(), SECOND, 1, map[]);
  }

  lemma ShapedByInv(s: Store)
    requires Inv(s)
    ensures Shaped(s)
  {
  }

  /** A run after which two open matches tie, so that the database's order decides the winner. */
  lemma TieIsReachable()
    ensures CanRun(EMPTY, TIE)
    ensures Ranking(Run(EMPTY, TIE), BRIDGE, [0, 1]) && Ranking(Run(EMPTY, TIE), BRIDGE, [1, 0])
  {
    hide Inv, Correlated, Ranking, CanRun, Run, Enabled, Apply, Flow;
    FirstOpens();
    SecondOpens();
    var s, t := AfterFirst(), AfterSecond();
    BridgeTies(t);
    IngestStep(EMPTY, FIRST, 0);
    IngestStep(s, SECOND, 1);
    RunOfPair(EMPTY, TIE[0], TIE[1]);
  }

  lemma IngestStep(s: Store, d: Detection, newId: SitId)
    requires Shaped(s) && Ranking(s, d, []) && newId !in s.sits
    ensures var e := Ingest(d, [], newId, map[]);
      Enabled(s, e) && Apply(s, e) == Correlated(s, d, [], newId, map[])
  {
    hide Correlated, Ranking;
  }

  lemma RunOfPair(s: Store, a: SituationRuns.Event, b: SituationRuns.Event)
    requires Enabled(s, a) && Enabled(Apply(s, a), b)
    ensures CanRun(s, [a, b]) && Run(s, [a, b]) == Apply(Apply(s, a), b)
  {
    hide Enabled, Apply;
    var t := Apply(s, a);
    assert [a, b][1..] == [b] && [b][1..] == [];
    assert CanRun(t, [b]) && Run(t, [b]) == Apply(t, b);
  }

  lemma BridgeTies(t: Store)
    requires Inv(t) && t.sits.Keys == {0, 1} && t.dets == [FIRST, SECOND] && t.home == [0, 1]
    requires forall id :: id in {0, 1} ==> t.sits[id].status == OPEN && t.sits[id].alert == None
    ensures Ranking(t, BRIDGE, [0, 1]) && Ranking(t, BRIDGE, [1, 0])
  {
    hide Inv, JoinKeys, GraphKeys, Carries, MemberIds, Candidate, Frozen;
    OneMember(t.home, 0, 0);
    OneMember(t.home, 1, 1);
    LoneSituation(t, 0, 0, BRIDGE);
    LoneSituation(t, 1, 1, BRIDGE);
    FlowJoins("a", "b");
    FlowGraph("a", "");
    FlowGraph("b", "");
    BridgeMatches(t);
  }

  lemma OneMember(home: seq<SitId>, id: SitId, i: nat)
    requires i < |home| && forall k :: 0 <= k < |home| ==> (home[k] == id <==> k == i)
    ensures MemberIds(home, id) == {i}
  {
  }

  lemma BridgeMatches(t: Store)
    requires t.sits.Keys == {0, 1} && JoinKeys(BRIDGE.entities) == [Key(IP, "a"), Key(IP, "b")]
    requires forall id :: id in {0, 1} ==> Candidate(t, BRIDGE, id) && !Frozen(t, id) && t.sits[id].first == 0
    requires forall q :: Carries(t.sits[0].graph, q) <==> q == Key(IP, "a")
    requires forall q :: Carries(t.sits[1].graph, q) <==> q == Key(IP, "b")
    ensures Ranking(t, BRIDGE, [0, 1]) && Ranking(t, BRIDGE, [1, 0])
  {
    hide JoinKeys, Carries, Candidate, Frozen;
    CarriedOfPair(t.sits[0].graph, Key(IP, "a"), Key(IP, "b"));
    CarriedOfPair(t.sits[1].graph, Key(IP, "a"), Key(IP, "b"));
    assert |Shared(t.sits[0], BRIDGE)| == |Shared(t.sits[1], BRIDGE)| == 1;
    hide Shared;
    forall id | Scored(t, BRIDGE, id) ensures id in {0, 1} { InStore(t, id); }
  }

  lemma CarriedOfOne(g: Graph, k: Key)
    ensures CarriedOf(g, [k]) == if Carries(g, k) then [k] else []
  {
    hide Carries;
    assert [k][1..] == [];
  }

  lemma CarriedOfPair(g: Graph, k: Key, m: Key)
    ensures CarriedOf(g, [k, m]) == (if Carries(g, k) then [k] else []) + if Carries(g, m) then [m] else []
  {
    hide Carries;
    assert [k, m][1..] == [m];
    CarriedOfOne(g, m);
  }

  lemma InStore(t: Store, id: SitId)
    requires Scored(t, BRIDGE, id)
    ensures id in t.sits
  {
  }
}
