/**
 Situations: the tables correlation works on and what one `correlate` does to them
 (`orchestrator/situation.py`). A row of the detections table is a position; `home[i]` is the
 `situation_id` column of row `i`.
 */
module Situations {
  import opened Common
  import opened Detections
  import Risk

  /** `CORRELATION_WINDOW_MINUTES` in the clock's unit, and `SITUATION_MAX_MEMBERS`: any admitted setting. */
  type Window = w: int | 1 <= w witness 30
  type MemberCap = n: int | 2 <= n witness 25
  const WINDOW: Window
  const MAX_MEMBERS: MemberCap

  type SitId = nat
  type AlertId = nat
  type Graph = map<Namespace, seq<string>>

  datatype Status = OPEN | MERGED
  datatype Approval = PENDING | APPROVED | EXECUTING | DONE | FAILED | REJECTED | SIMULATED | SUPERSEDED
  datatype Decision = Decision(status: Approval, human: bool)

  datatype SitRow = SitRow(status: Status, mergedInto: Option<SitId>, alert: Option<AlertId>,
                           first: int, last: int, count: nat, sources: set<string>, graph: Graph,
                           severity: string, score: int)

  datatype Store = Store(dets: seq<Detection>, home: seq<SitId>, sits: map<SitId, SitRow>,
                         decs: map<AlertId, Decision>)

  const EMPTY := Store([], [], map[], map[])

  // --- The entity graph -------------------------------------------------------

  function Bucket(g: Graph, ns: Namespace): seq<string> { if ns in g then g[ns] else [] }

  /** Some stored value of the namespace folds to the key. */
  predicate Carries(g: Graph, k: Key) {
    exists x :: x in Bucket(g, k.ns) && Lower(x) == k.value
  }

  function AddValue(g: Graph, v: Key): Graph {
    g[v.ns := if Carries(g, Folded(v)) then Bucket(g, v.ns) else Bucket(g, v.ns) + [v.value]]
  }

  function AddValues(g: Graph, vs: seq<Key>): Graph {
    if vs == [] then g else AddValue(AddValues(g, vs[..|vs| - 1]), vs[|vs| - 1])
  }

  function BuildGraph(ms: seq<Detection>): Graph {
    if ms == [] then map[]
    else AddValues(BuildGraph(ms[..|ms| - 1]), NamespacedValues(Cleaned(ms[|ms| - 1].entities)))
  }

  /** The keys a stored detection contributes: its entities are cleaned again on the way in. */
  function GraphKeys(d: Detection): set<Key> { KeySet(Cleaned(d.entities)) }

  // --- Members ----------------------------------------------------------------

  function MemberIds(home: seq<SitId>, id: SitId): set<nat> {
    set i | 0 <= i < |home| && home[i] == id
  }

  /** Insert after every entry that is not later. */
  function InsertByTime(dets: seq<Detection>, o: seq<nat>, i: nat): (r: seq<nat>)
    requires i < |dets| && forall k :: 0 <= k < |o| ==> o[k] < |dets|
    ensures |r| == |o| + 1 && forall x :: x in r <==> x == i || x in o
  {
    if o == [] || dets[o[|o| - 1]].detectedAt <= dets[i].detectedAt then o + [i]
    else
      assert o == o[..|o| - 1] + [o[|o| - 1]];
      InsertByTime(dets, o[..|o| - 1], i) + [o[|o| - 1]]
  }

  /** The members in the order `_members` reads them: by time, then by row. */
  function Ordered(dets: seq<Detection>, home: seq<SitId>, id: SitId): (r: seq<nat>)
    requires |home| <= |dets|
    ensures |r| == |MemberIds(home, id)|
    ensures forall i :: i in r <==> i in MemberIds(home, id)
  {
    if home == [] then []
    else
      var n := |home| - 1;
      var o := Ordered(dets, home[..n], id);
      assert forall k :: 0 <= k < |o| ==> o[k] in o;
      assert MemberIds(home, id) == MemberIds(home[..n], id) + (if home[n] == id then {n} else {});
      if home[n] == id then InsertByTime(dets, o, n) else o
  }

  function Members(dets: seq<Detection>, home: seq<SitId>, id: SitId): (r: seq<Detection>)
    requires |home| <= |dets|
  {
    var o := Ordered(dets, home, id);
    seq(|o|, k requires 0 <= k < |o| => assert o[k] in o; dets[o[k]])
  }

  function MinAt(ms: seq<Detection>): int
    requires ms != []
  {
    if |ms| == 1 then ms[0].detectedAt else Min(MinAt(ms[..|ms| - 1]), ms[|ms| - 1].detectedAt)
  }

  function MaxAt(ms: seq<Detection>): int
    requires ms != []
  {
    if |ms| == 1 then ms[0].detectedAt else Max(MaxAt(ms[..|ms| - 1]), ms[|ms| - 1].detectedAt)
  }

  // --- recompute ----------------------------------------------------------------

  /** Every aggregate re-derived from the members. */
  ghost function Derived(row: SitRow, ms: seq<Detection>, trust: Risk.Trust): SitRow
    requires ms != []
  {
    var score := Risk.Score(ms, trust);
    row.(first := MinAt(ms), last := MaxAt(ms), count := |ms|, sources := Risk.Sources(ms),
         graph := BuildGraph(ms), score := score, severity := Risk.SeverityFromScore(score))
  }

  ghost predicate Shaped(s: Store) { |s.home| == |s.dets| }

  ghost function Recomputed(s: Store, id: SitId, trust: Risk.Trust): Store
    requires Shaped(s)
  {
    if id !in s.sits then s
    else
      var ms := Members(s.dets, s.home, id);
      if ms == [] then s else s.(sits := s.sits[id := Derived(s.sits[id], ms, trust)])
  }

  // --- candidates ------------------------------------------------------------------

  predicate Candidate(s: Store, d: Detection, id: SitId) {
    && id in s.sits
    && s.sits[id].status == OPEN
    && s.sits[id].count < MAX_MEMBERS
    && s.sits[id].last >= d.detectedAt - WINDOW
    && s.sits[id].first <= d.detectedAt + WINDOW
  }

  function CarriedOf(g: Graph, ks: seq<Key>): seq<Key> {
    if ks == [] then []
    else if Carries(g, ks[0]) then [ks[0]] + CarriedOf(g, ks[1..])
    else CarriedOf(g, ks[1..])
  }

  function Shared(row: SitRow, d: Detection): seq<Key> { CarriedOf(row.graph, JoinKeys(d.entities)) }

  /** A settled or human-sourced decision stands behind the situation. */
  predicate Frozen(s: Store, id: SitId)
    requires id in s.sits
  {
    var a := s.sits[id].alert;
    a.Some? && a.value in s.decs && (s.decs[a.value].status != PENDING || s.decs[a.value].human)
  }

  predicate Matches(s: Store, d: Detection, id: SitId) {
    Candidate(s, d, id) && Shared(s.sits[id], d) != []
  }

  predicate Scored(s: Store, d: Detection, id: SitId) { Matches(s, d, id) && !Frozen(s, id) }

  /** At least as good: more shared keys, or as many and not younger. */
  predicate NoWorse(s: Store, d: Detection, a: SitId, b: SitId)
    requires a in s.sits && b in s.sits
  {
    var x, y := |Shared(s.sits[a], d)|, |Shared(s.sits[b], d)|;
    x > y || (x == y && s.sits[a].first <= s.sits[b].first)
  }

  predicate Distinct<T(==)>(q: seq<T>) { forall i, j :: 0 <= i < j < |q| ==> q[i] != q[j] }

  /** A best-first listing of the open matches; ties are left to the database. */
  ghost predicate Ranking(s: Store, d: Detection, r: seq<SitId>) {
    && Distinct(r)
    && (forall i :: 0 <= i < |r| ==> Scored(s, d, r[i]))
    && (forall id :: Scored(s, d, id) ==> id in r)
    && (forall i, j :: 0 <= i < j < |r| ==> NoWorse(s, d, r[i], r[j]))
  }

  /** Absorb in rank order whatever still fits the budget. */
  function Fitting(s: Store, ids: seq<SitId>, budget: int): seq<SitId>
    requires forall id :: id in ids ==> id in s.sits
  {
    if ids == [] then []
    else if s.sits[ids[0]].count <= budget then [ids[0]] + Fitting(s, ids[1..], budget - s.sits[ids[0]].count)
    else Fitting(s, ids[1..], budget)
  }

  // --- merge_situations ---------------------------------------------------------------

  function Mergeable(s: Store, w: SitId, targets: seq<SitId>): set<SitId> {
    set t | t in targets && t != w && t in s.sits && s.sits[t].status == OPEN
  }

  function MoveHome(home: seq<SitId>, gone: set<SitId>, w: SitId): seq<SitId> {
    seq(|home|, i requires 0 <= i < |home| => if home[i] in gone then w else home[i])
  }

  function MarkMerged(sits: map<SitId, SitRow>, gone: set<SitId>, w: SitId): map<SitId, SitRow> {
    map id | id in sits :: if id in gone then sits[id].(status := MERGED, mergedInto := Some(w)) else sits[id]
  }

  predicate AlertOf(sits: map<SitId, SitRow>, gone: set<SitId>, a: AlertId) {
    exists t :: t in gone && t in sits && sits[t].alert == Some(a)
  }

  function Supersede(decs: map<AlertId, Decision>, sits: map<SitId, SitRow>, gone: set<SitId>): map<AlertId, Decision> {
    map a | a in decs ::
      if decs[a].status == PENDING && AlertOf(sits, gone, a) then decs[a].(status := SUPERSEDED) else decs[a]
  }

  function MergedInto(s: Store, w: SitId, gone: set<SitId>): Store {
    Store(s.dets, MoveHome(s.home, gone, w), MarkMerged(s.sits, gone, w), Supersede(s.decs, s.sits, gone))
  }

  // --- correlate ------------------------------------------------------------------------

  function NewRow(d: Detection): SitRow {
    SitRow(OPEN, None, None, d.detectedAt, d.detectedAt, 0, {}, map[], "MEDIUM", 0)
  }

  function Winner(r: seq<SitId>, newId: SitId): SitId { if r == [] then newId else r[0] }

  function Absorbed(s: Store, r: seq<SitId>): seq<SitId>
    requires forall id :: id in r ==> id in s.sits
  {
    if r == [] then [] else Fitting(s, r[1..], MAX_MEMBERS - s.sits[r[0]].count - 1)
  }

  /** The detection row inserted and pointed at the winner, whose row is created if need be. */
  function Placed(s: Store, d: Detection, r: seq<SitId>, newId: SitId): Store
    requires forall id :: id in r ==> id in s.sits
  {
    var w := Winner(r, newId);
    Store(s.dets + [d], s.home + [w], if r == [] then s.sits[newId := NewRow(d)] else s.sits, s.decs)
  }

  ghost function Correlated(s: Store, d: Detection, r: seq<SitId>, newId: SitId, trust: Risk.Trust): Store
    requires Shaped(s) && forall id :: id in r ==> id in s.sits
  {
    var w := Winner(r, newId);
    var p := Placed(s, d, r, newId);
    Recomputed(MergedInto(p, w, Mergeable(p, w, Absorbed(s, r))), w, trust)
  }
}
