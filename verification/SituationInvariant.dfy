/**
 The invariant of the correlation store, and that one `correlate` keeps it: placement, caps, derived
 aggregates, the bound on time gaps, entity connectivity and the `merged_into` forest.
 */
module SituationInvariant {
  import opened Common
  import opened Detections
  import opened Situations
  import opened SituationFacts
  import Risk

  // --- chains in time -----------------------------------------------------------

  predicate At(dets: seq<Detection>, m: set<nat>, t: int) {
    exists i :: i in m && i < |dets| && dets[i].detectedAt == t
  }

  /** A member is seen within one window after the instant `p`. */
  predicate Near(dets: seq<Detection>, m: set<nat>, p: int) {
    exists i :: i in m && i < |dets| && p < dets[i].detectedAt <= p + WINDOW
  }

  ghost predicate Bounds(dets: seq<Detection>, m: set<nat>, lo: int, hi: int) {
    && (forall i :: i in m ==> i < |dets| && lo <= dets[i].detectedAt <= hi)
    && At(dets, m, lo) && At(dets, m, hi)
  }

  /** From any instant before the end, the next member is at most one window away. */
  ghost predicate Chained(dets: seq<Detection>, m: set<nat>, lo: int, hi: int) {
    forall p :: lo <= p < hi ==> Near(dets, m, p)
  }

  // --- links in entities -----------------------------------------------------------

  /** A joinable key of one is what the store indexed for the other. */
  ghost predicate Linked(a: Detection, b: Detection) {
    exists k: Key :: k.ns in JOINABLE
      && ((k in KeySet(a.entities) && k in GraphKeys(b)) || (k in KeySet(b.entities) && k in GraphKeys(a)))
  }

  ghost predicate IsPath(dets: seq<Detection>, m: set<nat>, a: nat, b: nat, p: seq<nat>) {
    && |p| > 0 && p[0] == a && p[|p| - 1] == b
    && (forall k :: 0 <= k < |p| ==> p[k] in m && p[k] < |dets|)
    && (forall k :: 0 <= k < |p| - 1 ==> Linked(dets[p[k]], dets[p[k + 1]]))
  }

  ghost predicate Joined(dets: seq<Detection>, m: set<nat>, a: nat, b: nat) {
    exists p :: IsPath(dets, m, a, b, p)
  }

  ghost predicate Connected(dets: seq<Detection>, m: set<nat>) {
    forall a, b :: a in m && b in m ==> Joined(dets, m, a, b)
  }

  // --- the forest --------------------------------------------------------------------

  /** Following `merged_into` from `id` reaches the OPEN situation `root` after `n` hops. */
  predicate Resolves(sits: map<SitId, SitRow>, id: SitId, root: SitId, n: nat)
    decreases n
  {
    && id in sits
    && match sits[id].status
       case OPEN => id == root && n == 0
       case MERGED => n > 0 && sits[id].mergedInto.Some? && Resolves(sits, sits[id].mergedInto.value, root, n - 1)
  }

  ghost predicate Rooted(sits: map<SitId, SitRow>, id: SitId) {
    exists root, n :: Resolves(sits, id, root, n)
  }

  lemma {:induction false} ResolvesOnce(sits: map<SitId, SitRow>, id: SitId, r: SitId, n: nat, r': SitId, n': nat)
    requires Resolves(sits, id, r, n) && Resolves(sits, id, r', n')
    ensures r == r' && n == n'
    ensures r in sits && sits[r].status == OPEN
    decreases n
  {
    if n > 0 {
      ResolvesOnce(sits, sits[id].mergedInto.value, r, n - 1, r', n' - 1);
    }
  }

  // --- the invariant -----------------------------------------------------------------

  /** The stored aggregates are what the members derive, under some trust weights. */
  ghost predicate Agrees(row: SitRow, ms: seq<Detection>) {
    ms != [] && exists trust :: row == Derived(row, ms, trust)
  }

  ghost predicate GoodOpen(s: Store, id: SitId)
    requires Shaped(s) && id in s.sits
  {
    var row, m := s.sits[id], MemberIds(s.home, id);
    && row.mergedInto == None
    && Agrees(row, Members(s.dets, s.home, id))
    && row.count <= MAX_MEMBERS
    && Chained(s.dets, m, row.first, row.last)
    && Connected(s.dets, m)
  }

  ghost predicate Inv(s: Store) {
    && Shaped(s)
    && (forall i :: 0 <= i < |s.home| ==> s.home[i] in s.sits && s.sits[s.home[i]].status == OPEN)
    && (forall id :: id in s.sits && s.sits[id].status == OPEN ==> GoodOpen(s, id))
    && (forall id :: id in s.sits ==> Rooted(s.sits, id))
  }

  lemma EmptyIsGood()
    ensures Inv(EMPTY)
  {
  }

  /** The stored bounds are attained by members and enclose them all. */
  lemma AgreesGivesBounds(s: Store, id: SitId)
    requires Shaped(s) && id in s.sits && Agrees(s.sits[id], Members(s.dets, s.home, id))
    ensures Bounds(s.dets, MemberIds(s.home, id), s.sits[id].first, s.sits[id].last)
    ensures s.sits[id].count == |MemberIds(s.home, id)| > 0
  {
    var ms, m := Members(s.dets, s.home, id), MemberIds(s.home, id);
    MembersAre(s.dets, s.home, id);
    MinAtIsLeast(ms);
    MaxAtIsGreatest(ms);
    var lo :| lo in ms && lo.detectedAt == MinAt(ms);
    var hi :| hi in ms && hi.detectedAt == MaxAt(ms);
    var i :| i in m && s.dets[i] == lo;
    var j :| j in m && s.dets[j] == hi;
  }

  /** Matching the stored entity graph is the same as matching some member. */
  lemma AgreesGivesIndex(s: Store, id: SitId, q: Key)
    requires Shaped(s) && id in s.sits && Agrees(s.sits[id], Members(s.dets, s.home, id))
    ensures Carries(s.sits[id].graph, q) <==> exists i :: i in MemberIds(s.home, id) && q in GraphKeys(s.dets[i])
  {
    var ms, m := Members(s.dets, s.home, id), MemberIds(s.home, id);
    MembersAre(s.dets, s.home, id);
    GraphAgrees(ms, q);
    var has := Contributes(q);
    if Carries(s.sits[id].graph, q) {
      var k :| 0 <= k < |ms| && has(ms[k]);
      assert ms[k] in ms;
      var i :| i in m && s.dets[i] == ms[k];
      assert q in GraphKeys(s.dets[i]);
    }
    if i :| i in m && q in GraphKeys(s.dets[i]) {
      assert s.dets[i] in ms;
      var k :| 0 <= k < |ms| && ms[k] == s.dets[i];
      assert has(ms[k]);
    }
  }
}
