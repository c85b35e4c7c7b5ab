/** What the derived aggregates say about the members: the stored index agrees with them. */
module SituationFacts {
  import opened Common
  import opened Detections
  import opened Situations
  import Risk

  // --- graph --------------------------------------------------------------------

  lemma CarriesAddValue(g: Graph, v: Key, q: Key)
    ensures Carries(AddValue(g, v), q) <==> Carries(g, q) || q == Folded(v)
  {
    var g' := AddValue(g, v);
    if q.ns == v.ns {
      if Carries(g, Folded(v)) {
        assert Bucket(g', q.ns) == Bucket(g, q.ns);
      } else {
        assert Bucket(g', q.ns) == Bucket(g, q.ns) + [v.value];
        assert forall x :: x in Bucket(g', q.ns) <==> x in Bucket(g, q.ns) || x == v.value;
      }
    } else {
      assert Bucket(g', q.ns) == Bucket(g, q.ns);
    }
  }

  lemma {:induction false} CarriesAddValues(g: Graph, vs: seq<Key>, q: Key)
    ensures Carries(AddValues(g, vs), q) <==> Carries(g, q) || exists v :: v in vs && Folded(v) == q
  {
    if vs != [] {
      var front, v := vs[..|vs| - 1], vs[|vs| - 1];
      assert vs == front + [v];
      CarriesAddValues(g, front, q);
      CarriesAddValue(AddValues(g, front), v, q);
    }
  }

  lemma GraphStep(g: Graph, e: Entities, q: Key)
    ensures Carries(AddValues(g, NamespacedValues(e)), q) <==> Carries(g, q) || q in KeySet(e)
  {
    CarriesAddValues(g, NamespacedValues(e), q);
    ValuesGiveKeys(e, q);
  }

  predicate Any<T>(xs: seq<T>, p: T -> bool) { exists i :: 0 <= i < |xs| && p(xs[i]) }

  function Contributes(q: Key): Detection -> bool { (d: Detection) => q in GraphKeys(d) }

  lemma SomeStep<T>(xs: seq<T>, p: T -> bool)
    requires xs != []
    ensures Any(xs, p) <==> Any(xs[..|xs| - 1], p) || p(xs[|xs| - 1])
  {
    var front := xs[..|xs| - 1];
    if i :| 0 <= i < |xs| - 1 && p(xs[i]) {
      assert front[i] == xs[i];
    }
  }

  /** The graph matches a key exactly when some member contributes that key. */
  lemma {:induction false} GraphAgrees(ms: seq<Detection>, q: Key)
    ensures Carries(BuildGraph(ms), q) <==> Any(ms, Contributes(q))
  {
    if ms != [] {
      var n := |ms| - 1;
      GraphAgrees(ms[..n], q);
      GraphStep(BuildGraph(ms[..n]), Cleaned(ms[n].entities), q);
      SomeStep(ms, Contributes(q));
    }
  }

  lemma ValuesGiveKeys(e: Entities, q: Key)
    ensures (exists v :: v in NamespacedValues(e) && Folded(v) == q) <==> q in KeySet(e)
  {
    KeysAreTheKeySet(e);
    var vs := NamespacedValues(e);
    assert (exists v :: v in vs && Folded(v) == q) <==> q in (set x | x in vs :: Folded(x));
  }

  /** No bucket lists the same value twice up to case. */
  lemma {:induction false} BucketsAreDistinct(g: Graph, vs: seq<Key>, ns: Namespace)
    requires DistinctUpToCase(Bucket(g, ns))
    ensures DistinctUpToCase(Bucket(AddValues(g, vs), ns))
  {
    if vs != [] {
      BucketsAreDistinct(g, vs[..|vs| - 1], ns);
      var h, v := AddValues(g, vs[..|vs| - 1]), vs[|vs| - 1];
      if ns == v.ns && !Carries(h, Folded(v)) {
        assert forall i :: 0 <= i < |Bucket(h, ns)| ==> Bucket(h, ns)[i] in Bucket(h, ns);
      }
    }
  }

  predicate DistinctUpToCase(b: seq<string>) {
    forall i, j :: 0 <= i < j < |b| ==> Lower(b[i]) != Lower(b[j])
  }

  lemma {:induction false} GraphHasNoDuplicates(ms: seq<Detection>, ns: Namespace)
    ensures DistinctUpToCase(Bucket(BuildGraph(ms), ns))
  {
    if ms != [] {
      GraphHasNoDuplicates(ms[..|ms| - 1], ns);
      BucketsAreDistinct(BuildGraph(ms[..|ms| - 1]), NamespacedValues(Cleaned(ms[|ms| - 1].entities)), ns);
    }
  }

  lemma {:induction false} CarriedIn(g: Graph, ks: seq<Key>, k: Key)
    ensures k in CarriedOf(g, ks) <==> k in ks && Carries(g, k)
  {
    if ks != [] {
      CarriedIn(g, ks[1..], k);
      assert ks == [ks[0]] + ks[1..];
    }
  }

  // --- time bounds ---------------------------------------------------------------

  lemma {:induction false} MinAtIsLeast(ms: seq<Detection>)
    requires ms != []
    ensures forall m :: m in ms ==> MinAt(ms) <= m.detectedAt
    ensures exists m :: m in ms && m.detectedAt == MinAt(ms)
  {
    assert ms[0] in ms;
    if |ms| > 1 {
      var front, m := ms[..|ms| - 1], ms[|ms| - 1];
      assert ms == front + [m];
      MinAtIsLeast(front);
      var x :| x in front && x.detectedAt == MinAt(front);
      assert x in ms && m in ms;
    }
  }

  lemma {:induction false} MaxAtIsGreatest(ms: seq<Detection>)
    requires ms != []
    ensures forall m :: m in ms ==> m.detectedAt <= MaxAt(ms)
    ensures exists m :: m in ms && m.detectedAt == MaxAt(ms)
  {
    assert ms[0] in ms;
    if |ms| > 1 {
      var front, m := ms[..|ms| - 1], ms[|ms| - 1];
      assert ms == front + [m];
      MaxAtIsGreatest(front);
      var x :| x in front && x.detectedAt == MaxAt(front);
      assert x in ms && m in ms;
    }
  }

  // --- members ---------------------------------------------------------------------

  lemma MembersAre(dets: seq<Detection>, home: seq<SitId>, id: SitId)
    requires |home| <= |dets|
    ensures |Members(dets, home, id)| == |MemberIds(home, id)|
    ensures forall i :: i in MemberIds(home, id) ==> dets[i] in Members(dets, home, id)
    ensures forall m :: m in Members(dets, home, id) ==> exists i :: i in MemberIds(home, id) && dets[i] == m
  {
    var o, ms := Ordered(dets, home, id), Members(dets, home, id);
    forall i | i in MemberIds(home, id) ensures dets[i] in ms {
      assert i in o;
      var k :| 0 <= k < |o| && o[k] == i;
      assert ms[k] == dets[i];
    }
    forall m | m in ms ensures exists i :: i in MemberIds(home, id) && dets[i] == m {
      var k :| 0 <= k < |ms| && ms[k] == m;
      assert o[k] in o && dets[o[k]] == m;
    }
  }

  predicate SortedByTime(ms: seq<Detection>) {
    forall i, j :: 0 <= i < j < |ms| ==> ms[i].detectedAt <= ms[j].detectedAt
  }

  ghost predicate SortedRows(dets: seq<Detection>, o: seq<nat>) {
    && (forall k :: 0 <= k < |o| ==> o[k] < |dets|)
    && forall i, j :: 0 <= i < j < |o| ==> dets[o[i]].detectedAt <= dets[o[j]].detectedAt
  }

  ghost predicate UpTo(dets: seq<Detection>, o: seq<nat>, t: int) {
    forall k :: 0 <= k < |o| ==> o[k] < |dets| && dets[o[k]].detectedAt <= t
  }

  lemma {:induction false} InsertStaysUpTo(dets: seq<Detection>, o: seq<nat>, i: nat, t: int)
    requires i < |dets| && UpTo(dets, o, t) && dets[i].detectedAt <= t
    ensures UpTo(dets, InsertByTime(dets, o, i), t)
  {
    if o != [] && dets[i].detectedAt < dets[o[|o| - 1]].detectedAt { InsertStaysUpTo(dets, o[..|o| - 1], i, t); }
  }

  lemma {:induction false} InsertKeepsOrder(dets: seq<Detection>, o: seq<nat>, i: nat)
    requires i < |dets| && SortedRows(dets, o)
    ensures SortedRows(dets, InsertByTime(dets, o, i))
  {
    if o != [] && dets[i].detectedAt < dets[o[|o| - 1]].detectedAt {
      var front, l := o[..|o| - 1], o[|o| - 1];
      assert SortedRows(dets, front);
      InsertKeepsOrder(dets, front, i);
      assert UpTo(dets, front, dets[l].detectedAt);
      InsertStaysUpTo(dets, front, i, dets[l].detectedAt);
      var r := InsertByTime(dets, front, i);
      assert InsertByTime(dets, o, i) == r + [l];
      hide InsertByTime;
      SortedSnoc(dets, r, l);
    } else {
      assert InsertByTime(dets, o, i) == o + [i];
      hide InsertByTime;
      assert UpTo(dets, o, dets[i].detectedAt) by { LastIsLatest(dets, o); }
      SortedSnoc(dets, o, i);
    }
  }

  lemma LastIsLatest(dets: seq<Detection>, o: seq<nat>)
    requires SortedRows(dets, o)
    ensures o != [] ==> UpTo(dets, o, dets[o[|o| - 1]].detectedAt)
  {
  }

  lemma SortedSnoc(dets: seq<Detection>, o: seq<nat>, l: nat)
    requires l < |dets| && SortedRows(dets, o) && UpTo(dets, o, dets[l].detectedAt)
    ensures SortedRows(dets, o + [l])
  {
  }

  lemma {:induction false} OrderedIsSorted(dets: seq<Detection>, home: seq<SitId>, id: SitId)
    requires |home| <= |dets|
    ensures SortedRows(dets, Ordered(dets, home, id))
  {
    if home != [] {
      var n := |home| - 1;
      OrderedIsSorted(dets, home[..n], id);
      if home[n] == id {
        InsertKeepsOrder(dets, Ordered(dets, home[..n], id), n);
      }
    }
  }

  /** `_members` returns the members oldest first. */
  lemma MembersAreSorted(dets: seq<Detection>, home: seq<SitId>, id: SitId)
    requires |home| <= |dets|
    ensures SortedByTime(Members(dets, home, id))
  {
    OrderedIsSorted(dets, home, id);
  }

  /** Rows that neither enter nor leave a situation do not disturb its member list. */
  lemma {:induction false} OrderedFrame(dets: seq<Detection>, more: seq<Detection>,
                                        home: seq<SitId>, home': seq<SitId>, id: SitId)
    requires dets <= more && |home| == |home'| <= |dets|
    requires forall i :: 0 <= i < |home| ==> (home[i] == id <==> home'[i] == id)
    ensures Ordered(dets, home, id) == Ordered(more, home', id)
  {
    if home != [] {
      var n := |home| - 1;
      OrderedFrame(dets, more, home[..n], home'[..n], id);
      if home[n] == id {
        var o := Ordered(dets, home[..n], id);
        assert forall k :: 0 <= k < |o| ==> o[k] in o;
        InsertFrame(dets, more, o, n);
      }
    }
  }

  lemma {:induction false} InsertFrame(dets: seq<Detection>, more: seq<Detection>, o: seq<nat>, i: nat)
    requires dets <= more && i < |dets| && forall k :: 0 <= k < |o| ==> o[k] < |dets|
    ensures InsertByTime(dets, o, i) == InsertByTime(more, o, i)
  {
    if o != [] {
      assert o[|o| - 1] < |dets|;
      InsertFrame(dets, more, o[..|o| - 1], i);
    }
  }

  lemma MembersFrame(dets: seq<Detection>, more: seq<Detection>, home: seq<SitId>, home': seq<SitId>, id: SitId)
    requires dets <= more && |home| <= |dets| && |home'| <= |more| && |home| <= |home'|
    requires forall i :: 0 <= i < |home| ==> (home[i] == id <==> home'[i] == id)
    requires forall i :: |home| <= i < |home'| ==> home'[i] != id
    ensures Members(dets, home, id) == Members(more, home', id)
    ensures MemberIds(home, id) == MemberIds(home', id)
  {
    OrderedFrame(dets, more, home, home'[..|home|], id);
    OrderedTail(more, home', |home|, id);
    var o := Ordered(dets, home, id);
    assert o == Ordered(more, home', id);
    assert forall k :: 0 <= k < |o| ==> o[k] in o;
    assert Members(dets, home, id) == Members(more, home', id);
  }

  lemma {:induction false} OrderedTail(dets: seq<Detection>, home: seq<SitId>, n: nat, id: SitId)
    requires n <= |home| <= |dets|
    requires forall i :: n <= i < |home| ==> home[i] != id
    ensures Ordered(dets, home, id) == Ordered(dets, home[..n], id)
    decreases |home|
  {
    if n < |home| {
      var k := |home| - 1;
      OrderedTail(dets, home[..k], n, id);
      assert home[..k][..n] == home[..n];
    } else {
      assert home[..n] == home;
    }
  }
}
