/** What holds of correlation over whole runs, with decisions and alerts changing freely in between. */
module SituationRuns {
  import opened Common
  import opened Detections
  import opened Situations
  import opened SituationFacts
  import opened SituationInvariant
  import opened SituationStep
  import Risk

  /**
   A detection arriving, the decision table being rewritten by anyone in any way, or an analysis
   attaching an alert to a situation of any status. Trust weights are whatever they are at the time.
   */
  datatype Event =
    | Ingest(d: Detection, ranking: seq<SitId>, newId: SitId, trust: Risk.Trust)
    | Decide(decs: map<AlertId, Decision>)
    | Attach(sit: SitId, alert: AlertId)

  ghost predicate Enabled(s: Store, e: Event) {
    && Shaped(s)
    && match e
       case Ingest(d, r, newId, _) => Ranking(s, d, r) && newId !in s.sits
       case Decide(_) => true
       case Attach(id, _) => id in s.sits
  }

  ghost function Apply(s: Store, e: Event): Store
    requires Enabled(s, e)
  {
    match e
    case Ingest(d, r, newId, trust) => RankedAreStored(s, d, r); Correlated(s, d, r, newId, trust)
    case Decide(decs) => s.(decs := decs)
    case Attach(id, alert) => s.(sits := s.sits[id := s.sits[id].(alert := Some(alert))])
  }

  lemma RankedAreStored(s: Store, d: Detection, r: seq<SitId>)
    requires Ranking(s, d, r)
    ensures forall id :: id in r ==> id in s.sits
  {
    assert forall i :: 0 <= i < |r| ==> Scored(s, d, r[i]);
  }

  ghost predicate CanRun(s: Store, es: seq<Event>)
    decreases |es|
  {
    es == [] || (Enabled(s, es[0]) && CanRun(Apply(s, es[0]), es[1..]))
  }

  ghost function Run(s: Store, es: seq<Event>): Store
    requires CanRun(s, es)
    decreases |es|
  {
    if es == [] then s else Run(Apply(s, es[0]), es[1..])
  }

  // --- preservation ---------------------------------------------------------------------

  lemma {:induction false} ResolvesSame(sits: map<SitId, SitRow>, sits': map<SitId, SitRow>, id: SitId, root: SitId, n: nat)
    requires sits'.Keys == sits.Keys
    requires forall x :: x in sits ==> sits'[x].status == sits[x].status && sits'[x].mergedInto == sits[x].mergedInto
    requires Resolves(sits, id, root, n)
    ensures Resolves(sits', id, root, n)
    decreases n
  {
    if n > 0 { ResolvesSame(sits, sits', sits[id].mergedInto.value, root, n - 1); }
  }

  lemma AttachKeepsInv(s: Store, id: SitId, alert: AlertId)
    requires Inv(s) && id in s.sits
    ensures Inv(Apply(s, Attach(id, alert)))
  {
    hide Linked, Chained, Connected, Derived, Resolves, Members;
    var s' := Apply(s, Attach(id, alert));
    forall x | x in s'.sits && s'.sits[x].status == OPEN ensures GoodOpen(s', x) {
      assert GoodOpen(s, x);
      GoodOpenFrame(s, s', x);
    }
    forall x | x in s'.sits ensures Rooted(s'.sits, x) {
      assert Rooted(s.sits, x);
      var root, n :| Resolves(s.sits, x, root, n);
      ResolvesSame(s.sits, s'.sits, x, root, n);
    }
  }

  lemma DecideKeepsInv(s: Store, decs: map<AlertId, Decision>)
    requires Inv(s)
    ensures Inv(s.(decs := decs))
  {
    hide Linked, Chained, Connected, Derived, Resolves, Members;
    var s' := s.(decs := decs);
    forall x | x in s'.sits && s'.sits[x].status == OPEN ensures GoodOpen(s', x) {
      assert GoodOpen(s, x);
      GoodOpenFrame(s, s', x);
    }
  }

  lemma EventKeepsInv(s: Store, e: Event)
    requires Inv(s) && Enabled(s, e)
    ensures Inv(Apply(s, e))
  {
    hide Inv;
    match e
    case Ingest(d, r, newId, trust) => CorrelateKeepsInv(s, d, r, newId, trust);
    case Decide(decs) => DecideKeepsInv(s, decs);
    case Attach(id, alert) => AttachKeepsInv(s, id, alert);
  }

  /** The invariant holds in every store any run can reach. */
  lemma {:induction false} EveryRunKeepsInv(s: Store, es: seq<Event>)
    requires Inv(s) && CanRun(s, es)
    ensures Inv(Run(s, es))
    decreases |es|
  {
    hide Inv, Enabled, Apply;
    if es != [] {
      EventKeepsInv(s, es[0]);
      EveryRunKeepsInv(Apply(s, es[0]), es[1..]);
    }
  }

  // --- how far a situation stretches in time ------------------------------------------------

  lemma NextIsNoLater(ms: seq<Detection>, i: nat, d: Detection)
    requires SortedByTime(ms) && i + 1 < |ms| && d in ms && ms[i].detectedAt < d.detectedAt
    ensures ms[i + 1].detectedAt <= d.detectedAt
  {
    var j :| 0 <= j < |ms| && ms[j] == d;
    assert j > i;
  }

  /** Consecutive members, in the order they are read, are at most one window apart. */
  lemma GapsAreBounded(s: Store, id: SitId)
    requires Inv(s) && id in s.sits && s.sits[id].status == OPEN
    ensures var ms := Members(s.dets, s.home, id);
            SortedByTime(ms) && forall i :: 0 <= i < |ms| - 1 ==> ms[i + 1].detectedAt - ms[i].detectedAt <= WINDOW
  {
    hide Linked, Connected, Rooted, Derived, Members;
    var ms, m, row := Members(s.dets, s.home, id), MemberIds(s.home, id), s.sits[id];
    assert GoodOpen(s, id);
    MembersAreSorted(s.dets, s.home, id);
    MembersAre(s.dets, s.home, id);
    AgreesGivesBounds(s, id);
    forall i | 0 <= i < |ms| - 1 ensures ms[i + 1].detectedAt - ms[i].detectedAt <= WINDOW {
      var p := ms[i].detectedAt;
      if p < ms[i + 1].detectedAt {
        assert ms[i] in ms && ms[i + 1] in ms;
        assert Near(s.dets, m, p);
        var x :| x in m && x < |s.dets| && p < s.dets[x].detectedAt <= p + WINDOW;
        assert s.dets[x] in ms;
        NextIsNoLater(ms, i, s.dets[x]);
      }
    }
  }

  lemma {:induction false} GapsAddUp(ms: seq<Detection>)
    requires ms != []
    requires forall i :: 0 <= i < |ms| - 1 ==> ms[i + 1].detectedAt - ms[i].detectedAt <= WINDOW
    ensures ms[|ms| - 1].detectedAt - ms[0].detectedAt <= WINDOW * (|ms| - 1)
  {
    if |ms| > 1 { GapsAddUp(ms[..|ms| - 1]); }
  }

  /** In every reachable store no situation spans more than a window for each further member. */
  lemma SpanIsBounded(es: seq<Event>, id: SitId)
    requires CanRun(EMPTY, es) && id in Run(EMPTY, es).sits && Run(EMPTY, es).sits[id].status == OPEN
    ensures var row := Run(EMPTY, es).sits[id];
            0 <= row.last - row.first <= WINDOW * (row.count - 1) <= WINDOW * (MAX_MEMBERS - 1)
  {
    hide *;
    EmptyIsGood();
    EveryRunKeepsInv(EMPTY, es);
    SpanOfOpen(Run(EMPTY, es), id);
  }

  lemma SpanOfOpen(s: Store, id: SitId)
    requires Inv(s) && id in s.sits && s.sits[id].status == OPEN
    ensures var row := s.sits[id];
            0 <= row.last - row.first <= WINDOW * (row.count - 1) <= WINDOW * (MAX_MEMBERS - 1)
  {
    hide Linked, Connected, Rooted, Derived, Members, Chained, Near;
    var ms, row := Members(s.dets, s.home, id), s.sits[id];
    assert GoodOpen(s, id);
    GapsAreBounded(s, id);
    AgreesGivesBounds(s, id);
    MembersAre(s.dets, s.home, id);
    EndsOfSorted(s, id);
    assert ms[0].detectedAt <= ms[|ms| - 1].detectedAt;
    hide Inv, GoodOpen, Agrees, SortedByTime, MemberIds;
    GapsAddUp(ms);
    Times(row.count - 1, MAX_MEMBERS - 1);
  }

  lemma Times(x: int, y: int)
    requires x <= y
    ensures WINDOW * x <= WINDOW * y
  {
  }

  lemma EndsOfSorted(s: Store, id: SitId)
    requires Shaped(s) && id in s.sits && Agrees(s.sits[id], Members(s.dets, s.home, id))
    ensures var ms, row := Members(s.dets, s.home, id), s.sits[id];
            ms != [] && ms[0].detectedAt == row.first && ms[|ms| - 1].detectedAt == row.last
  {
    hide Members;
    var ms := Members(s.dets, s.home, id);
    MembersAreSorted(s.dets, s.home, id);
    MinAtIsLeast(ms);
    MaxAtIsGreatest(ms);
    assert ms[0] in ms && ms[|ms| - 1] in ms;
  }

  // --- conservation through merges --------------------------------------------------------------

  /** Every detection of `s` is still there in `t`, in the situation its old one resolves to. */
  ghost predicate Carried(s: Store, t: Store) {
    && Shaped(s) && Shaped(t) && s.dets <= t.dets
    && forall i :: 0 <= i < |s.home| ==> exists n :: Resolves(t.sits, s.home[i], t.home[i], n)
  }

  lemma EventMoves(s: Store, e: Event, id: SitId, root: SitId, n: nat)
    requires Inv(s) && Enabled(s, e) && Resolves(s.sits, id, root, n)
    ensures var t := Apply(s, e);
            Shaped(t) && s.dets <= t.dets
            && (exists root', n' :: Resolves(t.sits, id, root', n')
                  && forall i :: 0 <= i < |s.home| && s.home[i] == root ==> t.home[i] == root')
  {
    hide Linked, GoodOpen, Derived, Members, Ranking, Resolves, Correlated, Rooted;
    var t := Apply(s, e);
    match e
    case Ingest(d, r, newId, trust) =>
      var t', w, gone, ms := StepShape(s, d, r, newId, trust);
      StepRedirects(s, d, r, newId, trust);
      ResolvesAfter(s.sits, t.sits, gone, w, id, root, n);
      forall i | 0 <= i < |s.home| && s.home[i] == root ensures t.home[i] == NewRoot(root, gone, w) {
        assert (s.home + [w])[i] == s.home[i];
      }
    case Decide(_) => ResolvesSame(s.sits, t.sits, id, root, n);
    case Attach(_, _) => ResolvesSame(s.sits, t.sits, id, root, n);
  }

  /**
   Nothing is lost: whatever situation a detection was ever in, following `merged_into` from it in any
   later store ends at exactly the OPEN situation that holds the detection now.
   */
  lemma {:induction false} DetectionsFollowTheForest(s: Store, es: seq<Event>, i: nat, id: SitId, n: nat)
    requires Inv(s) && CanRun(s, es) && i < |s.home| && Resolves(s.sits, id, s.home[i], n)
    ensures var t := Run(s, es);
            Shaped(t) && s.dets <= t.dets
            && (exists n' :: Resolves(t.sits, id, t.home[i], n'))
            && t.home[i] in t.sits && t.sits[t.home[i]].status == OPEN
    decreases |es|
  {
    hide Enabled, Apply, GoodOpen, Rooted, Resolves;
    var t := Run(s, es);
    if es == [] {
      assert Resolves(t.sits, id, t.home[i], n);
    } else {
      EventMoves(s, es[0], id, s.home[i], n);
      EventKeepsInv(s, es[0]);
      var m := Apply(s, es[0]);
      var root', n' :| Resolves(m.sits, id, root', n')
        && forall j :: 0 <= j < |s.home| && s.home[j] == s.home[i] ==> m.home[j] == root';
      DetectionsFollowTheForest(m, es[1..], i, id, n');
    }
  }

  /** `merged_into` is a forest: every id leads, in one way only, to one OPEN situation. */
  lemma ForestHasOneRoot(es: seq<Event>, id: SitId)
    requires CanRun(EMPTY, es) && id in Run(EMPTY, es).sits
    ensures var sits := Run(EMPTY, es).sits;
            exists root, n :: Resolves(sits, id, root, n) && root in sits && sits[root].status == OPEN
              && forall root', n' :: Resolves(sits, id, root', n') ==> root' == root && n' == n
  {
    hide GoodOpen, CanRun, Run, Resolves;
    EmptyIsGood();
    EveryRunKeepsInv(EMPTY, es);
    var sits := Run(EMPTY, es).sits;
    assert Rooted(sits, id);
    var root, n :| Resolves(sits, id, root, n);
    ResolvesOnce(sits, id, root, n, root, n);
    forall root', n' | Resolves(sits, id, root', n') ensures root' == root && n' == n {
      ResolvesOnce(sits, id, root, n, root', n');
    }
  }

  /** OPEN situations partition the detections; MERGED ones are empty; caps and aggregates hold. */
  lemma OpenSituationsPartition(es: seq<Event>)
    requires CanRun(EMPTY, es)
    ensures var t := Run(EMPTY, es);
      && Shaped(t)
      && (forall i :: 0 <= i < |t.home| ==> t.home[i] in t.sits && t.sits[t.home[i]].status == OPEN)
      && (forall id :: id in t.sits && t.sits[id].status == MERGED ==> MemberIds(t.home, id) == {})
      && (forall id :: id in t.sits && t.sits[id].status == OPEN ==>
            && t.sits[id].count == |MemberIds(t.home, id)|
            && 1 <= t.sits[id].count <= MAX_MEMBERS
            && Agrees(t.sits[id], Members(t.dets, t.home, id)))
  {
    hide CanRun, Run, Linked, Chained, Connected, Rooted, Members, Derived;
    EmptyIsGood();
    EveryRunKeepsInv(EMPTY, es);
    var t := Run(EMPTY, es);
    forall id | id in t.sits && t.sits[id].status == OPEN
      ensures t.sits[id].count == |MemberIds(t.home, id)| && 1 <= t.sits[id].count <= MAX_MEMBERS
              && Agrees(t.sits[id], Members(t.dets, t.home, id))
    {
      assert GoodOpen(t, id);
      AgreesGivesBounds(t, id);
    }
  }

  // --- connectivity ----------------------------------------------------------------------------

  /** For entities whose values survive cleaning, a link is a shared joinable key and nothing else. */
  lemma StableLinkIsSharedKey(a: Detection, b: Detection)
    requires Stable(a.entities) && Stable(b.entities)
    ensures Linked(a, b) <==> exists k: Key :: k.ns in JOINABLE && k in KeySet(a.entities) && k in KeySet(b.entities)
  {
    hide KeySet;
  }

  /** Any two members of a situation are tied by a chain of members, each linked to the next. */
  lemma MembersAreConnected(es: seq<Event>, a: nat, b: nat)
    requires CanRun(EMPTY, es)
    requires var t := Run(EMPTY, es); Shaped(t) && a < |t.home| && b < |t.home| && t.home[a] == t.home[b]
    ensures var t := Run(EMPTY, es); Joined(t.dets, MemberIds(t.home, t.home[a]), a, b)
  {
    hide CanRun, Run, Linked, Chained, Rooted, Members, Derived, Agrees, Joined;
    EmptyIsGood();
    EveryRunKeepsInv(EMPTY, es);
    var t := Run(EMPTY, es);
    assert GoodOpen(t, t.home[a]);
    assert a in MemberIds(t.home, t.home[a]) && b in MemberIds(t.home, t.home[a]);
  }

  /**
   Cleaning twice can separate what should match: a value the contract cleaned once matches the graph its
   own detection builds exactly when the cut at 255 characters did not land after a blank. `k` is any field.
   */
  lemma OwnGraphMatches(raw: Entities, d: Detection, k: nat)
    requires d.entities == Cleaned(raw) && k < 9 && d.entities.Fields()[k].value != ""
    ensures Carries(BuildGraph([d]), Folded(d.entities.Fields()[k])) <==> CutIsClean(raw.Fields()[k].value)
  {
    var once, twice := d.entities, Cleaned(d.entities);
    var f := once.Fields()[k];
    hide CleanEntity, CutIsClean, Strip, Lower, Tight, KeySet, BuildGraph, Carries;
    GraphAgrees([d], Folded(f));
    assert Any([d], Contributes(Folded(f))) <==> Contributes(Folded(f))([d][0]);
    assert Carries(BuildGraph([d]), Folded(f)) <==> Folded(f) in KeySet(twice);
    hide Any, Contributes, Folded, GraphKeys, Cleaned;
    FieldsAreCleaned(raw, k);
    FieldsAreCleaned(once, k);
    CleaningTwice(raw.Fields()[k].value);
    if CutIsClean(raw.Fields()[k].value) {
      InKeySet(twice, k);
    } else if Folded(f) in KeySet(twice) {
      var j := FromKeySet(twice, Folded(f));
      var g, v := twice.Fields()[j], raw.Fields()[j].value;
      FoldedValue(g, f);
      FieldsAreCleaned(once, j);
      FieldsAreCleaned(raw, j);
      CutLeavesABlank(raw.Fields()[k].value);
      SecondCleaningIsTight(v);
      LowerKeepsEnds(g.value);
      LowerKeepsEnds(f.value);
    }
  }

  lemma FoldedValue(x: Key, y: Key)
    requires Folded(x) == Folded(y)
    ensures Lower(x.value) == Lower(y.value)
  {
  }

  lemma InKeySet(e: Entities, k: nat)
    requires k < 9 && e.Fields()[k].value != ""
    ensures Folded(e.Fields()[k]) in KeySet(e)
  {
    assert e.Fields()[k] in e.Fields();
  }

  lemma FromKeySet(e: Entities, q: Key) returns (j: nat)
    requires q in KeySet(e)
    ensures j < 9 && Folded(e.Fields()[j]) == q
  {
    var f :| f in e.Fields() && Folded(f) == q;
    j :| 0 <= j < 9 && e.Fields()[j] == f;
  }

  lemma FieldsAreCleaned(e: Entities, k: nat)
    requires k < 9
    ensures Cleaned(e).Fields()[k] == Key(e.Fields()[k].ns, CleanEntity(e.Fields()[k].value))
  {
  }

  lemma SecondCleaningIsTight(v: string)
    ensures Tight(CleanEntity(CleanEntity(v)))
  {
    var once := CleanEntity(v);
    StripTight(once);
    StripShrinks(once);
  }

  lemma CutLeavesABlank(v: string)
    requires !CutIsClean(v) && CleanEntity(v) != ""
    ensures !Tight(CleanEntity(v))
  {
  }

  lemma LowerKeepsEnds(s: string)
    ensures Tight(Lower(s)) <==> Tight(s)
  {
  }

  /** 254 letters, a blank and a letter: the cut lands right after the blank. */
  function Overlong(): string { seq(254, _ => 'a') + " b" }

  /** Two detections about that one user do not match, though their user values are equal. */
  lemma OverlongUserIsMissed(d: Detection)
    requires d.entities == Cleaned(Entities(Overlong(), "", "", "", "", "", "", "", ""))
    ensures d.entities.user != "" && Key(USER, Lower(d.entities.user)) in JoinKeys(d.entities)
    ensures !Carries(BuildGraph([d]), Key(USER, Lower(d.entities.user)))
  {
    var raw, v := Entities(Overlong(), "", "", "", "", "", "", "", ""), Overlong();
    assert v[0] == 'a' && v[255] == 'b' && v[254] == ' ' && |v| == 256;
    StripOfTight(v);
    if Lower(v) in PLACEHOLDERS { PlaceholdersAreShort(Lower(v)); }
    assert CleanEntity(v) == v[..255] && v[..255][254] == v[254];
    assert d.entities.Fields()[0] == Key(USER, CleanEntity(v)) && raw.Fields()[0].value == v;
    assert !CutIsClean(v);
    OwnGraphMatches(raw, d, 0);
    assert d.entities.Fields()[0] in d.entities.Fields();
    JoinKeysAre(d.entities, Key(USER, Lower(d.entities.user)));
  }

  // --- what correlation may not touch --------------------------------------------------------------

  /** A settled or human-sourced situation keeps its row, its members and its decision. */
  lemma FrozenIsUntouched(s: Store, d: Detection, r: seq<SitId>, newId: SitId, trust: Risk.Trust, id: SitId)
    requires Inv(s) && Ranking(s, d, r) && newId !in s.sits
    requires id in s.sits && Frozen(s, id)
    ensures forall x :: x in r ==> x in s.sits
    ensures var t := Correlated(s, d, r, newId, trust); var a := s.sits[id].alert.value;
            && Shaped(t) && id in t.sits && t.sits[id] == s.sits[id]
            && MemberIds(t.home, id) == MemberIds(s.home, id)
            && a in t.decs && t.decs[a] == s.decs[a]
  {
    hide Linked, GoodOpen, Rooted, Ranking, Shared, Correlated, Members, Derived, Resolves;
    AbsorbedFacts(s, d, r, newId);
    var t, w, gone, ms := StepShape(s, d, r, newId, trust);
    WinnerIsScoredOrNew(s, d, r, newId);
    BystanderIsUntouched(s, d, r, newId, trust, id);
    var a := s.sits[id].alert.value;
    assert !AlertOf(s.sits, gone, a);
  }

  lemma WinnerIsScoredOrNew(s: Store, d: Detection, r: seq<SitId>, newId: SitId)
    requires Inv(s) && Ranking(s, d, r) && newId !in s.sits
    ensures forall x :: x in r ==> x in s.sits
    ensures var w := Winner(r, newId); w == newId || Scored(s, d, w)
    ensures forall g :: g in Absorbed(s, r) ==> Scored(s, d, g)
  {
    hide Linked, GoodOpen, Rooted, Shared, Frozen, Inv;
    AbsorbedFacts(s, d, r, newId);
    forall g | g in Absorbed(s, r) ensures Scored(s, d, g) {
      assert g in Group(s, r);
    }
  }

  /**
   Decisions change in one way only: a PENDING machine proposal of a situation absorbed in this step
   becomes SUPERSEDED. No situation absorbed in the step is left with a PENDING decision.
   */
  lemma OnlyMachineProposalsAreSuperseded(s: Store, d: Detection, r: seq<SitId>, newId: SitId, trust: Risk.Trust)
    requires Inv(s) && Ranking(s, d, r) && newId !in s.sits
    ensures forall x :: x in r ==> x in s.sits
    ensures var t := Correlated(s, d, r, newId, trust);
      && t.decs.Keys == s.decs.Keys
      && (forall a :: a in s.decs && t.decs[a] != s.decs[a] ==>
            && s.decs[a] == Decision(PENDING, false) && t.decs[a] == Decision(SUPERSEDED, false)
            && exists g :: g in Absorbed(s, r) && g in s.sits && s.sits[g].alert == Some(a))
      && (forall g :: g in Absorbed(s, r) ==>
            && g in t.sits && t.sits[g].status == MERGED && t.sits[g].mergedInto == Some(Winner(r, newId))
            && (t.sits[g].alert.Some? && t.sits[g].alert.value in t.decs ==>
                  t.decs[t.sits[g].alert.value].status != PENDING))
  {
    hide Linked, GoodOpen, Rooted, Ranking, Shared, Correlated, Members, Derived, Resolves, Absorbed;
    var t, w, gone, ms := StepShape(s, d, r, newId, trust);
    WinnerIsScoredOrNew(s, d, r, newId);
    forall a | a in s.decs && t.decs[a] != s.decs[a]
      ensures s.decs[a] == Decision(PENDING, false) && t.decs[a] == Decision(SUPERSEDED, false)
      ensures exists g :: g in Absorbed(s, r) && g in s.sits && s.sits[g].alert == Some(a)
    {
      assert AlertOf(s.sits, gone, a);
      var g :| g in gone && g in s.sits && s.sits[g].alert == Some(a);
      assert g in Absorbed(s, r) && Scored(s, d, g);
    }
    forall g | g in Absorbed(s, r)
      ensures g in t.sits && t.sits[g].status == MERGED && t.sits[g].mergedInto == Some(w)
      ensures t.sits[g].alert.Some? && t.sits[g].alert.value in t.decs ==> t.decs[t.sits[g].alert.value].status != PENDING
    {
      assert g in gone && Scored(s, d, g);
      if s.sits[g].alert.Some? && s.sits[g].alert.value in s.decs {
        assert AlertOf(s.sits, gone, s.sits[g].alert.value);
      }
    }
  }
}
