/** Runs of decisions after which the gate does not do what its documentation says. */
module PrecedentCases {
  import opened Common
  import opened Precedent
  import opened PrecedentRuns

  // --- composing runs ---------------------------------------------------------------

  lemma {:induction false} RunOfTwo(c: Corpus, a: seq<Event>, b: seq<Event>)
    requires CanRun(c, a) && CanRun(Run(c, a), b)
    ensures CanRun(c, a + b) && Run(c, a + b) == Run(Run(c, a), b)
    decreases |a|
  {
    hide Apply, Enabled;
    if a == [] {
      assert a + b == b;
    } else {
      assert (a + b)[0] == a[0] && (a + b)[1..] == a[1..] + b;
      RunOfTwo(Apply(c, a[0]), a[1..], b);
    }
  }

  lemma RunOfOne(c: Corpus, e: Event)
    requires Enabled(c, e)
    ensures CanRun(c, [e]) && Run(c, [e]) == Apply(c, e)
  {
    hide Apply, Enabled;
    var one := [e];
    assert one[0] == e && one[1..] == [];
    assert Run(Apply(c, e), []) == Apply(c, e);
  }

  lemma OneMore(c: Corpus, a: seq<Event>, e: Event)
    requires CanRun(c, a) && Enabled(Run(c, a), e)
    ensures CanRun(c, a + [e]) && Run(c, a + [e]) == Apply(Run(c, a), e)
  {
    hide Apply, Enabled, CanRun, Run;
    RunOfOne(Run(c, a), e);
    RunOfTwo(c, a, [e]);
  }

  // --- the same story again and again -------------------------------------------------

  /** Any person's name. */
  const ANALYST := AUTOPILOT_APPROVER + "'s keeper"

  function Twin(): Features { Features({"T1"}, {"s"}, {("k", "v")}, {"k"}, {"t"}, "HIGH") }

  /**
   An analyst turns the proposal down; or first saves an edit that leaves the verdict alone; or changes the
   verdict and approves it.
   */
  datatype Story = TurnedDown | EditedAndTurnedDown | CorrectedAndApproved

  function Proposed(v: Verdict): Row { Row(false, 0, Twin(), v, PENDING, "", "", false, None, None, 0) }

  function Ended(story: Story, v: Verdict): Row {
    match story
    case TurnedDown => Proposed(v).(status := REJECTED, rejectedBy := ANALYST)
    case EditedAndTurnedDown =>
      Proposed(v).(status := REJECTED, rejectedBy := ANALYST, correction := Some(Correction(v, false)))
    case CorrectedAndApproved =>
      Proposed(v).(status := APPROVED, approvedBy := ANALYST, correction := Some(Correction(v, true)))
  }

  function Acted(story: Story, i: RowId, v: Verdict): seq<Event> {
    match story
    case TurnedDown => [Reject(i, ANALYST)]
    case EditedAndTurnedDown => [Edit(i, v), Reject(i, ANALYST)]
    case CorrectedAndApproved => [Edit(i, v), Approve(i, ANALYST)]
  }

  /** What the machine proposes at first. */
  function FirstVerdict(story: Story, v: Verdict): Verdict {
    if story.CorrectedAndApproved? then v + " at first" else v
  }

  function Stories(story: Story, n: nat, v: Verdict): seq<Event> {
    if n == 0 then []
    else (Stories(story, n - 1, v) + [Propose(FirstVerdict(story, v), Twin(), 0)]) + Acted(story, n - 1, v)
  }

  predicate OnlyDeclined(acts: seq<Act>) { forall k :: 0 <= k < |acts| ==> acts[k].Decline? }

  lemma ActsEndIt(c: Corpus, story: Story, v: Verdict)
    requires |c.rows| > 0 && c.rows[|c.rows| - 1] == Proposed(FirstVerdict(story, v))
    ensures var i := |c.rows| - 1; var es := Acted(story, i, v);
      && CanRun(c, es) && Run(c, es).rows == c.rows[i := Ended(story, v)] && Run(c, es).clock == c.clock
      && (story.TurnedDown? && OnlyDeclined(c.acts) ==> OnlyDeclined(Run(c, es).acts))
  {
    var i := |c.rows| - 1;
    var es := Acted(story, i, v);
    RunOfOne(c, es[0]);
    if !story.TurnedDown? {
      var m := Apply(c, es[0]);
      assert FirstVerdict(story, v) == v <==> !story.CorrectedAndApproved?;
      OneMore(c, [es[0]], es[1]);
      assert es == [es[0]] + [es[1]];
    }
  }

  lemma {:induction false} StoriesRun(story: Story, n: nat, v: Verdict)
    ensures CanRun(NO_DECISIONS, Stories(story, n, v))
    ensures var c := Run(NO_DECISIONS, Stories(story, n, v));
      && c.rows == seq(n, _ => Ended(story, v)) && c.clock == 0 && Inv(c)
      && (story.TurnedDown? ==> OnlyDeclined(c.acts))
  {
    hide Inv;
    if n > 0 {
      StoriesRun(story, n - 1, v);
      var before, p := Stories(story, n - 1, v), Propose(FirstVerdict(story, v), Twin(), 0);
      var c := Run(NO_DECISIONS, before);
      var d := Apply(c, p);
      assert d.rows == c.rows + [Proposed(FirstVerdict(story, v))] && d.acts == c.acts;
      hide Apply, Ended, Proposed, Acted, FirstVerdict;
      OneMore(NO_DECISIONS, before, p);
      ActsEndIt(d, story, v);
      RunOfTwo(NO_DECISIONS, before + [p], Acted(story, n - 1, v));
      assert d.rows[n - 1 := Ended(story, v)] == seq(n, _ => Ended(story, v));
    }
    NothingIsTold();
    RunKeepsInv(NO_DECISIONS, Stories(story, n, v));
  }

  lemma NothingIsTold()
    ensures Inv(NO_DECISIONS)
  {
  }

  // --- retrieving them ------------------------------------------------------------------

  lemma {:induction false} AllSelected(rows: seq<Row>, ids: seq<RowId>, keep: Row -> bool)
    requires forall k :: 0 <= k < |ids| ==> ids[k] < |rows|
    ensures (forall k :: 0 <= k < |ids| ==> keep(rows[ids[k]])) ==> Select(rows, ids, keep) == ids
    ensures (forall k :: 0 <= k < |ids| ==> !keep(rows[ids[k]])) ==> Select(rows, ids, keep) == []
  {
    if ids != [] {
      assert ids == ids[..|ids| - 1] + [ids[|ids| - 1]];
      AllSelected(rows, ids[..|ids| - 1], keep);
    }
  }

  function FirstRows(n: nat): seq<RowId> { seq(n, i requires 0 <= i => i) }

  /** Another situation just like them retrieves them all. */
  lemma StoriesAreTop(rows: seq<Row>, n: nat, story: Story, v: Verdict)
    requires 0 < n <= CANDIDATE_POOL && n <= TAKE && SIMILARITY_FLOOR <= 100
    requires rows == seq(n, _ => Ended(story, v)) + [Proposed(v)]
    ensures IsPool(rows, n, FirstRows(n))
    ensures IsTop(rows, Twin(), 0, SIMILARITY_FLOOR, TAKE, "", FirstRows(n), FirstRows(n))
  {
    hide Similarity;
    SimilarityIsAPercentage(Twin(), Twin());
    var pool := FirstRows(n);
    assert Ended(story, v).features == Twin() && Ended(story, v).lastSeen == 0 && Settled(Ended(story, v).status);
    hide Ended;
    assert forall i :: 0 <= i < n ==> pool[i] == i && rows[i] == Ended(story, v);
    assert Distinct(pool);
    forall i: RowId | Eligible(rows, n, i) ensures i in pool {
      assert i < n;
      assert pool[i] == i;
    }
  }

  /** `n` cases of the story, and one more proposal of the verdict. */
  function AndAnother(story: Story, n: nat, v: Verdict): seq<Event> {
    Stories(story, n, v) + [Propose(v, Twin(), 0)]
  }

  lemma AnotherRuns(story: Story, n: nat, v: Verdict)
    ensures CanRun(NO_DECISIONS, AndAnother(story, n, v))
    ensures var d := Run(NO_DECISIONS, AndAnother(story, n, v));
      && d.rows == seq(n, _ => Ended(story, v)) + [Proposed(v)] && d.clock == 0 && Inv(d)
      && (story.TurnedDown? ==> OnlyDeclined(d.acts))
  {
    hide Inv, Ended;
    var p := Propose(v, Twin(), 0);
    StoriesRun(story, n, v);
    OneMore(NO_DECISIONS, Stories(story, n, v), p);
    EventKeepsInv(Run(NO_DECISIONS, Stories(story, n, v)), p);
  }

  // --- rejections ------------------------------------------------------------------------

  /** On no case does anyone stand behind any verdict. */
  ghost predicate NobodyStands(c: Corpus) { forall i: RowId, v: Verdict :: !Stands(c.acts, i, v) }

  lemma RejectedOrNew(c: Corpus)
    requires Inv(c)
    requires forall i :: 0 <= i < |c.rows| ==>
      c.rows[i].status == REJECTED || (c.rows[i].status == PENDING && c.rows[i].correction.None?)
    ensures NobodyStands(c)
  {
    hide LastOn;
    forall i: RowId, v: Verdict ensures !Stands(c.acts, i, v) {
      if i < |c.rows| {
        assert Told(c.acts, i, c.rows[i]);
        LastIsThere(c.acts, i);
      } else {
        NoneLast(c.acts, i);
      }
    }
  }

  lemma {:induction false} LastIsThere(acts: seq<Act>, i: RowId)
    ensures LastOn(acts, i).Some? ==> LastOn(acts, i).value in acts
  {
    if acts != [] { LastIsThere(acts[..|acts| - 1], i); }
  }

  lemma RejectionsAreCounted(rows: seq<Row>, ids: seq<RowId>, story: Story, v: Verdict)
    requires !story.CorrectedAndApproved?
    requires |ids| >= MIN_PRECEDENTS && forall k :: 0 <= k < |ids| ==> ids[k] < |rows| && rows[ids[k]] == Ended(story, v)
    ensures Gate(rows, ids, v, 0).ok
  {
    hide Select;
    assert AgeDays(Ended(story, v), 0) == 0;
    AllSelected(rows, ids, IsFresh(v, 0));
    AllSelected(rows, ids, IsReversal(v));
    AllSelected(rows, ids, IsContrary(v));
  }

  /** After enough rejections, edited first or not, the machine may approve a verdict no one stands behind. */
  lemma RefusalsOpenTheGate(story: Story, v: Verdict)
    requires MIN_PRECEDENTS <= CANDIDATE_POOL && SIMILARITY_FLOOR <= 100 && !story.CorrectedAndApproved?
    ensures var n := MIN_PRECEDENTS; var es := AndAnother(story, n, v);
      && CanRun(NO_DECISIONS, es) && NobodyStands(Run(NO_DECISIONS, es))
      && (story.TurnedDown? ==> OnlyDeclined(Run(NO_DECISIONS, es).acts))
      && Enabled(Run(NO_DECISIONS, es), ApproveOnPrecedent(n, Twin(), FirstRows(n), FirstRows(n)))
      && Run(NO_DECISIONS, es).rows[n].verdict == v
  {
    hide Gate, IsPool, IsTop, CanRun, Run, AndAnother, Inv;
    var n := MIN_PRECEDENTS;
    AnotherRuns(story, n, v);
    var d := Run(NO_DECISIONS, AndAnother(story, n, v));
    assert forall i :: 0 <= i < n ==> d.rows[i] == Ended(story, v);
    StoriesAreTop(d.rows, n, story, v);
    assert forall k :: 0 <= k < n ==> FirstRows(n)[k] == k;
    RejectionsAreCounted(d.rows, FirstRows(n), story, v);
    RejectedOrNew(d);
  }

  // --- corrections --------------------------------------------------------------------------

  /** Enough people corrected their cases to the verdict and approved it, and the gate still refuses it. */
  lemma CorrectionsCloseTheGate(v: Verdict)
    requires MIN_PRECEDENTS <= CANDIDATE_POOL && SIMILARITY_FLOOR <= 100
    ensures var n := MIN_PRECEDENTS; var es := AndAnother(CorrectedAndApproved, n, v);
      && CanRun(NO_DECISIONS, es)
      && var d := Run(NO_DECISIONS, es);
      && |d.rows| == n + 1
      && (forall i :: 0 <= i < n ==> Stands(d.acts, i, v) && HumanConfirmed(d.rows[i]) && FinalVerdict(d.rows[i]) == v)
      && IsPool(d.rows, n, FirstRows(n))
      && IsTop(d.rows, Twin(), 0, SIMILARITY_FLOOR, TAKE, "", FirstRows(n), FirstRows(n))
      && !Gate(d.rows, FirstRows(n), v, 0).ok
  {
    hide Gate, IsPool, IsTop, CanRun, Run, AndAnother, LastOn;
    var n := MIN_PRECEDENTS;
    AnotherRuns(CorrectedAndApproved, n, v);
    var d := Run(NO_DECISIONS, AndAnother(CorrectedAndApproved, n, v));
    assert forall i :: 0 <= i < n ==> d.rows[i] == Ended(CorrectedAndApproved, v);
    StoriesAreTop(d.rows, n, CorrectedAndApproved, v);
    forall i | 0 <= i < n ensures Stands(d.acts, i, v) {
      assert Told(d.acts, i, d.rows[i]);
    }
    assert FirstRows(n)[0] == 0;
    ChangedVerdictBlocks(d.rows, FirstRows(n), v, 0, 0);
  }
}
