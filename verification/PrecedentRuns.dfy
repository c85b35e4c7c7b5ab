/** Decisions over whole runs: what stands behind every approval the machine makes on its own. */
module PrecedentRuns {
  import opened Common
  import opened Precedent

  /** What a person did to a decision, with the verdict it carried when they were done. */
  datatype Act =
    | Endorse(id: RowId, verdict: Verdict)
    | Correct(id: RowId, verdict: Verdict)
    | Decline(id: RowId, verdict: Verdict)

  datatype Corpus = Corpus(rows: seq<Row>, clock: int, acts: seq<Act>)

  const NO_DECISIONS := Corpus([], 0, [])

  datatype Event =
    | Tick(ticks: nat)
    | Propose(verdict: Verdict, features: Features, lastSeen: int)
    | Grow(id: RowId, verdict: Verdict, features: Features, lastSeen: int)
    | Merge(id: RowId)
    | Approve(id: RowId, who: string)
    | Reject(id: RowId, who: string)
    | Edit(id: RowId, verdict: Verdict)
    | ApproveOnPrecedent(id: RowId, query: Features, pool: seq<RowId>, similar: seq<RowId>)
    | ApproveUngated(id: RowId)
    | Progress(id: RowId, status: Approval)
    | Report(id: RowId, outcome: Outcome)

  predicate Follows(was: Approval, status: Approval) {
    || (was == APPROVED && status == EXECUTING)
    || (was == EXECUTING && (status == DONE || status == FAILED || status == SIMULATED))
  }

  ghost predicate Enabled(c: Corpus, e: Event) {
    match e
    case Tick(_) => true
    case Propose(_, _, _) => true
    case Grow(id, _, _, _) => id < |c.rows|
    case Merge(id) => id < |c.rows|
    case Approve(id, _) => id < |c.rows| && c.rows[id].status == PENDING
    case Reject(id, _) => id < |c.rows| && c.rows[id].status == PENDING
    case Edit(id, _) => id < |c.rows| && c.rows[id].status == PENDING
    case ApproveOnPrecedent(id, query, pool, similar) =>
      && id < |c.rows| && c.rows[id].status == PENDING
      && IsPool(c.rows, id, pool)
      && IsTop(c.rows, query, c.clock, SIMILARITY_FLOOR, TAKE, "", pool, similar)
      && Gate(c.rows, similar, c.rows[id].verdict, c.clock).ok
    case ApproveUngated(id) => id < |c.rows| && c.rows[id].status == PENDING
    case Progress(id, status) => id < |c.rows| && Follows(c.rows[id].status, status)
    case Report(id, _) =>
      id < |c.rows| && c.rows[id].status in {DONE, FAILED, REJECTED, SIMULATED}
  }

  /** The row an event leaves where `r` was. */
  function RowAfter(r: Row, e: Event): Row {
    match e
    case Grow(_, verdict, features, lastSeen) =>
      var seen := r.(features := features, lastSeen := lastSeen);
      if r.status == PENDING && r.correction.None? then seen.(verdict := verdict) else seen
    case Merge(_) => r.(merged := true, status := if r.status == PENDING then SUPERSEDED else r.status)
    case Approve(_, who) => r.(status := APPROVED, approvedBy := who, basis := false)
    case Reject(_, who) => r.(status := REJECTED, rejectedBy := who)
    case Edit(_, verdict) => r.(verdict := verdict, correction := Some(Correction(verdict, verdict != r.verdict)))
    case ApproveOnPrecedent(_, _, _, _) => r.(status := APPROVED, approvedBy := AUTOPILOT_APPROVER, basis := true)
    case ApproveUngated(_) => r.(status := APPROVED, approvedBy := AUTOPILOT_APPROVER, basis := false)
    case Progress(_, status) => r.(status := status)
    case Report(_, outcome) => r.(outcome := Some(outcome))
    case _ => r
  }

  function ActOf(c: Corpus, e: Event): seq<Act> {
    match e
    case Approve(id, _) => if id < |c.rows| then [Endorse(id, c.rows[id].verdict)] else []
    case Reject(id, _) => if id < |c.rows| then [Decline(id, c.rows[id].verdict)] else []
    case Edit(id, verdict) => [Correct(id, verdict)]
    case _ => []
  }

  function Apply(c: Corpus, e: Event): Corpus {
    match e
    case Tick(ticks) => c.(clock := c.clock + ticks)
    case Propose(verdict, features, lastSeen) =>
      c.(rows := c.rows + [Row(false, lastSeen, features, verdict, PENDING, "", "", false, None, None, c.clock)])
    case _ =>
      if e.id < |c.rows| then
        c.(rows := c.rows[e.id := RowAfter(c.rows[e.id], e)], acts := c.acts + ActOf(c, e))
      else c
  }

  ghost predicate CanRun(c: Corpus, es: seq<Event>)
    decreases |es|
  {
    es == [] || (Enabled(c, es[0]) && CanRun(Apply(c, es[0]), es[1..]))
  }

  function Run(c: Corpus, es: seq<Event>): Corpus
    decreases |es|
  {
    if es == [] then c else Run(Apply(c, es[0]), es[1..])
  }

  // --- the invariant ---------------------------------------------------------------------

  /** The last thing a person did about row `i`. */
  function LastOn(acts: seq<Act>, i: RowId): Option<Act> {
    if acts == [] then None
    else if acts[|acts| - 1].id == i then Some(acts[|acts| - 1])
    else LastOn(acts[..|acts| - 1], i)
  }

  /** A person stands behind the verdict: approving the row with it, or writing it, was the last they did. */
  predicate Stands(acts: seq<Act>, i: RowId, v: Verdict) {
    LastOn(acts, i) == Some(Endorse(i, v)) || LastOn(acts, i) == Some(Correct(i, v))
  }

  predicate Carried(s: Approval) { s == APPROVED || s == EXECUTING || s == DONE || s == FAILED || s == SIMULATED }

  /** What the acts on row `i` and its fields say about each other. */
  ghost predicate Told(acts: seq<Act>, i: RowId, r: Row) {
    && (r.correction.Some? ==> r.correction.value.verdict == r.verdict && Correct(i, r.verdict) in acts)
    && (r.correction.None? ==> forall v :: Correct(i, v) !in acts)
    && (r.status == REJECTED && Resolved(r) ==> Decline(i, r.verdict) in acts)
    && (Carried(r.status) && Resolved(r) ==> Endorse(i, r.verdict) in acts)
    && (!Carried(r.status) ==> r.approvedBy == "" && !r.basis && forall v :: Endorse(i, v) !in acts)
    && TellsLast(acts, i, r)
  }

  /** What the last act on row `i` was, where the row's status tells. */
  predicate TellsLast(acts: seq<Act>, i: RowId, r: Row) {
    && (r.status == REJECTED <==> LastOn(acts, i).Some? && LastOn(acts, i).value.Decline?)
    && (r.correction.Some? && r.status != REJECTED ==> Stands(acts, i, r.verdict))
    && (Carried(r.status) && Resolved(r) ==> Stands(acts, i, r.verdict))
  }

  ghost predicate Inv(c: Corpus) {
    && (forall i :: 0 <= i < |c.rows| ==> Told(c.acts, i, c.rows[i]) && c.rows[i].decidedAt <= c.clock)
    && (forall k :: 0 <= k < |c.acts| ==> c.acts[k].id < |c.rows|)
  }

  lemma TellsMine(c: Corpus, e: Event)
    requires Enabled(c, e) && !e.Tick? && !e.Propose? && Told(c.acts, e.id, c.rows[e.id])
    ensures Told(c.acts + ActOf(c, e), e.id, RowAfter(c.rows[e.id], e))
  {
    hide IsPool, IsTop, Gate, LastOn;
    var after := c.acts + ActOf(c, e);
    LastAppended(c.acts, ActOf(c, e), e.id);
    assert forall a :: a in after <==> a in c.acts || a in ActOf(c, e);
  }

  lemma LastAppended(acts: seq<Act>, more: seq<Act>, i: RowId)
    requires |more| <= 1
    ensures LastOn(acts + more, i) == if more != [] && more[0].id == i then Some(more[0]) else LastOn(acts, i)
  {
    if more == [] { assert acts + more == acts; } else { assert (acts + more)[..|acts|] == acts; }
  }

  lemma TellsOthers(acts: seq<Act>, more: seq<Act>, i: RowId, r: Row)
    requires Told(acts, i, r) && |more| <= 1 && forall a :: a in more ==> a.id != i
    ensures Told(acts + more, i, r)
  {
    hide LastOn;
    LastAppended(acts, more, i);
    assert forall a :: a in acts + more <==> a in acts || a in more;
  }

  lemma EventKeepsInv(c: Corpus, e: Event)
    requires Inv(c) && Enabled(c, e)
    ensures Inv(Apply(c, e))
  {
    hide Told, Gate, IsPool, IsTop, RowAfter;
    var d := Apply(c, e);
    match e {
      case Tick(_) =>
      case Propose(verdict, features, lastSeen) =>
        NewRowIsTold(c.acts, |c.rows|, d.rows[|c.rows|]);
      case _ =>
        TellsMine(c, e);
        DateIsKept(c.rows[e.id], e);
        forall i | 0 <= i < |c.rows| && i != e.id ensures Told(d.acts, i, d.rows[i]) {
          TellsOthers(c.acts, ActOf(c, e), i, c.rows[i]);
        }
    }
  }

  lemma DateIsKept(r: Row, e: Event)
    ensures RowAfter(r, e).decidedAt == r.decidedAt
  {
  }

  lemma NewRowIsTold(acts: seq<Act>, i: RowId, r: Row)
    requires forall k :: 0 <= k < |acts| ==> acts[k].id < i
    requires r.status == PENDING && r.approvedBy == "" && !r.basis && r.correction.None?
    ensures Told(acts, i, r)
  {
    NoneLast(acts, i);
  }

  lemma {:induction false} NoneLast(acts: seq<Act>, i: RowId)
    requires forall k :: 0 <= k < |acts| ==> acts[k].id < i
    ensures LastOn(acts, i).None?
  {
    if acts != [] { NoneLast(acts[..|acts| - 1], i); }
  }

  lemma {:induction false} RunKeepsInv(c: Corpus, es: seq<Event>)
    requires Inv(c) && CanRun(c, es)
    ensures Inv(Run(c, es))
    decreases |es|
  {
    hide Inv, Apply, Enabled;
    if es != [] {
      EventKeepsInv(c, es[0]);
      RunKeepsInv(Apply(c, es[0]), es[1..]);
    }
  }

  /** Up to step `k` the run is a run, and step `k` is possible there. */
  lemma {:induction false} StepOf(c: Corpus, es: seq<Event>, k: nat)
    requires CanRun(c, es) && k < |es|
    ensures CanRun(c, es[..k]) && Enabled(Run(c, es[..k]), es[k])
    ensures Run(c, es) == Run(Run(c, es[..k]), es[k..])
    decreases |es|
  {
    hide Apply, Enabled;
    if k == 0 {
      assert es[..0] == [] && es[0..] == es;
    } else {
      StepOf(Apply(c, es[0]), es[1..], k - 1);
      assert es[..k][1..] == es[1..][..k - 1] && es[1..][k - 1..] == es[k..];
    }
  }

  // --- machine approvals are backed by people ----------------------------------------------

  /** The cases whose verdict a person approved, wrote or declined. */
  function Judged(acts: seq<Act>, v: Verdict): set<RowId> { set a | a in acts && a.verdict == v :: a.id }

  /** One case the gate may lean on. */
  ghost predicate Backs(c: Corpus, self: RowId, query: Features, i: RowId) {
    && i < |c.rows| && i != self && self < |c.rows|
    && var r, v := c.rows[i], c.rows[self].verdict;
    && !r.merged && Settled(r.status)
    && r.verdict == v && !Reversed(r)
    && c.clock - r.decidedAt < (STALENESS_DAYS + 1) * DAY
    && Similarity(query, r.features) >= SIMILARITY_FLOOR
    && i in Judged(c.acts, v)
    && !ByMachine(r)
  }

  ghost predicate BackedBy(c: Corpus, self: RowId, query: Features, cases: set<RowId>) {
    forall i :: i in cases ==> Backs(c, self, query, i)
  }

  ghost predicate Backed(c: Corpus, self: RowId, query: Features) {
    exists cases: set<RowId> :: |cases| >= MIN_PRECEDENTS && BackedBy(c, self, query, cases)
  }

  lemma ConfirmedIsJudged(acts: seq<Act>, i: RowId, r: Row)
    requires Told(acts, i, r) && Settled(r.status) && HumanConfirmed(r)
    ensures FinalVerdict(r) == r.verdict && i in Judged(acts, r.verdict) && !ByMachine(r)
  {
    if r.correction.Some? {
      assert Correct(i, r.verdict) in acts;
    } else if r.status == REJECTED {
      assert Decline(i, r.verdict) in acts;
    } else {
      assert Endorse(i, r.verdict) in acts;
    }
  }

  lemma YoungEnough(r: Row, now: int)
    requires AgeDays(r, now) <= STALENESS_DAYS
    ensures now - r.decidedAt < (STALENESS_DAYS + 1) * DAY
  {
    var d: int, e := DAY, now - r.decidedAt;
    assert e == e / d * d + e % d;
    assert e / d <= STALENESS_DAYS;
    Times(e / d, STALENESS_DAYS, d);
  }

  lemma Times(a: int, b: int, d: int)
    requires a <= b && d > 0
    ensures a * d <= b * d
  {
  }

  function Ids(q: seq<RowId>): set<RowId> { set x | x in q }

  lemma {:induction false} DistinctCount(q: seq<RowId>)
    requires Distinct(q)
    ensures |Ids(q)| == |q|
  {
    if q != [] {
      var front, l := q[..|q| - 1], q[|q| - 1];
      DistinctCount(front);
      assert q == front + [l];
      assert Ids(q) == Ids(front) + {l};
      assert l !in front;
    }
  }

  /** An approval on precedent rests on enough distinct, recent, similar, unreversed cases a person judged. */
  lemma ApprovalIsBacked(c: Corpus, e: Event)
    requires Inv(c) && e.ApproveOnPrecedent? && Enabled(c, e)
    ensures Backed(c, e.id, e.query)
  {
    hide Told, Similarity, HumanConfirmed, FinalVerdict, Reversed, AgeDays, Select, NoWorse, Judged;
    var v := c.rows[e.id].verdict;
    var gate := Gate(c.rows, e.similar, v, c.clock);
    var recent := Select(c.rows, e.similar, IsFresh(v, c.clock));
    assert gate.recent == recent;
    SelectIs(c.rows, e.similar, IsFresh(v, c.clock));
    DistinctCount(recent);
    var cases := Ids(recent);
    forall i | i in cases ensures Backs(c, e.id, e.query, i) {
      assert i in recent && i in e.similar && i in e.pool;
      ConfirmedIsJudged(c.acts, i, c.rows[i]);
      YoungEnough(c.rows[i], c.clock);
    }
    assert BackedBy(c, e.id, e.query, cases);
  }

  /** Over a whole run, whatever people, the clock and ungated approvals do in between. */
  lemma EveryApprovalIsBacked(es: seq<Event>, k: nat)
    requires CanRun(NO_DECISIONS, es) && k < |es| && es[k].ApproveOnPrecedent?
    ensures Backed(Run(NO_DECISIONS, es[..k]), es[k].id, es[k].query)
  {
    hide Enabled, Apply, Backed;
    StepOf(NO_DECISIONS, es, k);
    RunKeepsInv(NO_DECISIONS, es[..k]);
    ApprovalIsBacked(Run(NO_DECISIONS, es[..k]), es[k]);
  }

  lemma {:induction false} ActsOnlyGrow(c: Corpus, es: seq<Event>)
    ensures forall a :: a in c.acts ==> a in Run(c, es).acts
    decreases |es|
  {
    hide ActOf, RowAfter;
    if es != [] { ActsOnlyGrow(Apply(c, es[0]), es[1..]); }
  }

  lemma Fewer<T>(a: set<T>, b: set<T>)
    requires a <= b
    ensures |a| <= |b|
  {
    assert b == a + (b - a);
  }

  /** Where people judged too few cases of a verdict, the machine never approves it: autonomy cannot start itself. */
  lemma NoBootstrap(es: seq<Event>, k: nat, v: Verdict)
    requires CanRun(NO_DECISIONS, es) && k < |es| && es[k].ApproveOnPrecedent?
    requires |Judged(Run(NO_DECISIONS, es).acts, v)| < MIN_PRECEDENTS
    ensures var c := Run(NO_DECISIONS, es[..k]); es[k].id < |c.rows| && c.rows[es[k].id].verdict != v
  {
    var c := Run(NO_DECISIONS, es[..k]);
    EveryApprovalIsBacked(es, k);
    StepOf(NO_DECISIONS, es, k);
    ActsOnlyGrow(c, es[k..]);
    hide Run, CanRun, Similarity, Reversed, Gate, IsPool, IsTop;
    if c.rows[es[k].id].verdict == v {
      var cases: set<RowId> :| |cases| >= MIN_PRECEDENTS && BackedBy(c, es[k].id, es[k].query, cases);
      Fewer(cases, Judged(c.acts, v));
      Fewer(Judged(c.acts, v), Judged(Run(NO_DECISIONS, es).acts, v));
      assert false;
    }
  }

  // --- what the machine approved never becomes precedent --------------------------------------

  predicate ByMachine(r: Row) { Carried(r.status) && r.approvedBy == AUTOPILOT_APPROVER && r.correction.None? }

  lemma {:induction false} MachineRowsStayOut(c: Corpus, es: seq<Event>, id: RowId)
    requires CanRun(c, es) && id < |c.rows| && ByMachine(c.rows[id])
    ensures id < |Run(c, es).rows| && ByMachine(Run(c, es).rows[id]) && !HumanConfirmed(Run(c, es).rows[id])
    decreases |es|
  {
    if es != [] {
      OneStepOut(c, es[0], id);
      MachineRowsStayOut(Apply(c, es[0]), es[1..], id);
    }
  }

  lemma OneStepOut(c: Corpus, e: Event, id: RowId)
    requires Enabled(c, e) && id < |c.rows| && ByMachine(c.rows[id])
    ensures id < |Apply(c, e).rows| && ByMachine(Apply(c, e).rows[id])
  {
    hide Gate, IsPool, IsTop;
  }

  /** A row the machine approved unedited is no one's precedent at any later time. */
  lemma MachineApprovalIsNeverPrecedent(c: Corpus, e: Event, es: seq<Event>)
    requires (e.ApproveOnPrecedent? || e.ApproveUngated?) && CanRun(c, [e] + es)
    requires c.rows[e.id].correction.None?
    ensures var d := Run(c, [e] + es); e.id < |d.rows| && !HumanConfirmed(d.rows[e.id])
  {
    hide Gate, IsPool, IsTop, HumanConfirmed;
    assert ([e] + es)[0] == e && ([e] + es)[1..] == es;
    MachineRowsStayOut(Apply(c, e), es, e.id);
  }

  // --- whom the gate counts ----------------------------------------------------------------------

  /** The counted cases a person stands behind, and the counted cases that were not rejected. */
  ghost function StoodBy(c: Corpus, ids: seq<RowId>, v: Verdict): set<RowId> { set i | i in ids && Stands(c.acts, i, v) }

  function NotRejected(c: Corpus, ids: seq<RowId>): set<RowId> {
    set i | i in ids && i < |c.rows| && c.rows[i].status != REJECTED
  }

  /** Of the cases the gate counts, those a person stands behind are exactly those not rejected. */
  lemma CountedIsStoodByIff(c: Corpus, similar: seq<RowId>, v: Verdict, i: RowId)
    requires Inv(c) && forall k :: 0 <= k < |similar| ==> similar[k] < |c.rows| && Settled(c.rows[similar[k]].status)
    requires i in Gate(c.rows, similar, v, c.clock).recent
    ensures i < |c.rows| && (Stands(c.acts, i, v) <==> c.rows[i].status != REJECTED)
  {
    hide AgeDays, Select, Reversed, LastOn;
    SelectIs(c.rows, similar, IsFresh(v, c.clock));
    var r := c.rows[i];
    assert Told(c.acts, i, r);
    assert HumanConfirmed(r) && FinalVerdict(r) == v;
  }

  /** So an open gate has enough people behind it exactly when enough of what it counts was not rejected. */
  lemma PromiseIsKeptIff(c: Corpus, similar: seq<RowId>, v: Verdict)
    requires Inv(c) && forall k :: 0 <= k < |similar| ==> similar[k] < |c.rows| && Settled(c.rows[similar[k]].status)
    ensures var counted := Gate(c.rows, similar, v, c.clock).recent;
      && StoodBy(c, counted, v) == NotRejected(c, counted)
      && (|StoodBy(c, counted, v)| >= MIN_PRECEDENTS <==> |NotRejected(c, counted)| >= MIN_PRECEDENTS)
  {
    hide Inv, Gate, Stands;
    var counted := Gate(c.rows, similar, v, c.clock).recent;
    forall i | i in counted ensures i < |c.rows| && (Stands(c.acts, i, v) <==> c.rows[i].status != REJECTED) {
      CountedIsStoodByIff(c, similar, v, i);
    }
    assert StoodBy(c, counted, v) == NotRejected(c, counted);
  }

  /** A retrieved corrected case counts for its corrected verdict exactly when the edit left the verdict alone. */
  lemma CorrectedCountsIff(rows: seq<Row>, similar: seq<RowId>, v: Verdict, now: int, i: RowId)
    requires forall k :: 0 <= k < |similar| ==> similar[k] < |rows|
    requires i in similar && i < |rows| && rows[i].correction.Some? && rows[i].correction.value.verdict == v
    ensures i in Gate(rows, similar, v, now).recent <==>
      && !rows[i].correction.value.changed
      && rows[i].outcome != Some(FALSE_POSITIVE) && rows[i].outcome != Some(REOPENED)
      && AgeDays(rows[i], now) <= STALENESS_DAYS
  {
    hide Select, AgeDays;
    SelectIs(rows, similar, IsFresh(v, now));
  }

  /** A correction that changed the verdict blocks the gate for every verdict, the corrected one too. */
  lemma ChangedVerdictBlocks(rows: seq<Row>, similar: seq<RowId>, v: Verdict, now: int, k: nat)
    requires forall k :: 0 <= k < |similar| ==> similar[k] < |rows|
    requires k < |similar| && rows[similar[k]].correction.Some? && rows[similar[k]].correction.value.changed
    ensures !Gate(rows, similar, v, now).ok
  {
    hide Select, AgeDays;
    var i := similar[k];
    SelectIs(rows, similar, IsReversal(v));
    SelectIs(rows, similar, IsContrary(v));
    if FinalVerdict(rows[i]) == v {
      assert i in Select(rows, similar, IsReversal(v));
    } else {
      assert i in Select(rows, similar, IsContrary(v));
    }
  }
}
