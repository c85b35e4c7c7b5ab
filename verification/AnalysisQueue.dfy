/** The analysis queue: claims, retries, dead letters and restarts (`orchestrator/analysis_queue.py`). */
module AnalysisQueue {
  import opened Common

  type Positive = n: int | 1 <= n witness 1
  const MAX_ATTEMPTS: Positive
  const RETRY_BASE: Positive
  const RETRY_MAX: Positive
  const HIGH_WATER: Positive

  type JobId = nat
  type Caller = nat
  type Situation = nat

  datatype Status = PENDING | RUNNING | DONE | FAILED

  datatype Job = Job(situation: Situation, status: Status, attempts: nat, maxAttempts: Positive, nextAt: int)

  /** What happened to a job since it was created or reset: handler failures and restarts while it ran. */
  datatype Account = Account(failures: nat, interruptions: nat)

  /** The table, and what the table does not record: the accounts and who is running which job. */
  datatype Queue = Queue(jobs: seq<Job>, accounts: seq<Account>, owner: map<Caller, JobId>, clock: int)

  const EMPTY := Queue([], [], map[], 0)

  // --- backoff ------------------------------------------------------------------

  function Pow2(n: nat): Positive { if n == 0 then 1 else 2 * Pow2(n - 1) }

  function Backoff(attempts: int): int {
    Min(RETRY_MAX, RETRY_BASE * Pow2(Max(0, attempts - 1)))
  }

  lemma {:induction false} Pow2Grows(m: nat, n: nat)
    requires m <= n
    ensures Pow2(m) <= Pow2(n)
  {
    if m < n { Pow2Grows(m, n - 1); }
  }

  /** Waits grow with the attempts, never shrink, and stay between one second and the cap. */
  lemma BackoffIsCappedAndGrows(a: int, b: int)
    requires a <= b
    ensures 1 <= Backoff(a) <= Backoff(b) <= RETRY_MAX
    ensures Backoff(1) == Min(RETRY_MAX, RETRY_BASE)
    ensures a >= 1 && RETRY_BASE * Pow2(a) <= RETRY_MAX ==> Backoff(a + 1) == 2 * Backoff(a)
  {
    var m, n := Max(0, a - 1), Max(0, b - 1);
    Pow2Grows(m, n);
    Scale(RETRY_BASE, Pow2(m), Pow2(n));
    Scale(RETRY_BASE, 1, Pow2(m));
  }

  lemma Scale(c: Positive, x: int, y: int)
    requires x <= y
    ensures c * x <= c * y
  {
  }

  // --- the table's queries --------------------------------------------------------

  predicate Waiting(j: Job) { j.status == PENDING || j.status == RUNNING }

  /** The situation has a job PENDING or RUNNING. */
  predicate Outstanding(jobs: seq<Job>, s: Situation) {
    exists j :: 0 <= j < |jobs| && Waiting(jobs[j]) && jobs[j].situation == s
  }

  predicate Due(jobs: seq<Job>, now: int, j: JobId) {
    j < |jobs| && jobs[j].status == PENDING && jobs[j].nextAt <= now
  }

  /** The claim order: due time, then row. */
  predicate Before(jobs: seq<Job>, j: JobId, k: JobId)
    requires j < |jobs| && k < |jobs|
  {
    jobs[j].nextAt < jobs[k].nextAt || (jobs[j].nextAt == jobs[k].nextAt && j < k)
  }

  ghost predicate IsNext(jobs: seq<Job>, now: int, o: Option<JobId>, n: nat)
    requires n <= |jobs|
  {
    match o
    case None => forall k :: 0 <= k < n ==> !Due(jobs, now, k)
    case Some(j) => j < n && Due(jobs, now, j) && forall k :: 0 <= k < n && k != j && Due(jobs, now, k) ==> Before(jobs, j, k)
  }

  function NextAmong(jobs: seq<Job>, now: int, n: nat): (o: Option<JobId>)
    requires n <= |jobs|
    ensures IsNext(jobs, now, o, n)
  {
    if n == 0 then None
    else
      var o := NextAmong(jobs, now, n - 1);
      if !Due(jobs, now, n - 1) then o
      else if o.Some? && Before(jobs, o.value, n - 1) then o
      else Some(n - 1)
  }

  function NextDue(jobs: seq<Job>, now: int): Option<JobId> { NextAmong(jobs, now, |jobs|) }

  // --- steps --------------------------------------------------------------------------

  /**
   `Claim` is a worker's poll, `Inline` the already-claimed insert of `submit`. `Succeed` and `Fail` settle
   the job their caller runs. `Abandon` is a cancelled task that settles nothing, `Restart` a crash of the
   process followed by `recover_orphans`, and `Retry` an operator requeueing a dead letter.
   */
  datatype Event =
    | Enqueue(situation: Situation, now: int)
    | Inline(caller: Caller, situation: Situation, now: int)
    | Claim(caller: Caller, now: int)
    | Succeed(caller: Caller, now: int)
    | Fail(caller: Caller, now: int)
    | Abandon(caller: Caller, now: int)
    | Restart(now: int)
    | Retry(job: JobId, now: int)

  predicate Enabled(q: Queue, e: Event) {
    && |q.accounts| == |q.jobs|
    && q.clock <= e.now
    && match e
       case Inline(c, _, _) => c !in q.owner
       case Claim(c, _) => c !in q.owner
       case Succeed(c, _) => c in q.owner && q.owner[c] < |q.jobs|
       case Fail(c, _) => c in q.owner && q.owner[c] < |q.jobs|
       case Abandon(c, _) => c in q.owner
       case _ => true
  }

  function NewJob(s: Situation, status: Status, now: int): Job {
    Job(s, status, if status == RUNNING then 1 else 0, MAX_ATTEMPTS, now)
  }

  function Settled(j: Job, now: int): Job {
    if j.attempts >= j.maxAttempts then j.(status := FAILED)
    else j.(status := PENDING, nextAt := now + Backoff(j.attempts))
  }

  function Recovered(jobs: seq<Job>, now: int): seq<Job> {
    seq(|jobs|, i requires 0 <= i < |jobs| =>
      if jobs[i].status == RUNNING then jobs[i].(status := PENDING, nextAt := now) else jobs[i])
  }

  function Interrupted(jobs: seq<Job>, accounts: seq<Account>): seq<Account>
    requires |accounts| == |jobs|
  {
    seq(|jobs|, i requires 0 <= i < |jobs| =>
      if jobs[i].status == RUNNING then accounts[i].(interruptions := accounts[i].interruptions + 1) else accounts[i])
  }

  function Apply(q: Queue, e: Event): Queue
    requires Enabled(q, e)
  {
    match e
    case Enqueue(s, now) =>
      if Outstanding(q.jobs, s) then q.(clock := now)
      else q.(jobs := q.jobs + [NewJob(s, PENDING, now)], accounts := q.accounts + [Account(0, 0)], clock := now)
    case Inline(c, s, now) =>
      if Outstanding(q.jobs, s) then q.(clock := now)
      else Queue(q.jobs + [NewJob(s, RUNNING, now)], q.accounts + [Account(0, 0)], q.owner[c := |q.jobs|], now)
    case Claim(c, now) =>
      var o := NextDue(q.jobs, now);
      if o.None? then q.(clock := now)
      else
        var j := q.jobs[o.value];
        q.(jobs := q.jobs[o.value := j.(status := RUNNING, attempts := j.attempts + 1)],
           owner := q.owner[c := o.value], clock := now)
    case Succeed(c, now) =>
      var j := q.owner[c];
      q.(jobs := q.jobs[j := q.jobs[j].(status := DONE)], owner := q.owner - {c}, clock := now)
    case Fail(c, now) =>
      var j := q.owner[c];
      var a := q.accounts[j];
      q.(jobs := q.jobs[j := Settled(q.jobs[j], now)], accounts := q.accounts[j := a.(failures := a.failures + 1)],
         owner := q.owner - {c}, clock := now)
    case Abandon(c, now) => q.(owner := q.owner - {c}, clock := now)
    case Restart(now) => Queue(Recovered(q.jobs, now), Interrupted(q.jobs, q.accounts), map[], now)
    case Retry(j, now) =>
      if j < |q.jobs| && q.jobs[j].status == FAILED then
        q.(jobs := q.jobs[j := q.jobs[j].(status := PENDING, attempts := 0, nextAt := now)],
           accounts := q.accounts[j := Account(0, 0)], clock := now)
      else q.(clock := now)
  }

  predicate CanRun(q: Queue, es: seq<Event>)
    decreases |es|
  {
    es == [] || (Enabled(q, es[0]) && CanRun(Apply(q, es[0]), es[1..]))
  }

  function Run(q: Queue, es: seq<Event>): Queue
    requires CanRun(q, es)
    decreases |es|
  {
    if es == [] then q else Run(Apply(q, es[0]), es[1..])
  }

  // --- accounting ------------------------------------------------------------------------

  /** Attempts are failures, plus interruptions, plus the one in flight or the one that succeeded. */
  predicate Balanced(j: Job, a: Account) {
    && j.attempts == a.failures + a.interruptions + (if j.status == RUNNING || j.status == DONE then 1 else 0)
    && (if j.status == FAILED then j.attempts >= j.maxAttempts && 0 < a.failures <= j.maxAttempts
        else a.failures < j.maxAttempts)
  }

  /** Nobody runs a job that is not RUNNING, and no job is run by two. */
  predicate Owned(q: Queue) {
    && (forall c :: c in q.owner ==> q.owner[c] < |q.jobs| && q.jobs[q.owner[c]].status == RUNNING)
    && (forall c, d :: c in q.owner && d in q.owner && q.owner[c] == q.owner[d] ==> c == d)
  }

  predicate Inv(q: Queue) {
    && |q.accounts| == |q.jobs|
    && (forall j :: 0 <= j < |q.jobs| ==> Balanced(q.jobs[j], q.accounts[j]))
    && Owned(q)
  }

  lemma EventKeepsOwned(q: Queue, e: Event)
    requires Inv(q) && Enabled(q, e)
    ensures Owned(Apply(q, e))
  {
    hide Backoff, Outstanding, Balanced;
    if e.Claim? {
      assert IsNext(q.jobs, e.now, NextDue(q.jobs, e.now), |q.jobs|);
    }
  }

  lemma EventKeepsBalance(q: Queue, e: Event, j: JobId)
    requires Inv(q) && Enabled(q, e) && j < |Apply(q, e).jobs|
    ensures |Apply(q, e).accounts| == |Apply(q, e).jobs|
    ensures Balanced(Apply(q, e).jobs[j], Apply(q, e).accounts[j])
  {
    hide Backoff, Outstanding;
    if e.Claim? {
      assert IsNext(q.jobs, e.now, NextDue(q.jobs, e.now), |q.jobs|);
    }
  }

  lemma EventKeepsInv(q: Queue, e: Event)
    requires Inv(q) && Enabled(q, e)
    ensures Inv(Apply(q, e))
  {
    hide Backoff, Outstanding, Balanced, Owned, Recovered, Interrupted, NextDue, Settled;
    EventKeepsOwned(q, e);
    SameLengths(q, e);
    var t := Apply(q, e);
    forall j | 0 <= j < |t.jobs| ensures Balanced(t.jobs[j], t.accounts[j]) {
      EventKeepsBalance(q, e, j);
    }
  }

  lemma SameLengths(q: Queue, e: Event)
    requires Enabled(q, e)
    ensures |Apply(q, e).accounts| == |Apply(q, e).jobs|
  {
  }

  lemma {:induction false} RunKeepsInv(q: Queue, es: seq<Event>)
    requires Inv(q) && CanRun(q, es)
    ensures Inv(Run(q, es))
    decreases |es|
  {
    hide Inv, Apply, Enabled;
    if es != [] {
      EventKeepsInv(q, es[0]);
      RunKeepsInv(Apply(q, es[0]), es[1..]);
    }
  }

  /** In every reachable queue attempts add up and stay within the budget plus the interruptions. */
  lemma AttemptsAddUp(es: seq<Event>, j: JobId)
    requires CanRun(EMPTY, es) && j < |Run(EMPTY, es).jobs|
    ensures var q := Run(EMPTY, es);
      && |q.accounts| == |q.jobs|
      && var job, a := q.jobs[j], q.accounts[j];
      && job.attempts == a.failures + a.interruptions + (if job.status == RUNNING || job.status == DONE then 1 else 0)
      && job.attempts <= job.maxAttempts + a.interruptions
      && (job.status == FAILED ==> job.attempts >= job.maxAttempts)
      && (job.status == FAILED && a.interruptions == 0 ==> job.attempts == a.failures == job.maxAttempts)
  {
    hide Run, CanRun;
    RunKeepsInv(EMPTY, es);
  }

  /** Without interruptions a failing job dead-letters on its last budgeted attempt and on no earlier one. */
  lemma DeadLettersExactlyAtBudget(q: Queue, c: Caller, now: int)
    requires Inv(q) && Enabled(q, Fail(c, now)) && q.accounts[q.owner[c]].interruptions == 0
    ensures var j := q.owner[c]; var t := Apply(q, Fail(c, now));
      && (t.jobs[j].status == FAILED <==> q.accounts[j].failures + 1 == q.jobs[j].maxAttempts)
      && (t.jobs[j].status != FAILED ==> t.jobs[j].status == PENDING && t.jobs[j].nextAt == now + Backoff(q.jobs[j].attempts))
  {
  }

  // --- mutual exclusion ---------------------------------------------------------------------

  /** At most one job PENDING or RUNNING for each situation. */
  predicate Exclusive(jobs: seq<Job>) {
    forall j, k :: 0 <= j < k < |jobs| && Waiting(jobs[j]) && Waiting(jobs[k]) ==> jobs[j].situation != jobs[k].situation
  }

  /** The check an operator can make before requeueing a dead letter. */
  predicate RetryGuard(jobs: seq<Job>, j: JobId) {
    j < |jobs| && jobs[j].status == FAILED ==> !Outstanding(jobs, jobs[j].situation)
  }

  /** `retry_job` keeps one outstanding job per situation exactly when that situation has none outstanding. */
  lemma RetryIsExclusiveIffGuarded(q: Queue, j: JobId, now: int)
    requires Exclusive(q.jobs) && Enabled(q, Retry(j, now))
    ensures Exclusive(Apply(q, Retry(j, now)).jobs) <==> RetryGuard(q.jobs, j)
  {
    var t := Apply(q, Retry(j, now));
    if j < |q.jobs| && q.jobs[j].status == FAILED && Outstanding(q.jobs, q.jobs[j].situation) {
      var k :| 0 <= k < |q.jobs| && Waiting(q.jobs[k]) && q.jobs[k].situation == q.jobs[j].situation;
      assert Waiting(t.jobs[k]) && Waiting(t.jobs[j]);
    }
  }

  predicate Guarded(q: Queue, e: Event) { e.Retry? ==> RetryGuard(q.jobs, e.job) }

  lemma EventKeepsExclusive(q: Queue, e: Event)
    requires Inv(q) && Exclusive(q.jobs) && Enabled(q, e) && Guarded(q, e)
    ensures Exclusive(Apply(q, e).jobs)
  {
    hide Backoff;
    if e.Retry? {
      RetryIsExclusiveIffGuarded(q, e.job, e.now);
    }
  }

  predicate GuardedRun(q: Queue, es: seq<Event>)
    requires CanRun(q, es)
    decreases |es|
  {
    es == [] || (Guarded(q, es[0]) && GuardedRun(Apply(q, es[0]), es[1..]))
  }

  lemma {:induction false} RunKeepsExclusive(q: Queue, es: seq<Event>)
    requires Inv(q) && Exclusive(q.jobs) && CanRun(q, es) && GuardedRun(q, es)
    ensures Exclusive(Run(q, es).jobs)
    decreases |es|
  {
    hide Inv, Apply, Enabled, Guarded, Exclusive;
    if es != [] {
      EventKeepsInv(q, es[0]);
      EventKeepsExclusive(q, es[0]);
      RunKeepsExclusive(Apply(q, es[0]), es[1..]);
    }
  }

  /** However workers, inline callers, crashes and guarded retries interleave, no situation is analysed twice at once. */
  lemma AtMostOneAnalysisInFlight(es: seq<Event>, c: Caller, d: Caller)
    requires CanRun(EMPTY, es) && GuardedRun(EMPTY, es)
    requires var q := Run(EMPTY, es); c in q.owner && d in q.owner && c != d
    ensures var q := Run(EMPTY, es);
      && q.owner[c] < |q.jobs| && q.owner[d] < |q.jobs| && q.owner[c] != q.owner[d]
      && q.jobs[q.owner[c]].situation != q.jobs[q.owner[d]].situation
      && Exclusive(q.jobs)
  {
    hide Run, CanRun, GuardedRun;
    RunKeepsInv(EMPTY, es);
    RunKeepsExclusive(EMPTY, es);
  }

  // --- bounded overtaking ---------------------------------------------------------------------

  predicate Pending(q: Queue, j: JobId) { j < |q.jobs| && q.jobs[j].status == PENDING }

  /** The waiting jobs a claim would take first. */
  function Ahead(q: Queue, j: JobId): set<JobId>
    requires j < |q.jobs|
  {
    set k | 0 <= k < |q.jobs| && q.jobs[k].status == PENDING && Before(q.jobs, k, j)
  }

  /** A claim never passes over a waiting job for a later one. */
  lemma ClaimNeverSkips(q: Queue, c: Caller, now: int, j: JobId)
    requires Enabled(q, Claim(c, now)) && Pending(q, j)
    ensures NextDue(q.jobs, now).Some? ==>
              NextDue(q.jobs, now).value == j || NextDue(q.jobs, now).value in Ahead(q, j)
    ensures q.jobs[j].nextAt <= now ==> NextDue(q.jobs, now).Some?
  {
    assert IsNext(q.jobs, now, NextDue(q.jobs, now), |q.jobs|);
    assert q.jobs[j].nextAt <= now ==> Due(q.jobs, now, j);
  }

  lemma AheadShrinks(q: Queue, e: Event, j: JobId)
    requires Inv(q) && Enabled(q, e) && Pending(q, j) && q.jobs[j].nextAt < q.clock
    requires Pending(Apply(q, e), j)
    ensures Apply(q, e).jobs[j] == q.jobs[j]
    ensures Ahead(Apply(q, e), j) <= Ahead(q, j)
    ensures e.Claim? ==> Ahead(Apply(q, e), j) < Ahead(q, j)
  {
    var t := Apply(q, e);
    match e
    case Claim(c, now) =>
      ClaimNeverSkips(q, c, now, j);
      var k := NextDue(q.jobs, now).value;
      assert k != j && k in Ahead(q, j) && k !in Ahead(t, j);
    case Fail(c, now) =>
      BackoffIsCappedAndGrows(q.jobs[q.owner[c]].attempts, q.jobs[q.owner[c]].attempts);
    case Restart(_) =>
    case _ =>
  }

  /** `j` is PENDING at every point of the run. */
  predicate WaitsThrough(q: Queue, es: seq<Event>, j: JobId)
    requires CanRun(q, es)
    decreases |es|
  {
    Pending(q, j) && (es == [] || WaitsThrough(Apply(q, es[0]), es[1..], j))
  }

  function Claims(es: seq<Event>): nat {
    if es == [] then 0 else (if es[0].Claim? then 1 else 0) + Claims(es[1..])
  }

  /**
   Bounded waiting: once its due time is strictly past, a job can be left PENDING by at most as many claims as
   there were jobs ahead of it then. Nothing enqueued, retried, recovered or rescheduled later gets ahead.
   */
  lemma {:induction false} OvertakingIsBounded(q: Queue, es: seq<Event>, j: JobId)
    requires Inv(q) && CanRun(q, es) && WaitsThrough(q, es, j) && q.jobs[j].nextAt < q.clock
    ensures Claims(es) <= |Ahead(q, j)|
    decreases |es|
  {
    hide Inv, Apply, Enabled, Ahead;
    if es != [] {
      var t := Apply(q, es[0]);
      AheadShrinks(q, es[0], j);
      EventKeepsInv(q, es[0]);
      ClockAdvances(q, es[0]);
      OvertakingIsBounded(t, es[1..], j);
      SubsetSizes(Ahead(t, j), Ahead(q, j));
    }
  }

  lemma ClockAdvances(q: Queue, e: Event)
    requires Enabled(q, e)
    ensures q.clock <= Apply(q, e).clock
  {
  }

  lemma {:induction false} SubsetSizes(a: set<JobId>, b: set<JobId>)
    requires a <= b
    ensures |a| <= |b| && (a < b ==> |a| < |b|)
  {
    assert b == a + (b - a);
  }

  // --- termination -----------------------------------------------------------------------------

  /** Claims and settlements a job can still need without outside help. */
  function Work(j: Job, a: Account): nat {
    if a.failures >= j.maxAttempts then 0
    else if j.status == PENDING then 2 * (j.maxAttempts - a.failures)
    else if j.status == RUNNING then 2 * (j.maxAttempts - a.failures) - 1
    else 0
  }

  function TotalWork(jobs: seq<Job>, accounts: seq<Account>): nat
    requires |jobs| == |accounts|
  {
    if jobs == [] then 0
    else TotalWork(jobs[..|jobs| - 1], accounts[..|jobs| - 1]) + Work(jobs[|jobs| - 1], accounts[|jobs| - 1])
  }

  lemma {:induction false} WorkAfterUpdate(jobs: seq<Job>, accounts: seq<Account>, i: nat, j: Job, a: Account)
    requires |jobs| == |accounts| && i < |jobs|
    ensures TotalWork(jobs[i := j], accounts[i := a]) + Work(jobs[i], accounts[i])
            == TotalWork(jobs, accounts) + Work(j, a)
  {
    var n := |jobs| - 1;
    if i < n {
      WorkAfterUpdate(jobs[..n], accounts[..n], i, j, a);
      assert jobs[i := j][..n] == jobs[..n][i := j] && accounts[i := a][..n] == accounts[..n][i := a];
    } else {
      assert jobs[i := j][..n] == jobs[..n] && accounts[i := a][..n] == accounts[..n];
    }
  }

  /** A worker's own step: a claim that finds a job, or a settlement. */
  predicate Progress(q: Queue, e: Event) {
    (e.Claim? && NextDue(q.jobs, e.now).Some?) || e.Succeed? || e.Fail?
  }

  lemma ProgressUsesWork(q: Queue, e: Event)
    requires Inv(q) && Enabled(q, e) && Progress(q, e)
    ensures |Apply(q, e).accounts| == |Apply(q, e).jobs|
    ensures TotalWork(Apply(q, e).jobs, Apply(q, e).accounts) < TotalWork(q.jobs, q.accounts)
  {
    hide Backoff, TotalWork;
    var t := Apply(q, e);
    var i := if e.Claim? then NextDue(q.jobs, e.now).value else q.owner[e.caller];
    assert IsNext(q.jobs, e.now, NextDue(q.jobs, e.now), |q.jobs|);
    WorkAfterUpdate(q.jobs, q.accounts, i, t.jobs[i], t.accounts[i]);
    assert t.jobs == q.jobs[i := t.jobs[i]] && t.accounts == q.accounts[i := t.accounts[i]];
    assert Balanced(q.jobs[i], q.accounts[i]);
  }

  predicate AllProgress(q: Queue, es: seq<Event>)
    requires CanRun(q, es)
    decreases |es|
  {
    es == [] || (Progress(q, es[0]) && AllProgress(Apply(q, es[0]), es[1..]))
  }

  /** Left alone, the workers drain any queue: they take at most `TotalWork` steps, failing or not. */
  lemma {:induction false} DrainingTerminates(q: Queue, es: seq<Event>)
    requires Inv(q) && CanRun(q, es) && AllProgress(q, es)
    ensures |es| <= TotalWork(q.jobs, q.accounts)
    decreases |es|
  {
    hide Inv, Apply, Enabled, Progress, TotalWork;
    if es != [] {
      assert |q.accounts| == |q.jobs| by { InvShape(q); }
      ProgressUsesWork(q, es[0]);
      EventKeepsInv(q, es[0]);
      DrainingTerminates(Apply(q, es[0]), es[1..]);
    }
  }

  lemma InvShape(q: Queue)
    requires Inv(q)
    ensures |q.accounts| == |q.jobs|
  {
  }

  // --- an unguarded retry ------------------------------------------------------------------------

  /** One situation's job, claimed and failed `n` times, each time well after its backoff. */
  function Failures(n: nat): seq<Event> {
    if n == 0 then [Enqueue(0, 0)] else Failures(n - 1) + [Claim(0, n * RETRY_MAX), Fail(0, n * RETRY_MAX)]
  }

  lemma {:induction false} RunOfTwo(q: Queue, a: seq<Event>, b: seq<Event>)
    requires CanRun(q, a) && CanRun(Run(q, a), b)
    ensures CanRun(q, a + b) && Run(q, a + b) == Run(Run(q, a), b)
    decreases |a|
  {
    hide Apply, Enabled;
    if a == [] {
      assert a + b == b;
    } else {
      assert (a + b)[0] == a[0] && (a + b)[1..] == a[1..] + b;
      RunOfTwo(Apply(q, a[0]), a[1..], b);
    }
  }

  lemma RunOfPair(q: Queue, d: Event, e: Event)
    requires Enabled(q, d) && Enabled(Apply(q, d), e)
    ensures CanRun(q, [d, e]) && Run(q, [d, e]) == Apply(Apply(q, d), e)
  {
    hide Apply, Enabled;
    var m := Apply(q, d);
    assert [d, e][1..] == [e] && [e][1..] == [];
    assert CanRun(m, [e]) && Run(m, [e]) == Apply(m, e);
  }

  lemma RunOfOne(q: Queue, e: Event)
    requires Enabled(q, e)
    ensures CanRun(q, [e]) && Run(q, [e]) == Apply(q, e)
  {
    hide Apply, Enabled;
    assert [e][1..] == [];
    assert Run(Apply(q, e), []) == Apply(q, e);
  }

  /** Only that job, with `n` attempts spent and nobody running it. */
  predicate FailedSoFar(q: Queue, n: nat) {
    && |q.jobs| == |q.accounts| == 1 && q.owner == map[]
    && q.jobs[0].situation == 0 && q.jobs[0].attempts == n && q.jobs[0].maxAttempts == MAX_ATTEMPTS
    && q.jobs[0].status == (if n == MAX_ATTEMPTS then Status.FAILED else PENDING)
    && q.clock <= n * RETRY_MAX && q.jobs[0].nextAt <= (n + 1) * RETRY_MAX
  }

  lemma {:induction false} FailuresRun(n: nat)
    requires n <= MAX_ATTEMPTS
    ensures CanRun(EMPTY, Failures(n)) && FailedSoFar(Run(EMPTY, Failures(n)), n)
  {
    if n == 0 {
      RunOfOne(EMPTY, Enqueue(0, 0));
    } else {
      FailuresRun(n - 1);
      var q, now := Run(EMPTY, Failures(n - 1)), n * RETRY_MAX;
      OneMoreFailure(q, n, now);
      RunOfPair(q, Claim(0, now), Fail(0, now));
      RunOfTwo(EMPTY, Failures(n - 1), [Claim(0, now), Fail(0, now)]);
    }
  }

  lemma OneMoreFailure(q: Queue, n: nat, now: int)
    requires 0 < n <= MAX_ATTEMPTS && now == n * RETRY_MAX && FailedSoFar(q, n - 1)
    ensures Enabled(q, Claim(0, now)) && Enabled(Apply(q, Claim(0, now)), Fail(0, now))
    ensures FailedSoFar(Apply(Apply(q, Claim(0, now)), Fail(0, now)), n)
  {
    assert now == (n - 1) * RETRY_MAX + RETRY_MAX && (n + 1) * RETRY_MAX == now + RETRY_MAX;
    assert Due(q.jobs, now, 0);
    assert IsNext(q.jobs, now, NextDue(q.jobs, now), 1);
    BackoffIsCappedAndGrows(n, n);
    hide Backoff, NextDue;
    assert NextDue(q.jobs, now) == Some(0);
  }

  /** A dead letter, a fresh arrival and then the retry: two jobs wait for one situation. */
  lemma RetryCanDouble()
    ensures var now := MAX_ATTEMPTS * RETRY_MAX;
      var es := Failures(MAX_ATTEMPTS) + [Enqueue(0, now), Retry(0, now)];
      CanRun(EMPTY, es) && !Exclusive(Run(EMPTY, es).jobs)
  {
    var now := MAX_ATTEMPTS * RETRY_MAX;
    FailuresRun(MAX_ATTEMPTS);
    var q := Run(EMPTY, Failures(MAX_ATTEMPTS));
    RunOfPair(q, Enqueue(0, now), Retry(0, now));
    RunOfTwo(EMPTY, Failures(MAX_ATTEMPTS), [Enqueue(0, now), Retry(0, now)]);
    var t := Apply(Apply(q, Enqueue(0, now)), Retry(0, now));
    assert Waiting(t.jobs[0]) && Waiting(t.jobs[1]);
  }

  // --- between a claim and its settlement ---------------------------------------------------------

  /** Steps by others: not the caller's own, and no crash of the process. */
  predicate ByOthers(es: seq<Event>, c: Caller) {
    forall k :: 0 <= k < |es| ==> !es[k].Restart? && (es[k].Succeed? || es[k].Fail? || es[k].Abandon? ==> es[k].caller != c)
  }

  lemma OthersLeaveItAlone(q: Queue, e: Event, c: Caller)
    requires Inv(q) && Enabled(q, e) && c in q.owner && q.owner[c] < |q.jobs|
    requires !e.Restart? && (e.Succeed? || e.Fail? || e.Abandon? ==> e.caller != c)
    ensures var t := Apply(q, e); var j := q.owner[c];
      c in t.owner && t.owner[c] == j < |t.jobs| && t.jobs[j] == q.jobs[j]
  {
    hide Backoff, Outstanding, Balanced;
    if e.Claim? { assert IsNext(q.jobs, e.now, NextDue(q.jobs, e.now), |q.jobs|); }
  }

  /** While its handler runs, a job stays RUNNING and its caller's, whatever the others do. */
  lemma {:induction false} OwnJobStaysRunning(q: Queue, es: seq<Event>, c: Caller)
    requires Inv(q) && CanRun(q, es) && ByOthers(es, c) && c in q.owner
    ensures var t := Run(q, es); var j := q.owner[c];
      && Inv(t) && c in t.owner && t.owner[c] == j < |q.jobs| && j < |t.jobs|
      && t.jobs[j] == q.jobs[j] && t.jobs[j].status == RUNNING
    decreases |es|
  {
    hide Apply, Enabled, Balanced;
    if es != [] {
      OthersLeaveItAlone(q, es[0], c);
      EventKeepsInv(q, es[0]);
      OwnJobStaysRunning(Apply(q, es[0]), es[1..], c);
    }
  }
}
