/** When the queue's jobs are due, said of the rows themselves. */
module QueueLaws {
  import opened Common
  import opened AnalysisQueue

  /** With nothing PENDING or RUNNING for the situation, one job is added: PENDING, untried and due at once. */
  lemma FreshJobIsDue(q: Queue, s: Situation, now: int)
    requires Enabled(q, Enqueue(s, now))
    requires forall k :: 0 <= k < |q.jobs| && q.jobs[k].situation == s ==> q.jobs[k].status == DONE || q.jobs[k].status == Status.FAILED
    ensures var t := Apply(q, Enqueue(s, now));
      && t.jobs == q.jobs + [Job(s, PENDING, 0, MAX_ATTEMPTS, now)] && t.owner == q.owner
      && forall later :: later >= now ==> NextDue(t.jobs, later).Some?
  {
    var t, j := Apply(q, Enqueue(s, now)), |q.jobs|;
    forall later | later >= now ensures NextDue(t.jobs, later).Some? {
      SomethingIsTaken(t.jobs, later, j);
    }
  }

  lemma SomethingIsTaken(jobs: seq<Job>, now: int, j: JobId)
    requires j < |jobs| && jobs[j].status == PENDING && jobs[j].nextAt <= now
    ensures NextDue(jobs, now).Some?
  {
    assert Due(jobs, now, j);
    assert IsNext(jobs, now, NextDue(jobs, now), |jobs|);
  }

  /** With one outstanding nothing is added and nothing moves. */
  lemma SecondJobIsNotMade(q: Queue, s: Situation, now: int, k: JobId)
    requires Enabled(q, Enqueue(s, now)) && k < |q.jobs| && q.jobs[k].situation == s
    requires q.jobs[k].status == PENDING || q.jobs[k].status == RUNNING
    ensures Apply(q, Enqueue(s, now)) == q.(clock := now)
  {
    assert Waiting(q.jobs[k]);
  }

  /** The step makes job `j` wait from `now` on: it is new, or was RUNNING in a crashed process, or was retried. */
  predicate Readies(q: Queue, e: Event, j: JobId) {
    match e
    case Enqueue(s, _) => j == |q.jobs| && forall k :: 0 <= k < |q.jobs| ==> q.jobs[k].situation == s ==>
        q.jobs[k].status == DONE || q.jobs[k].status == Status.FAILED
    case Restart(_) => j < |q.jobs| && q.jobs[j].status == RUNNING
    case Retry(k, _) => j == k < |q.jobs| && q.jobs[j].status == Status.FAILED
    case _ => false
  }

  lemma ReadiedIsDue(q: Queue, e: Event, j: JobId)
    requires Enabled(q, e) && Readies(q, e, j)
    ensures var t := Apply(q, e);
      && j < |t.jobs| && t.jobs[j].status == PENDING && t.jobs[j].nextAt == e.now && t.clock == e.now
      && (e.Retry? ==> t.jobs[j].attempts == 0)
      && (e.Restart? ==> t.jobs[j].attempts == q.jobs[j].attempts)
  {
  }

  lemma WaitingStaysDue(q: Queue, e: Event, j: JobId)
    requires Inv(q) && Enabled(q, e) && Pending(q, j) && Pending(Apply(q, e), j) && q.jobs[j].nextAt <= q.clock
    ensures var t := Apply(q, e); t.jobs[j] == q.jobs[j] && t.jobs[j].nextAt <= t.clock
  {
    hide Backoff, Outstanding, Balanced;
    if e.Claim? { assert IsNext(q.jobs, e.now, NextDue(q.jobs, e.now), |q.jobs|); }
  }

  lemma {:induction false} EligibleWhileWaiting(q: Queue, es: seq<Event>, j: JobId)
    requires Inv(q) && CanRun(q, es) && WaitsThrough(q, es, j) && q.jobs[j].nextAt <= q.clock
    ensures Inv(Run(q, es)) && Pending(Run(q, es), j) && Run(q, es).jobs[j].nextAt <= Run(q, es).clock
    decreases |es|
  {
    hide Inv, Apply, Enabled;
    if es != [] {
      WaitingStaysDue(q, es[0], j);
      EventKeepsInv(q, es[0]);
      EligibleWhileWaiting(Apply(q, es[0]), es[1..], j);
    }
  }

  /** From the step that readies it, a job is eligible for every later claim: while it waits none comes back empty. */
  lemma ReadiedIsEligible(q: Queue, e: Event, j: JobId, es: seq<Event>, c: Caller, now: int)
    requires Inv(q) && Enabled(q, e) && Readies(q, e, j)
    requires CanRun(Apply(q, e), es) && WaitsThrough(Apply(q, e), es, j)
    requires Enabled(Run(Apply(q, e), es), Claim(c, now))
    ensures var t := Run(Apply(q, e), es);
      && j < |t.jobs| && t.jobs[j].status == PENDING && t.jobs[j].nextAt <= now
      && NextDue(t.jobs, now).Some? && c in Apply(t, Claim(c, now)).owner
  {
    hide CanRun, Run, WaitsThrough, Inv, Readies;
    ReadiedIsDue(q, e, j);
    EventKeepsInv(q, e);
    EligibleWhileWaiting(Apply(q, e), es, j);
    SomethingIsTaken(Run(Apply(q, e), es).jobs, now, j);
  }

  /** A settlement, row by row: DONE; or FAILED once the attempts are spent; or PENDING after the backoff. */
  lemma SettlesThatRow(q: Queue, c: Caller, now: int)
    requires Inv(q) && c in q.owner && q.clock <= now
    ensures var j := q.owner[c]; var r := q.jobs[j];
      && Apply(q, Succeed(c, now)).jobs == q.jobs[j := r.(status := DONE)]
      && Apply(q, Fail(c, now)).jobs ==
           q.jobs[j := if r.attempts >= r.maxAttempts then r.(status := Status.FAILED)
                       else r.(status := PENDING, nextAt := now + Backoff(r.attempts))]
      && Apply(q, Succeed(c, now)).owner == Apply(q, Fail(c, now)).owner == q.owner - {c}
  {
  }
}
