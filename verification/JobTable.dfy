/** The `analysis_jobs` table updated in place, refining the queue's steps. */
module JobTable {
  import opened Common
  import opened AnalysisQueue
  import Laws = QueueLaws

  datatype Mode = INLINE | QUEUED

  function CountPending(jobs: seq<Job>): nat {
    if jobs == [] then 0
    else CountPending(jobs[..|jobs| - 1]) + (if jobs[|jobs| - 1].status == PENDING then 1 else 0)
  }

  lemma {:induction false} CountPendingIsCardinality(jobs: seq<Job>)
    ensures CountPending(jobs) == |set k | 0 <= k < |jobs| && jobs[k].status == PENDING|
  {
    if jobs != [] {
      var n := |jobs| - 1;
      CountPendingIsCardinality(jobs[..n]);
      var front := set k | 0 <= k < n && jobs[..n][k].status == PENDING;
      var all := set k | 0 <= k < |jobs| && jobs[k].status == PENDING;
      assert all == front + (if jobs[n].status == PENDING then {n} else {});
    }
  }

  class Table {
    var jobs: seq<Job>
    ghost var accounts: seq<Account>
    ghost var owner: map<Caller, JobId>
    ghost var clock: int

    ghost function State(): Queue
      reads this
    {
      Queue(jobs, accounts, owner, clock)
    }

    constructor ()
      ensures State() == EMPTY && Inv(State()) && Exclusive(jobs)
    {
      jobs, accounts, owner, clock := [], [], map[], 0;
    }

    method FindOutstanding(s: Situation) returns (found: Option<JobId>)
      ensures found.None? <==> !Outstanding(jobs, s)
      ensures found.Some? ==> found.value < |jobs| && Waiting(jobs[found.value]) && jobs[found.value].situation == s
    {
      for i := 0 to |jobs|
        invariant forall k :: 0 <= k < i ==> !(Waiting(jobs[k]) && jobs[k].situation == s)
      {
        if Waiting(jobs[i]) && jobs[i].situation == s {
          return Some(i);
        }
      }
      found := None;
    }

    /** Note down the work to be done for a situation; an outstanding job is handed back instead of a second one. */
    method Enqueue(s: Situation, now: int) returns (id: JobId)
      requires Enabled(State(), AnalysisQueue.Event.Enqueue(s, now))
      modifies this
      ensures State() == Apply(old(State()), AnalysisQueue.Event.Enqueue(s, now))
      ensures id < |jobs| && Waiting(jobs[id]) && jobs[id].situation == s
      ensures (exists k :: 0 <= k < |old(jobs)| && old(jobs)[k].situation == s
                 && (old(jobs)[k].status == PENDING || old(jobs)[k].status == RUNNING)) ==> jobs == old(jobs)
      ensures jobs != old(jobs) ==>
        && jobs == old(jobs) + [Job(s, PENDING, 0, MAX_ATTEMPTS, now)] && id == |old(jobs)|
        && jobs[id].nextAt == now
      ensures jobs != old(jobs) ==> forall later :: later >= now ==> NextDue(jobs, later).Some?
    {
      var found := FindOutstanding(s);
      clock := now;
      if found.Some? {
        return found.value;
      }
      id := |jobs|;
      jobs, accounts := jobs + [NewJob(s, PENDING, now)], accounts + [Account(0, 0)];
      forall later | later >= now ensures NextDue(jobs, later).Some? { Laws.SomethingIsTaken(jobs, later, id); }
    }

    /** Insert a job already RUNNING, or nothing when the situation has one outstanding. */
    method EnqueueRunning(c: Caller, s: Situation, now: int) returns (id: Option<JobId>)
      requires Enabled(State(), Inline(c, s, now))
      modifies this
      ensures State() == Apply(old(State()), Inline(c, s, now))
      ensures id.None? <==> Outstanding(old(jobs), s)
      ensures id.Some? ==> c in owner && owner[c] == id.value < |jobs|
      ensures id.Some? ==> jobs == old(jobs) + [Job(s, RUNNING, 1, MAX_ATTEMPTS, now)]
      ensures id.None? ==> jobs == old(jobs) && owner == old(owner)
    {
      var found := FindOutstanding(s);
      clock := now;
      if found.Some? {
        return None;
      }
      id := Some(|jobs|);
      owner := owner[c := |jobs|];
      jobs, accounts := jobs + [NewJob(s, RUNNING, now)], accounts + [Account(0, 0)];
    }

    /** Take the oldest due job and mark it RUNNING. */
    method ClaimNext(c: Caller, now: int) returns (id: Option<JobId>)
      requires Enabled(State(), Claim(c, now))
      modifies this
      ensures State() == Apply(old(State()), Claim(c, now))
      ensures id == NextDue(old(jobs), now)
      ensures id.Some? ==> c in owner && owner[c] == id.value
      ensures id.None? ==> forall k :: 0 <= k < |old(jobs)| && old(jobs)[k].status == PENDING ==> now < old(jobs)[k].nextAt
      ensures id.Some? ==>
        && id.value < |old(jobs)| && old(jobs)[id.value].status == PENDING && old(jobs)[id.value].nextAt <= now
        && jobs == old(jobs)[id.value := old(jobs)[id.value].(status := RUNNING, attempts := old(jobs)[id.value].attempts + 1)]
        && forall k :: 0 <= k < |old(jobs)| && old(jobs)[k].status == PENDING && old(jobs)[k].nextAt <= now ==>
             || old(jobs)[id.value].nextAt < old(jobs)[k].nextAt
             || (old(jobs)[id.value].nextAt == old(jobs)[k].nextAt && id.value <= k)
    {
      assert IsNext(jobs, now, NextDue(jobs, now), |jobs|);
      assert forall k :: 0 <= k < |jobs| ==> (Due(jobs, now, k) <==> jobs[k].status == PENDING && jobs[k].nextAt <= now);
      id := None;
      for i := 0 to |jobs|
        invariant id == NextAmong(jobs, now, i)
      {
        if jobs[i].status == PENDING && jobs[i].nextAt <= now {
          if id.None? || !Before(jobs, id.value, i) {
            id := Some(i);
          }
        }
      }
      clock := now;
      if id.Some? {
        var j := jobs[id.value];
        jobs := jobs[id.value := j.(status := RUNNING, attempts := j.attempts + 1)];
        owner := owner[c := id.value];
      }
    }

    method SettleSuccess(ghost c: Caller, id: JobId, now: int)
      requires Enabled(State(), Succeed(c, now)) && owner[c] == id
      modifies this
      ensures State() == Apply(old(State()), Succeed(c, now))
    {
      jobs := jobs[id := jobs[id].(status := DONE)];
      owner, clock := owner - {c}, now;
    }

    /** A failed run waits its turn again, or stays FAILED for an operator to find. */
    method SettleFailure(ghost c: Caller, id: JobId, now: int)
      requires Enabled(State(), Fail(c, now)) && owner[c] == id
      modifies this
      ensures State() == Apply(old(State()), Fail(c, now))
      ensures id < |old(jobs)| && |jobs| == |old(jobs)|
      ensures jobs[id].attempts == old(jobs)[id].attempts
      ensures jobs[id].status == (if old(jobs)[id].attempts >= old(jobs)[id].maxAttempts then Status.FAILED else PENDING)
      ensures jobs[id].status == PENDING ==> jobs[id].nextAt == now + Backoff(old(jobs)[id].attempts)
    {
      var row := jobs[id];
      if row.attempts >= row.maxAttempts {
        jobs := jobs[id := row.(status := FAILED)];
      } else {
        jobs := jobs[id := row.(status := PENDING, nextAt := now + Backoff(row.attempts))];
      }
      accounts := accounts[id := accounts[id].(failures := accounts[id].failures + 1)];
      owner, clock := owner - {c}, now;
    }

    /** The handler is done with a claimed job, well or badly as the environment decides; record it. */
    method RunJob(ghost c: Caller, id: JobId, handlerOk: bool, now: int)
      requires c in owner && owner[c] == id < |jobs| && |accounts| == |jobs| && clock <= now
      modifies this
      ensures State() == Apply(old(State()), if handlerOk then Succeed(c, now) else Fail(c, now))
    {
      if handlerOk {
        SettleSuccess(c, id, now);
      } else {
        SettleFailure(c, id, now);
      }
    }

    method PendingDepth() returns (depth: nat)
      ensures depth == |set k | 0 <= k < |jobs| && jobs[k].status == PENDING|
    {
      depth := 0;
      for i := 0 to |jobs|
        invariant depth == CountPending(jobs[..i])
      {
        assert jobs[..i + 1][..i] == jobs[..i];
        if jobs[i].status == PENDING { depth := depth + 1; }
      }
      assert jobs[..|jobs|] == jobs;
      CountPendingIsCardinality(jobs);
    }

    /**
     The part of a submission before the handler: claim a fresh job for the caller when nothing stands in the
     way, otherwise queue one; never an error. What follows is `RunJob`, whenever the handler is done: until
     then the claimed job stays the caller's (`OwnJobStaysRunning`).
     */
    method Admit(c: Caller, s: Situation, queueOnly: bool, now: int) returns (claimed: Option<JobId>)
      requires Inv(State()) && clock <= now && c !in owner
      modifies this
      ensures claimed.Some? <==>
        !queueOnly && |set k | 0 <= k < |old(jobs)| && old(jobs)[k].status == PENDING| <= HIGH_WATER && !Outstanding(old(jobs), s)
      ensures claimed.None? ==> State() == Apply(old(State()), AnalysisQueue.Event.Enqueue(s, now))
      ensures claimed.Some? ==> State() == Apply(old(State()), Inline(c, s, now)) && c in owner && owner[c] == claimed.value
      ensures Inv(State()) && Outstanding(jobs, s)
    {
      EventKeepsInv(State(), AnalysisQueue.Event.Enqueue(s, now));
      EventKeepsInv(State(), Inline(c, s, now));
      var depth := PendingDepth();
      if queueOnly || depth > HIGH_WATER {
        var _ := Enqueue(s, now);
        return None;
      }
      claimed := EnqueueRunning(c, s, now);
      if claimed.None? {
        var _ := Enqueue(s, now);
      }
    }

    /** A submission whose handler answers before anything else happens. */
    method Submit(c: Caller, s: Situation, queueOnly: bool, handlerOk: bool, now: int, later: int) returns (mode: Mode)
      requires Inv(State()) && clock <= now <= later && c !in owner
      modifies this
      ensures mode == INLINE <==>
        !queueOnly && |set k | 0 <= k < |old(jobs)| && old(jobs)[k].status == PENDING| <= HIGH_WATER && !Outstanding(old(jobs), s)
      ensures mode == QUEUED ==> State() == Apply(old(State()), AnalysisQueue.Event.Enqueue(s, now))
      ensures mode == INLINE ==>
        var mid := Apply(old(State()), Inline(c, s, now));
        var settle := if handlerOk then Succeed(c, later) else Fail(c, later);
        Enabled(mid, settle) && State() == Apply(mid, settle)
    {
      var claimed := Admit(c, s, queueOnly, now);
      if claimed.None? {
        return QUEUED;
      }
      RunJob(c, claimed.value, handlerOk, later);
      mode := INLINE;
    }

    /** Start-up after a crash: what was RUNNING waits again, and the attempt it lost still counts. */
    method RecoverOrphans(now: int) returns (recovered: nat)
      requires Enabled(State(), Restart(now))
      modifies this
      ensures State() == Apply(old(State()), Restart(now))
      ensures recovered == |set k | 0 <= k < |old(jobs)| && old(jobs)[k].status == RUNNING|
      ensures |jobs| == |old(jobs)| && forall k :: 0 <= k < |jobs| ==>
        jobs[k] == if old(jobs)[k].status == RUNNING then old(jobs)[k].(status := PENDING, nextAt := now) else old(jobs)[k]
    {
      var rows := set k | 0 <= k < |jobs| && jobs[k].status == RUNNING;
      recovered := |rows|;
      accounts := Interrupted(jobs, accounts);
      jobs := seq(|jobs|, i requires 0 <= i < |jobs| reads this =>
        if i in rows then jobs[i].(status := PENDING, nextAt := now) else jobs[i]);
      owner, clock := map[], now;
      assert jobs == Recovered(old(jobs), now);
    }

    /** Put a dead letter back with a fresh budget; any other job is left as it is. */
    method RetryJob(id: JobId, now: int) returns (requeued: bool)
      requires Enabled(State(), Retry(id, now))
      modifies this
      ensures State() == Apply(old(State()), Retry(id, now))
      ensures requeued <==> id < |old(jobs)| && old(jobs)[id].status == FAILED
      ensures requeued ==> jobs == old(jobs)[id := old(jobs)[id].(status := PENDING, attempts := 0, nextAt := now)]
      ensures !requeued ==> jobs == old(jobs)
    {
      clock := now;
      requeued := id < |jobs| && jobs[id].status == FAILED;
      if requeued {
        jobs := jobs[id := jobs[id].(status := PENDING, attempts := 0, nextAt := now)];
        accounts := accounts[id := Account(0, 0)];
      }
    }
  }
}
