/** What a session's history says about the requests it lets through. */
module HumanSessionRuns {
  import opened Common
  import opened HumanSessions
  import opened HumanSessionFacts

  // --- steps of a run -----------------------------------------------------------------

  lemma {:induction false} PrefixRuns(a: Auth, es: seq<Event>, k: nat)
    requires CanRun(a, es) && k <= |es|
    ensures CanRun(a, es[..k])
    decreases k
  {
    hide Apply, Enabled;
    if k > 0 {
      PrefixRuns(Apply(a, es[0]), es[1..], k - 1);
      assert es[..k][1..] == es[1..][..k - 1];
    }
  }

  /** The store before step `k` of a run from the empty one. */
  ghost function At(es: seq<Event>, k: nat): Auth
    requires CanRun(EMPTY, es) && k <= |es|
  {
    PrefixRuns(EMPTY, es, k);
    Run(EMPTY, es[..k])
  }

  lemma {:induction false} NextStep(a: Auth, es: seq<Event>, k: nat)
    requires CanRun(a, es) && k < |es|
    ensures CanRun(a, es[..k]) && CanRun(a, es[..k + 1]) && Enabled(Run(a, es[..k]), es[k])
    ensures Run(a, es[..k + 1]) == Apply(Run(a, es[..k]), es[k])
    decreases k
  {
    hide Apply, Enabled;
    PrefixRuns(a, es, k);
    PrefixRuns(a, es, k + 1);
    if k == 0 {
      assert es[..1][1..] == [] && es[..0] == [];
      assert Run(Apply(a, es[0]), []) == Apply(a, es[0]);
    } else {
      NextStep(Apply(a, es[0]), es[1..], k - 1);
      assert es[..k][1..] == es[1..][..k - 1] && es[..k + 1][1..] == es[1..][..k];
    }
  }

  lemma StepAt(es: seq<Event>, k: nat)
    requires CanRun(EMPTY, es) && k < |es|
    ensures Enabled(At(es, k), es[k]) && At(es, k + 1) == Apply(At(es, k), es[k])
  {
    hide Apply, Enabled, CanRun, Run;
    NextStep(EMPTY, es, k);
  }

  // --- the history of one session --------------------------------------------------------

  /** The step opens the session. */
  ghost predicate Opens(a: Auth, e: Event, sid: SessId) {
    e.SignIn? && e.sid == sid && MaySignIn(a, e.op, e.now)
  }

  /** The session's timeouts are looked at, and pass, on behalf of a request or a refresh. */
  ghost predicate Asks(a: Auth, e: Event, sid: SessId) {
    (e.Access? && e.sid == sid) || (e.Refresh? && Presented(a, e.token, e.principal) == Some(sid))
  }

  /** The step renews the session's idle deadline. */
  ghost predicate Touches(a: Auth, e: Event, sid: SessId) {
    Opens(a, e, sid) || (Asks(a, e, sid) && Enforce(a, sid, e.now).0)
  }

  lemma EnforceKeepsStamps(a: Auth, other: SessId, now: int, sid: SessId)
    requires sid in a.sessions
    ensures var (ok, b) := Enforce(a, other, now);
      && sid in b.sessions && SameStamps(a.sessions[sid], b.sessions[sid])
      && b.sessions[sid].lastSeen == if ok && other == sid then now else a.sessions[sid].lastSeen
  {
    hide PastAbsolute, PastIdle;
  }

  predicate SameStamps(x: Session, y: Session) {
    x.operator == y.operator && x.created == y.created && x.absoluteExpires == y.absoluteExpires
  }

  /** No step moves what was stamped at sign-in; only a touch moves the idle deadline. */
  lemma StepKeepsStamps(a: Auth, e: Event, sid: SessId)
    requires Enabled(a, e) && sid in a.sessions
    ensures var b := Apply(a, e);
      && sid in b.sessions && SameStamps(a.sessions[sid], b.sessions[sid])
      && b.sessions[sid].lastSeen == if Touches(a, e, sid) then e.now else a.sessions[sid].lastSeen
  {
    if e.Access? { EnforceKeepsStamps(a, e.sid, e.now, sid); }
    if e.Refresh? && Presented(a, e.token, e.principal).Some? {
      EnforceKeepsStamps(a, Presented(a, e.token, e.principal).value, e.now, sid);
    }
    hide Enforce, Presented, LiveOf, Overflow, PastAbsolute, PastIdle, EnabledAdmins, Locked, IsListing;
  }

  lemma OpeningStamps(a: Auth, e: Event, sid: SessId)
    requires Enabled(a, e) && Opens(a, e, sid)
    ensures var b := Apply(a, e);
      && sid in b.sessions
      && SameStamps(b.sessions[sid],
           Session(e.op, Digest(e.token), e.now, e.now, e.now + e.policy.absoluteMinutes * MINUTE, None))
      && b.sessions[sid].lastSeen == e.now
  {
    hide MakeRoom, IsListing;
  }

  /** Step `m` is the last one before `k` that touched the session step `j` opened. */
  ghost predicate History(es: seq<Event>, sid: SessId, j: nat, m: nat, k: nat)
    requires CanRun(EMPTY, es)
  {
    && j <= m < k <= |es|
    && Opens(At(es, j), es[j], sid) && Touches(At(es, m), es[m], sid)
    && forall i :: m < i < k ==> !Touches(At(es, i), es[i], sid)
  }

  lemma {:induction false} StampsLast(es: seq<Event>, sid: SessId, j: nat, k: nat)
    requires CanRun(EMPTY, es) && j < k <= |es| && Opens(At(es, j), es[j], sid)
    ensures sid in At(es, k).sessions
    ensures var x := At(es, k).sessions[sid];
      x.operator == es[j].op && x.created == es[j].now
      && x.absoluteExpires == es[j].now + es[j].policy.absoluteMinutes * MINUTE
    decreases k
  {
    hide Apply, Enabled, At, Touches;
    StepAt(es, k - 1);
    if k - 1 == j {
      OpeningStamps(At(es, j), es[j], sid);
    } else {
      StampsLast(es, sid, j, k - 1);
      StepKeepsStamps(At(es, k - 1), es[k - 1], sid);
    }
  }

  lemma {:induction false} SeenLast(es: seq<Event>, sid: SessId, j: nat, m: nat, k: nat)
    requires CanRun(EMPTY, es) && History(es, sid, j, m, k)
    ensures sid in At(es, k).sessions && At(es, k).sessions[sid].lastSeen == es[m].now
    decreases k
  {
    hide Apply, Enabled, At, Touches, Opens;
    StampsLast(es, sid, j, k);
    StepAt(es, k - 1);
    if k - 1 == j {
      OpeningStamps(At(es, j), es[j], sid);
    } else {
      StampsLast(es, sid, j, k - 1);
      StepKeepsStamps(At(es, k - 1), es[k - 1], sid);
      if m < k - 1 { SeenLast(es, sid, j, m, k - 1); }
    }
  }

  /** Every session that is there was opened by some step, and some step touched it last. */
  lemma {:induction false} HistoryExists(es: seq<Event>, sid: SessId, k: nat) returns (j: nat, m: nat)
    requires CanRun(EMPTY, es) && k <= |es| && sid in At(es, k).sessions
    ensures History(es, sid, j, m, k)
    decreases k
  {
    hide Apply, Enabled, At, Touches, Opens;
    assert k > 0 by { NothingAtFirst(es); }
    StepAt(es, k - 1);
    if sid !in At(es, k - 1).sessions {
      OnlyOpeningAdds(At(es, k - 1), es[k - 1], sid);
      j, m := k - 1, k - 1;
    } else {
      j, m := HistoryExists(es, sid, k - 1);
      if Touches(At(es, k - 1), es[k - 1], sid) { m := k - 1; }
    }
  }

  lemma NothingAtFirst(es: seq<Event>)
    requires CanRun(EMPTY, es)
    ensures At(es, 0).sessions == map[]
  {
    assert es[..0] == [];
  }

  lemma OnlyOpeningAdds(a: Auth, e: Event, sid: SessId)
    requires Enabled(a, e) && sid !in a.sessions && sid in Apply(a, e).sessions
    ensures Opens(a, e, sid) && Touches(a, e, sid)
  {
    hide PastAbsolute, PastIdle, LiveOf, Overflow, EnabledAdmins, Locked, IsListing;
    if !e.SignIn? { StepOnlyRevokes(a, e); }
  }

  // --- what is let through -----------------------------------------------------------------

  /** The request's own credentials name the session. */
  predicate Vouches(e: Event) { e.Access? ==> e.subject }

  lemma AcceptsIff(a: Auth, e: Event, sid: SessId)
    requires Enabled(a, e)
    ensures Accepts(a, e) == Some(sid) <==> Asks(a, e, sid) && Vouches(e) && Enforce(a, sid, e.now).0
  {
    hide Enforce, Presented;
  }

  /**
   In any run, a step is let through on a session exactly when it presents it, the session is unrevoked and its
   operator enabled, and the time is before the deadline stamped by the sign-in that opened it, before the one
   the live policy gives that sign-in, and within the live idle gap of the last step that touched it.
   */
  lemma AcceptedIffInsideDeadlines(es: seq<Event>, sid: SessId, j: nat, m: nat, k: nat)
    requires CanRun(EMPTY, es) && k < |es| && History(es, sid, j, m, k)
    ensures sid in At(es, k).sessions && Enabled(At(es, k), es[k])
    ensures var a := At(es, k); var now := es[k].now;
      Accepts(a, es[k]) == Some(sid) <==>
        && Asks(a, es[k], sid) && Vouches(es[k])
        && a.sessions[sid].revoked.None?
        && es[j].op in a.operators && !a.operators[es[j].op].disabled
        && now < es[j].now + es[j].policy.absoluteMinutes * MINUTE
        && now < es[j].now + a.policy.absoluteMinutes * MINUTE
        && now < es[m].now + a.policy.idleMinutes * MINUTE
  {
    hide At, Enabled, Touches, Accepts, Asks, Enforce;
    StampsLast(es, sid, j, k);
    SeenLast(es, sid, j, m, k);
    StepAt(es, k);
    AcceptsIff(At(es, k), es[k], sid);
    PassesIffInsideDeadlines(At(es, k), sid, es[k].now);
  }

  /** In particular no session outlives its deadlines, and each acceptance has a sign-in behind it. */
  lemma NoneOutlivesItsDeadlines(es: seq<Event>, sid: SessId, k: nat) returns (j: nat, m: nat)
    requires CanRun(EMPTY, es) && k < |es| && Enabled(At(es, k), es[k]) && Accepts(At(es, k), es[k]) == Some(sid)
    ensures History(es, sid, j, m, k)
    ensures es[k].now < es[j].now + es[j].policy.absoluteMinutes * MINUTE
    ensures es[k].now < es[j].now + At(es, k).policy.absoluteMinutes * MINUTE
    ensures es[k].now < es[m].now + At(es, k).policy.idleMinutes * MINUTE
  {
    hide At, Enabled, Touches, Accepts, Asks, Enforce;
    AcceptsIff(At(es, k), es[k], sid);
    PassesIffInsideDeadlines(At(es, k), sid, es[k].now);
    j, m := HistoryExists(es, sid, k);
    AcceptedIffInsideDeadlines(es, sid, j, m, k);
  }

  /** A request refused for its subject leaves the store as an accepted one does: the idle deadline is renewed. */
  lemma WrongSubjectStillRenews(a: Auth, sid: SessId, now: int)
    requires Enabled(a, Access(sid, false, now))
    ensures Accepts(a, Access(sid, false, now)).None?
    ensures Enabled(a, Access(sid, true, now)) && Apply(a, Access(sid, false, now)) == Apply(a, Access(sid, true, now))
    ensures Accepts(a, Access(sid, true, now)) == Some(sid) ==>
      sid in a.sessions && Apply(a, Access(sid, false, now)).sessions[sid].lastSeen == now
  {
    hide PastAbsolute, PastIdle;
  }

  // --- dead sessions ----------------------------------------------------------------------------

  /** The step looks at the session and finds a deadline past: a request, a refresh, or its operator signing in. */
  ghost predicate FindsTimedOut(a: Auth, e: Event, sid: SessId) {
    && sid in a.sessions
    && ((Asks(a, e, sid) && TimedOut(a.sessions[sid], a.policy, e.now))
        || (e.SignIn? && MaySignIn(a, e.op, e.now) && a.sessions[sid].operator == e.op
            && TimedOut(a.sessions[sid], e.policy, e.now)))
  }

  lemma FoundIsRevoked(a: Auth, e: Event, sid: SessId)
    requires Enabled(a, e) && FindsTimedOut(a, e, sid)
    ensures sid in Apply(a, e).sessions && Apply(a, e).sessions[sid].revoked.Some?
  {
    hide AbsoluteDeadline, LiveOf, Overflow;
    if e.SignIn? && a.sessions[sid].revoked.None? {
      assert IsUnrevoked(a.sessions, e.op, sid);
      assert sid in e.rows;
    }
  }

  /** A session found timed out, by whatever looks at it, stays dead, whatever the policy becomes. */
  lemma TimedOutStaysDead(a: Auth, e: Event, sid: SessId, es: seq<Event>)
    requires Enabled(a, e) && FindsTimedOut(a, e, sid) && CanRun(Apply(a, e), es)
    ensures var b := Run(Apply(a, e), es);
      && sid in b.sessions && b.sessions[sid].revoked.Some?
      && forall f :: Enabled(b, f) ==> Accepts(b, f) != Some(sid)
  {
    hide CanRun, Run, Accepts, Enabled, Apply;
    FoundIsRevoked(a, e, sid);
    RevocationIsPermanent(Apply(a, e), es, sid);
  }
}
