/** Who may sign in, what a lock is worth, and what administration does, said of the tables themselves. */
module HumanSessionLaws {
  import opened Common
  import opened HumanSessions
  import opened HumanSessionFacts

  // --- signing in ---------------------------------------------------------------------

  /** A correct credential opens a session exactly for an operator who exists, is enabled and is not locked now. */
  lemma SignInOpensIff(a: Auth, e: Event)
    requires Enabled(a, e) && e.SignIn?
    ensures var b := Apply(a, e);
      && (e.sid in b.sessions <==>
            && e.op in a.operators && !a.operators[e.op].disabled
            && (a.operators[e.op].lockedUntil.Some? ==> a.operators[e.op].lockedUntil.value <= e.now))
      && (e.sid !in b.sessions ==> b == a.(clock := e.now))
      && (e.sid in b.sessions ==>
            b.operators == a.operators[e.op := a.operators[e.op].(failed := 0, lockedUntil := None)]
            && b.sessions[e.sid].operator == e.op && b.sessions[e.sid].revoked.None?
            && b.sessions[e.sid].digest == Digest(e.token) && e.token in b.issued)
  {
    hide MakeRoom, IsListing;
  }

  /** A locked account takes no sign-in, whatever the credential: nothing changes but the time. */
  lemma LockedCannotSignIn(a: Auth, e: Event, until: int)
    requires Enabled(a, e) && e.SignIn? && e.op in a.operators
    requires a.operators[e.op].lockedUntil == Some(until) && e.now < until
    ensures Apply(a, e) == a.(clock := e.now)
    ensures Apply(a, e).sessions == a.sessions && Apply(a, e).operators == a.operators
  {
    hide MakeRoom, IsListing;
  }

  // --- the lock ---------------------------------------------------------------------------

  /** The step starts the operator's count of failures again. */
  ghost predicate StartsOver(a: Auth, e: Event, op: OpId)
    requires Enabled(a, e)
  {
    match e
    case SignIn(o, sid, _, _, _, _) => o == op && sid in Apply(a, e).sessions
    case ExpireLock(o, now) =>
      o == op && op in a.operators && a.operators[op].lockedUntil.Some? && a.operators[op].lockedUntil.value <= now
    case Unlock(o, _) => o == op
    case ResetPassword(o, _) => o == op
    case ChangePassword(o, _) => o == op
    case _ => false
  }

  ghost predicate NoneStartsOver(a: Auth, es: seq<Event>, op: OpId)
    requires CanRun(a, es)
    decreases |es|
  {
    es == [] || (!StartsOver(a, es[0], op) && NoneStartsOver(Apply(a, es[0]), es[1..], op))
  }

  function BadCredentials(es: seq<Event>, op: OpId): nat {
    if es == [] then 0
    else (if es[0].BadCredential? && es[0].op == op then 1 else 0) + BadCredentials(es[1..], op)
  }

  lemma StepCounts(a: Auth, e: Event, op: OpId)
    requires Enabled(a, e) && op in a.operators && !StartsOver(a, e, op)
    ensures op in Apply(a, e).operators
    ensures Apply(a, e).operators[op].failed == a.operators[op].failed + (if e.BadCredential? && e.op == op then 1 else 0)
  {
    EnforceKeepsOperators(a, e);
    if e.SignIn? { SignInOpensIff(a, e); }
    hide Enforce, Presented, MakeRoom, RevokeAll, IsListing, EnabledAdmins;
  }

  /** Every bad credential counts until something starts the count again. */
  lemma {:induction false} FailuresAddUp(a: Auth, es: seq<Event>, op: OpId)
    requires CanRun(a, es) && op in a.operators && NoneStartsOver(a, es, op)
    ensures op in Run(a, es).operators
    ensures Run(a, es).operators[op].failed == a.operators[op].failed + BadCredentials(es, op)
    decreases |es|
  {
    hide Apply, Enabled, StartsOver;
    if es != [] {
      StepCounts(a, es[0], op);
      FailuresAddUp(Apply(a, es[0]), es[1..], op);
    }
  }

  /** A bad credential locks exactly at the live threshold, for the live duration, and then ends every session. */
  lemma LocksIff(a: Auth, op: OpId, now: int)
    requires Enabled(a, BadCredential(op, now)) && op in a.operators
    ensures var b := Apply(a, BadCredential(op, now)); var o := a.operators[op];
      && b.operators.Keys == a.operators.Keys
      && (forall x :: x in a.operators && x != op ==> b.operators[x] == a.operators[x])
      && b.operators[op] == o.(failed := o.failed + 1,
           lockedUntil := if o.failed + 1 >= a.policy.lockThreshold then Some(now + a.policy.lockMinutes * MINUTE)
                          else o.lockedUntil)
      && b.sessions.Keys == a.sessions.Keys
      && (forall sid :: sid in a.sessions ==>
            b.sessions[sid] ==
              if o.failed + 1 >= a.policy.lockThreshold && a.sessions[sid].operator == op && a.sessions[sid].revoked.None?
              then a.sessions[sid].(revoked := Some(Revocation(now, LOCKED))) else a.sessions[sid])
  {
  }

  /** Locked at least until `u`. */
  predicate LockedThrough(a: Auth, op: OpId, u: int) {
    op in a.operators && a.operators[op].lockedUntil.Some? && u <= a.operators[op].lockedUntil.value
  }

  /** The step lifts the lock by hand, or locks anew for a time that ends sooner. */
  predicate Lifts(a: Auth, e: Event, op: OpId, u: int) {
    || ((e.Unlock? || e.ResetPassword?) && e.op == op)
    || (e.BadCredential? && e.op == op && op in a.operators
        && a.operators[op].failed + 1 >= a.policy.lockThreshold && e.now + a.policy.lockMinutes * MINUTE < u)
  }

  /** Before its time is up a lock is cut short by those steps and by no other. */
  lemma LockStandsIff(a: Auth, e: Event, op: OpId, u: int)
    requires Enabled(a, e) && LockedThrough(a, op, u) && e.now < u
    ensures LockedThrough(Apply(a, e), op, u) <==> !Lifts(a, e, op, u)
  {
    EnforceKeepsOperators(a, e);
    if e.SignIn? { SignInOpensIff(a, e); }
    hide Enforce, Presented, MakeRoom, RevokeAll, IsListing, EnabledAdmins;
  }

  ghost predicate NoneLifts(a: Auth, es: seq<Event>, op: OpId, u: int)
    requires CanRun(a, es)
    decreases |es|
  {
    es == [] || (es[0].now < u && !Lifts(a, es[0], op, u) && NoneLifts(Apply(a, es[0]), es[1..], op, u))
  }

  lemma {:induction false} LockStands(a: Auth, es: seq<Event>, op: OpId, u: int)
    requires CanRun(a, es) && LockedThrough(a, op, u) && NoneLifts(a, es, op, u)
    ensures LockedThrough(Run(a, es), op, u)
    decreases |es|
  {
    hide Apply, Enabled, LockedThrough, Lifts;
    if es != [] {
      LockStandsIff(a, es[0], op, u);
      LockStands(Apply(a, es[0]), es[1..], op, u);
    }
  }

  /**
   Lockout: as many bad credentials as the threshold, nothing starting the count again, and from the last of them
   on no sign-in of the operator opens a session for the lock's duration, unless an administrator lifts the lock
   or a further bad credential locks anew under a shorter policy.
   */
  lemma LockoutHolds(a: Auth, es: seq<Event>, op: OpId, now: int, more: seq<Event>, e: Event)
    requires CanRun(a, es) && op in a.operators && NoneStartsOver(a, es, op)
    requires var b := Run(a, es);
      Enabled(b, BadCredential(op, now)) && BadCredentials(es, op) + 1 >= b.policy.lockThreshold
    requires var c := Apply(Run(a, es), BadCredential(op, now));
      var u := now + Run(a, es).policy.lockMinutes * MINUTE;
      CanRun(c, more) && NoneLifts(c, more, op, u) && e.SignIn? && e.op == op && Enabled(Run(c, more), e) && e.now < u
    ensures var d := Run(Apply(Run(a, es), BadCredential(op, now)), more);
      Apply(d, e) == d.(clock := e.now) && e.sid !in Apply(d, e).sessions
  {
    hide Apply, Enabled, CanRun, Run, StartsOver;
    FailuresAddUp(a, es, op);
    var b := Run(a, es);
    LocksIff(b, op, now);
    var c, u := Apply(b, BadCredential(op, now)), now + b.policy.lockMinutes * MINUTE;
    LockStands(c, more, op, u);
    var d := Run(c, more);
    LockedCannotSignIn(d, e, d.operators[op].lockedUntil.value);
    NewSession(d, e);
  }

  lemma NewSession(a: Auth, e: Event)
    requires Enabled(a, e) && e.SignIn?
    ensures e.sid !in a.sessions
  {
  }

  /** While nobody changes the policy a further failure never shortens the lock. */
  lemma SamePolicyNeverShortens(a: Auth, now: int, e: Event, op: OpId)
    requires e.BadCredential? && e.op == op && now <= e.now
    ensures !Lifts(a, e, op, now + a.policy.lockMinutes * MINUTE)
  {
  }

  // --- making room ----------------------------------------------------------------------------

  /** Sign-in evicts no more than it must: what stays is every live session, up to the cap less one. */
  lemma RoomIsNotOvermade(xs: Sessions, op: OpId, rows: seq<SessId>, p: Policy, now: int)
    requires IsListing(xs, op, rows) && p.maxSessions >= 1
    ensures |Unrevoked(MakeRoom(xs, rows, p, now), op)| == Min(|LiveOf(xs, rows, p, now)|, p.maxSessions - 1)
    ensures forall sid :: sid in LiveOf(xs, rows, p, now) <==>
      && sid in xs && xs[sid].operator == op && xs[sid].revoked.None?
      && now < xs[sid].absoluteExpires && now < xs[sid].created + p.absoluteMinutes * MINUTE
      && now < xs[sid].lastSeen + p.idleMinutes * MINUTE
    ensures forall sid :: sid in xs && xs[sid].operator != op ==> MakeRoom(xs, rows, p, now)[sid] == xs[sid]
  {
    RoomIsMade(xs, op, rows, p, now);
    RoomOnlyRevokes(xs, op, rows, p, now);
    LiveIs(xs, rows, p, now);
    var live := LiveOf(xs, rows, p, now);
    var out := Overflow(live, p.maxSessions);
    assert forall i :: 0 <= i < |rows| ==> IsUnrevoked(xs, op, rows[i]);
    assert forall sid :: sid in rows ==> IsUnrevoked(xs, op, sid);
    hide LiveOf, MakeRoom, IsListing;
    DistinctSize(live[|out|..]);
  }

  lemma {:induction false} DistinctSize(q: seq<SessId>)
    requires Distinct(q)
    ensures |Elems(q)| == |q|
  {
    if q != [] {
      DistinctSize(q[1..]);
      assert forall i :: 0 <= i < |q[1..]| ==> q[1..][i] == q[i + 1];
      assert q == [q[0]] + q[1..];
      assert Elems(q) == {q[0]} + Elems(q[1..]);
    }
  }

  /** Each unrevoked session of the operator is ended for the first reason that applies, or stays as it is. */
  lemma RoomReasons(xs: Sessions, op: OpId, rows: seq<SessId>, p: Policy, now: int, sid: SessId)
    requires IsListing(xs, op, rows) && sid in xs && xs[sid].operator == op && xs[sid].revoked.None?
    ensures var x, y := xs[sid], MakeRoom(xs, rows, p, now)[sid];
      var over := now >= x.absoluteExpires || now >= x.created + p.absoluteMinutes * MINUTE;
      var idle := now >= x.lastSeen + p.idleMinutes * MINUTE;
      && (over ==> y == x.(revoked := Some(Revocation(now, ABSOLUTE))))
      && (!over && idle ==> y == x.(revoked := Some(Revocation(now, IDLE))))
      && (!over && !idle ==> y == x || y == x.(revoked := Some(Revocation(now, SESSION_LIMIT))))
  {
    hide LiveOf, Overflow;
    assert IsUnrevoked(xs, op, sid);
  }

  /** A refused request ends the session when a deadline is past, saying which, and otherwise changes no session. */
  lemma RefusalReasons(a: Auth, sid: SessId, now: int)
    requires !Enforce(a, sid, now).0
    ensures var b := Enforce(a, sid, now).1;
      && (sid !in a.sessions || a.sessions[sid].revoked.Some? ==> b == a.(clock := now))
      && (sid in a.sessions && a.sessions[sid].revoked.None? ==>
            var x := a.sessions[sid];
            b == if now >= x.absoluteExpires || now >= x.created + a.policy.absoluteMinutes * MINUTE
                 then a.(sessions := a.sessions[sid := x.(revoked := Some(Revocation(now, ABSOLUTE)))], clock := now)
                 else if now >= x.lastSeen + a.policy.idleMinutes * MINUTE
                 then a.(sessions := a.sessions[sid := x.(revoked := Some(Revocation(now, IDLE)))], clock := now)
                 else a.(clock := now))
  {
  }

  // --- refresh --------------------------------------------------------------------------------

  /** A token stands for a session exactly when it is not blank, is the one handed out last, and the session lives. */
  lemma PresentedIff(a: Auth, token: Token, principal: Option<SessId>, sid: SessId)
    requires TokensOk(a)
    ensures Presented(a, token, principal) == Some(sid) <==>
      && Strip(token) != "" && sid in a.sessions && a.sessions[sid].digest == Digest(token)
      && a.sessions[sid].revoked.None? && (principal.Some? ==> principal.value == sid)
  {
    hide Strip;
    if sid in a.sessions && a.sessions[sid].digest == Digest(token) { assert Holds(a.sessions, sid, Digest(token)); }
  }

  /** A refresh let through replaces the token: the old one is worth nothing, the new one is the session's. */
  lemma RefreshRotates(a: Auth, e: Event, sid: SessId)
    requires Inv(a) && Enabled(a, e) && e.Refresh? && Accepts(a, e) == Some(sid)
    ensures var b := Apply(a, e);
      && b.sessions.Keys == a.sessions.Keys && b.sessions[sid].digest == Digest(e.rotated) && b.sessions[sid].lastSeen == e.now
      && (forall x :: x in a.sessions && x != sid ==> b.sessions[x] == a.sessions[x])
      && (forall principal :: Presented(b, e.token, principal).None?)
      && (Strip(e.rotated) != "" ==> Presented(b, e.rotated, None) == Some(sid))
  {
    hide Strip, PastAbsolute, PastIdle, SessionsOk;
    EventKeepsInv(a, e);
    var b := Apply(a, e);
    PresentedIff(a, e.token, e.principal, sid);
    forall principal ensures Presented(b, e.token, principal).None? {
      if x :| Presented(b, e.token, principal) == Some(x) { PresentedIff(b, e.token, principal, x); }
    }
    PresentedIff(b, e.rotated, None, sid);
  }

  // --- administration --------------------------------------------------------------------------

  predicate OtherAdmin(a: Auth, op: OpId) {
    exists x :: x in a.operators && x != op && a.operators[x].admin && !a.operators[x].disabled
  }

  /** Disabling is refused for the last enabled administrator and for nobody else; it ends the operator's sessions. */
  lemma DisableIff(a: Auth, op: OpId, now: int)
    requires Enabled(a, HumanSessions.Event.SetDisabled(op, true, now)) && op in a.operators && !a.operators[op].disabled
    ensures var b := Apply(a, HumanSessions.Event.SetDisabled(op, true, now));
      && op in b.operators
      && (b.operators[op].disabled <==> !a.operators[op].admin || OtherAdmin(a, op))
      && (b.operators[op].disabled ==> forall sid :: sid in a.sessions && a.sessions[sid].operator == op ==>
            sid in b.sessions && b.sessions[sid].revoked.Some?)
  {
    AdminsWithout(a, op);
  }

  /** The same of taking the administrator role away. */
  lemma DemoteIff(a: Auth, op: OpId, now: int)
    requires Enabled(a, ChangeRole(op, false, now)) && op in a.operators && a.operators[op].admin
    ensures var b := Apply(a, ChangeRole(op, false, now));
      op in b.operators && (!b.operators[op].admin <==> a.operators[op].disabled || OtherAdmin(a, op))
  {
    AdminsWithout(a, op);
  }

  lemma AdminsWithout(a: Auth, op: OpId)
    ensures EnabledAdmins(a) - {op} == {} <==> !OtherAdmin(a, op)
  {
    if x :| x in a.operators && x != op && a.operators[x].admin && !a.operators[x].disabled {
      assert x in EnabledAdmins(a) - {op};
    }
  }

  /** After an unlock or a reset an enabled operator's next correct credential opens a session. */
  lemma UnlockLetsIn(a: Auth, e: Event, f: Event)
    requires Enabled(a, e) && (e.Unlock? || e.ResetPassword?) && e.op in a.operators && !a.operators[e.op].disabled
    requires Enabled(Apply(a, e), f) && f.SignIn? && f.op == e.op
    ensures f.sid in Apply(Apply(a, e), f).sessions
  {
    SignInOpensIff(Apply(a, e), f);
    hide RevokeAll, MakeRoom, IsListing;
  }

  /** Signing out ends that session, for good, and no other. */
  lemma LogoutEnds(a: Auth, sid: SessId, now: int)
    requires Enabled(a, HumanSessions.Event.Logout(sid, now))
    ensures var b := Apply(a, HumanSessions.Event.Logout(sid, now));
      && b.sessions.Keys == a.sessions.Keys && b.operators == a.operators
      && (sid in a.sessions && a.sessions[sid].revoked.None? ==> b.sessions[sid].revoked == Some(Revocation(now, USER_LOGOUT)))
      && (sid in a.sessions && a.sessions[sid].revoked.Some? ==> b.sessions[sid] == a.sessions[sid])
      && (forall x :: x in a.sessions && x != sid ==> b.sessions[x] == a.sessions[x])
  {
  }

  /** A reset ends every session and lifts the lock; a password changed by its owner ends none and leaves the lock. */
  lemma PasswordSteps(a: Auth, op: OpId, now: int)
    requires a.clock <= now && op in a.operators
    ensures var b := Apply(a, HumanSessions.Event.ResetPassword(op, now));
      && b.operators[op] == a.operators[op].(failed := 0, lockedUntil := None)
      && b.sessions.Keys == a.sessions.Keys
      && forall sid | sid in a.sessions :: b.sessions[sid] ==
           if a.sessions[sid].operator == op && a.sessions[sid].revoked.None?
           then a.sessions[sid].(revoked := Some(Revocation(now, ADMIN_REVOKE))) else a.sessions[sid]
    ensures var b := Apply(a, HumanSessions.Event.ChangePassword(op, now));
      b.operators[op] == a.operators[op].(failed := 0) && b.sessions == a.sessions
  {
  }

  /** A policy is taken exactly when each setting is within its bounds and no session may idle longer than it lasts. */
  lemma PolicyIsTakenIff(a: Auth, p: Policy, now: int)
    requires a.clock <= now && p != a.policy
    ensures Apply(a, HumanSessions.Event.SetPolicy(p, now)).policy == p <==>
      && 5 <= p.idleMinutes <= p.absoluteMinutes && p.idleMinutes <= 1440 && 30 <= p.absoluteMinutes <= 10080
      && 1 <= p.maxSessions <= 20 && 3 <= p.lockThreshold <= 20 && 1 <= p.lockMinutes <= 1440
  {
  }
}
