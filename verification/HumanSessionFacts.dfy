/** What every run of sign-ins, requests, refreshes and administration keeps. */
module HumanSessionFacts {
  import opened Common
  import opened HumanSessions

  // --- eviction -------------------------------------------------------------------------

  lemma {:induction false} LiveIs(xs: Sessions, rows: seq<SessId>, p: Policy, now: int)
    requires forall i :: 0 <= i < |rows| ==> rows[i] in xs
    requires Distinct(rows)
    ensures Distinct(LiveOf(xs, rows, p, now))
    ensures forall sid :: sid in LiveOf(xs, rows, p, now) <==> sid in rows && !TimedOut(xs[sid], p, now)
  {
    hide TimedOut;
    if rows != [] {
      var front, l := rows[..|rows| - 1], rows[|rows| - 1];
      assert rows == front + [l];
      LiveIs(xs, front, p, now);
      var f := LiveOf(xs, front, p, now);
      assert l !in front && l !in f;
    }
  }

  predicate SortedBySeen(xs: Sessions, q: seq<SessId>) {
    && (forall i :: 0 <= i < |q| ==> q[i] in xs)
    && forall i, j :: 0 <= i < j < |q| ==> NotNewer(xs[q[i]], xs[q[j]])
  }

  lemma {:induction false} LiveIsSorted(xs: Sessions, rows: seq<SessId>, p: Policy, now: int)
    requires SortedBySeen(xs, rows)
    ensures SortedBySeen(xs, LiveOf(xs, rows, p, now))
    ensures forall sid :: sid in LiveOf(xs, rows, p, now) ==> sid in rows
  {
    hide TimedOut;
    if rows != [] {
      var front, l := rows[..|rows| - 1], rows[|rows| - 1];
      assert rows == front + [l];
      LiveIsSorted(xs, front, p, now);
      var f := LiveOf(xs, front, p, now);
      forall i | 0 <= i < |f| ensures NotNewer(xs[f[i]], xs[l]) {
        assert f[i] in f && f[i] in front;
        var k :| 0 <= k < |front| && front[k] == f[i];
      }
    }
  }

  /** The unrevoked sessions left are the newest-seen live ones, and at most `cap - 1` of them. */
  lemma RoomIsMade(xs: Sessions, op: OpId, rows: seq<SessId>, p: Policy, now: int)
    requires IsListing(xs, op, rows) && p.maxSessions >= 1
    ensures var live := LiveOf(xs, rows, p, now); var out := Overflow(live, p.maxSessions);
      && out == live[..|out|]
      && Unrevoked(MakeRoom(xs, rows, p, now), op) == Elems(live[|out|..])
      && |Unrevoked(MakeRoom(xs, rows, p, now), op)| <= p.maxSessions - 1
  {
    var live := LiveOf(xs, rows, p, now);
    var out := Overflow(live, p.maxSessions);
    var xs' := MakeRoom(xs, rows, p, now);
    LiveIs(xs, rows, p, now);
    var kept := live[|out|..];
    assert live == out + kept;
    forall sid ensures IsUnrevoked(xs', op, sid) <==> sid in kept {
      hide PastAbsolute, PastIdle, LiveOf;
      if sid in kept { assert sid in live && sid in rows; SuffixAvoidsPrefix(live, |out|, sid); }
    }
    assert Unrevoked(xs', op) == Elems(kept);
    SetOfSeqSize(kept);
  }

  lemma SuffixAvoidsPrefix(q: seq<SessId>, n: nat, x: SessId)
    requires Distinct(q) && n <= |q| && x in q[n..]
    ensures x !in q[..n]
  {
  }

  function Elems(q: seq<SessId>): set<SessId> { set x | x in q }

  lemma {:induction false} SetOfSeqSize(q: seq<SessId>)
    ensures |Elems(q)| <= |q|
  {
    if q == [] {
      assert Elems(q) == {};
    } else {
      var rest := Elems(q[1..]);
      SetOfSeqSize(q[1..]);
      assert q == [q[0]] + q[1..];
      assert Elems(q) == {q[0]} + rest;
    }
  }

  /** No session evicted for the cap was seen more recently than one that was kept. */
  lemma EvictedAreOldest(xs: Sessions, op: OpId, rows: seq<SessId>, p: Policy, now: int, e: SessId, k: SessId)
    requires IsListing(xs, op, rows) && p.maxSessions >= 1
    requires e in Overflow(LiveOf(xs, rows, p, now), p.maxSessions)
    requires k in Unrevoked(MakeRoom(xs, rows, p, now), op)
    ensures e in xs && k in xs && xs[e].lastSeen <= xs[k].lastSeen
    ensures xs[e].lastSeen == xs[k].lastSeen ==> xs[e].created <= xs[k].created
  {
    var live := LiveOf(xs, rows, p, now);
    var out := Overflow(live, p.maxSessions);
    RoomIsMade(xs, op, rows, p, now);
    LiveIsSorted(xs, rows, p, now);
    assert k in live[|out|..];
    var i :| 0 <= i < |out| && out[i] == e;
    var j :| 0 <= j < |live[|out|..]| && live[|out|..][j] == k;
    assert live[i] == e && live[|out| + j] == k;
  }

  // --- the invariant -------------------------------------------------------------------------

  function CapOf(a: Auth, op: OpId): int { if op in a.caps then a.caps[op] else 0 }

  predicate SessionsOk(a: Auth, op: OpId) {
    && |Unrevoked(a.sessions, op)| <= CapOf(a, op)
    && (op !in a.operators || a.operators[op].disabled || Locked(a.operators[op], a.clock) ==> Unrevoked(a.sessions, op) == {})
  }

  predicate TokensOk(a: Auth) {
    && (forall s, t :: s in a.sessions && t in a.sessions && a.sessions[s].digest == a.sessions[t].digest ==> s == t)
    && (forall s :: s in a.sessions ==> a.sessions[s].digest.token in a.issued && a.sessions[s].digest.token !in a.accepted)
    && (forall i :: 0 <= i < |a.accepted| ==> a.accepted[i] in a.issued)
    && Distinct(a.accepted)
  }

  ghost predicate Inv(a: Auth) {
    a.policy.Valid() && (forall op :: SessionsOk(a, op)) && TokensOk(a)
  }

  lemma EmptyIsGood()
    ensures Inv(EMPTY)
  {
    forall op ensures SessionsOk(EMPTY, op) {
      assert Unrevoked(EMPTY.sessions, op) == {};
    }
  }

  // --- sessions: counts, disabled and locked operators -------------------------------------------

  /** A step that opens nothing: sessions are only touched, revoked or rotated. */
  ghost predicate OnlyRevokes(xs: Sessions, ys: Sessions) {
    && xs.Keys == ys.Keys
    && forall sid :: sid in xs ==> ys[sid].operator == xs[sid].operator
                                   && (xs[sid].revoked.Some? ==> ys[sid].revoked == xs[sid].revoked)
  }

  lemma RevokingShrinks(xs: Sessions, ys: Sessions, op: OpId)
    requires OnlyRevokes(xs, ys)
    ensures Unrevoked(ys, op) <= Unrevoked(xs, op) && |Unrevoked(ys, op)| <= |Unrevoked(xs, op)|
  {
    assert Unrevoked(ys, op) <= Unrevoked(xs, op);
    assert Unrevoked(xs, op) == Unrevoked(ys, op) + (Unrevoked(xs, op) - Unrevoked(ys, op));
  }

  lemma EnforceOnlyRevokes(a: Auth, sid: SessId, now: int)
    ensures var b := Enforce(a, sid, now).1;
      OnlyRevokes(a.sessions, b.sessions) && b.caps == a.caps && (Enforce(a, sid, now).0 ==> sid in a.sessions)
  {
    hide PastAbsolute, PastIdle;
  }

  lemma StepOnlyRevokes(a: Auth, e: Event)
    requires Enabled(a, e) && !e.SignIn?
    ensures OnlyRevokes(a.sessions, Apply(a, e).sessions)
    ensures Apply(a, e).caps == a.caps
  {
    if e.Access? { EnforceOnlyRevokes(a, e.sid, e.now); }
    if e.Refresh? && Presented(a, e.token, e.principal).Some? {
      EnforceOnlyRevokes(a, Presented(a, e.token, e.principal).value, e.now);
    }
    hide Enforce, Presented, MakeRoom, EnabledAdmins, Locked;
  }

  lemma RevokeAllClears(xs: Sessions, op: OpId, now: int, why: Reason)
    ensures Unrevoked(RevokeAll(xs, op, now, why), op) == {}
  {
  }

  /** Which operators a step can newly disable, remove or lock: only ones whose sessions it revokes. */
  lemma ClosedStayClosed(a: Auth, e: Event, op: OpId)
    requires Inv(a) && Enabled(a, e) && !e.SignIn?
    ensures SessionsOk(Apply(a, e), op)
  {
    hide PastAbsolute, PastIdle, Presented, Blank, TokensOk, Enforce, GuardRefuses, Unrevoked;
    assert SessionsOk(a, op);
    StepOnlyRevokes(a, e);
    RevokingShrinks(a.sessions, Apply(a, e).sessions, op);
    EnforceKeepsOperators(a, e);
    match e
    case BadCredential(o, now) => RevokeAllClears(a.sessions, op, now, LOCKED);
    case SetDisabled(o, d, now) => RevokeAllClears(a.sessions, op, now, ADMIN_REVOKE);
    case ResetPassword(o, now) => RevokeAllClears(a.sessions, op, now, ADMIN_REVOKE);
    case _ =>
  }

  lemma EnforceKeepsOperators(a: Auth, e: Event)
    requires Enabled(a, e)
    ensures e.Access? || e.Refresh? || e.Logout? ==> Apply(a, e).operators == a.operators
    ensures Apply(a, e).clock == e.now
  {
    hide PastAbsolute, PastIdle, Presented, Blank, RevokeAll, MakeRoom;
  }

  lemma SignInKeepsSessions(a: Auth, e: Event, op: OpId)
    requires Inv(a) && Enabled(a, e) && e.SignIn?
    ensures SessionsOk(Apply(a, e), op)
  {
    assert IsListing(a.sessions, e.op, e.rows);
    assert forall i :: 0 <= i < |e.rows| ==> e.rows[i] in a.sessions;
    hide TokensOk, LiveOf, Overflow, PastAbsolute, PastIdle, IsListing, MakeRoom, Unrevoked;
    assert SessionsOk(a, op);
    if MaySignIn(a, e.op, e.now) {
      var ys := MakeRoom(a.sessions, e.rows, e.policy, e.now);
      RoomOnlyRevokes(a.sessions, e.op, e.rows, e.policy, e.now);
      if op == e.op {
        RoomIsMade(a.sessions, op, e.rows, e.policy, e.now);
        var out := Overflow(LiveOf(a.sessions, e.rows, e.policy, e.now), e.policy.maxSessions);
        InsertedSession(ys, Apply(a, e).sessions, op, e.sid);
      } else {
        OthersKeepSessions(a.sessions, ys, Apply(a, e).sessions, e.op, op, e.sid);
      }
    }
  }

  lemma RoomOnlyRevokes(xs: Sessions, op: OpId, rows: seq<SessId>, p: Policy, now: int)
    requires IsListing(xs, op, rows)
    ensures var ys := MakeRoom(xs, rows, p, now);
      && ys.Keys == xs.Keys
      && forall s :: s in xs ==> ys[s].operator == xs[s].operator && (xs[s].operator != op ==> ys[s] == xs[s])
  {
    hide LiveOf, Overflow, PastAbsolute, PastIdle;
    forall s | s in xs && s in rows ensures xs[s].operator == op {
      var i :| 0 <= i < |rows| && rows[i] == s;
      assert IsUnrevoked(xs, op, rows[i]);
    }
  }

  lemma InsertedSession(ys: Sessions, zs: Sessions, op: OpId, sid: SessId)
    requires sid !in ys && sid in zs && zs == ys[sid := zs[sid]] && IsUnrevoked(zs, op, sid)
    ensures |Unrevoked(zs, op)| == |Unrevoked(ys, op)| + 1
  {
    assert Unrevoked(zs, op) == Unrevoked(ys, op) + {sid};
  }

  lemma OthersKeepSessions(xs: Sessions, ys: Sessions, zs: Sessions, op: OpId, other: OpId, sid: SessId)
    requires op != other && ys.Keys == xs.Keys && sid !in ys && sid in zs
    requires zs == ys[sid := zs[sid]] && zs[sid].operator == op
    requires forall s :: s in xs ==> ys[s].operator == xs[s].operator && (xs[s].operator != op ==> ys[s] == xs[s])
    ensures Unrevoked(zs, other) == Unrevoked(xs, other)
  {
  }

  // --- tokens ---------------------------------------------------------------------------------

  lemma RotationOnly(a: Auth, e: Event)
    requires Enabled(a, e) && !e.SignIn? && !e.Refresh?
    ensures var b := Apply(a, e);
      && b.issued == a.issued && b.accepted == a.accepted && b.sessions.Keys == a.sessions.Keys
      && forall s :: s in a.sessions ==> b.sessions[s].digest == a.sessions[s].digest
  {
    hide PastAbsolute, PastIdle;
  }

  lemma EnforceKeepsDigests(a: Auth, sid: SessId, now: int)
    ensures var b := Enforce(a, sid, now).1;
      && b.issued == a.issued && b.accepted == a.accepted && b.sessions.Keys == a.sessions.Keys
      && b.policy == a.policy && b.operators == a.operators
      && forall s :: s in a.sessions ==> b.sessions[s].digest == a.sessions[s].digest
  {
    hide PastAbsolute, PastIdle;
  }

  lemma RefreshKeepsTokens(a: Auth, e: Event)
    requires TokensOk(a) && Enabled(a, e) && e.Refresh?
    ensures TokensOk(Apply(a, e))
  {
    hide PastAbsolute, PastIdle, Blank, Enforce;
    var o := Presented(a, e.token, e.principal);
    if o.Some? {
      EnforceKeepsDigests(a, o.value, e.now);
    }
  }

  lemma SignInKeepsTokens(a: Auth, e: Event)
    requires TokensOk(a) && Enabled(a, e) && e.SignIn?
    ensures TokensOk(Apply(a, e))
  {
    assert forall i :: 0 <= i < |e.rows| ==> IsUnrevoked(a.sessions, e.op, e.rows[i]);
    RoomKeepsDigests(a.sessions, e.rows, e.policy, e.now);
    hide PastAbsolute, PastIdle, LiveOf, Overflow, MakeRoom, IsListing, IsUnrevoked;
  }

  lemma RoomKeepsDigests(xs: Sessions, rows: seq<SessId>, p: Policy, now: int)
    requires forall i :: 0 <= i < |rows| ==> rows[i] in xs
    ensures var ys := MakeRoom(xs, rows, p, now);
      ys.Keys == xs.Keys && forall s :: s in xs ==> ys[s].digest == xs[s].digest
  {
    hide PastAbsolute, PastIdle, LiveOf, Overflow;
  }

  lemma EventKeepsInv(a: Auth, e: Event)
    requires Inv(a) && Enabled(a, e)
    ensures Inv(Apply(a, e))
  {
    hide SessionsOk, TokensOk;
    forall op ensures SessionsOk(Apply(a, e), op) {
      if e.SignIn? { SignInKeepsSessions(a, e, op); } else { ClosedStayClosed(a, e, op); }
    }
    if e.SignIn? {
      SignInKeepsTokens(a, e);
    } else if e.Refresh? {
      RefreshKeepsTokens(a, e);
    } else {
      RotationOnly(a, e);
      SameTokens(a, Apply(a, e));
    }
    PolicyStaysValid(a, e);
  }

  lemma SameTokens(a: Auth, b: Auth)
    requires TokensOk(a) && b.issued == a.issued && b.accepted == a.accepted && b.sessions.Keys == a.sessions.Keys
    requires forall s :: s in a.sessions ==> b.sessions[s].digest == a.sessions[s].digest
    ensures TokensOk(b)
  {
  }

  lemma PolicyStaysValid(a: Auth, e: Event)
    requires a.policy.Valid() && Enabled(a, e)
    ensures Apply(a, e).policy.Valid()
  {
    hide PastAbsolute, PastIdle, LiveOf, Overflow, Presented, RevokeAll, MakeRoom;
  }

  lemma {:induction false} RunKeepsInv(a: Auth, es: seq<Event>)
    requires Inv(a) && CanRun(a, es)
    ensures Inv(Run(a, es))
    decreases |es|
  {
    hide Inv, Apply, Enabled;
    if es != [] {
      EventKeepsInv(a, es[0]);
      RunKeepsInv(Apply(a, es[0]), es[1..]);
    }
  }

  // --- the promises -----------------------------------------------------------------------------

  /** In every reachable store an operator holds no more sessions than the cap at the last sign-in allowed. */
  lemma SessionCapHolds(es: seq<Event>, op: OpId)
    requires CanRun(EMPTY, es)
    ensures |Unrevoked(Run(EMPTY, es).sessions, op)| <= CapOf(Run(EMPTY, es), op)
  {
    hide CanRun, Run, TokensOk, Unrevoked;
    EmptyIsGood();
    RunKeepsInv(EMPTY, es);
    assert SessionsOk(Run(EMPTY, es), op);
  }

  /** A disabled operator has no unrevoked session, and neither has a locked one while the lock lasts. */
  lemma ClosedAccountsHaveNoSessions(es: seq<Event>, op: OpId)
    requires CanRun(EMPTY, es) && op in Run(EMPTY, es).operators
    requires var a := Run(EMPTY, es); a.operators[op].disabled || Locked(a.operators[op], a.clock)
    ensures Unrevoked(Run(EMPTY, es).sessions, op) == {}
  {
    hide CanRun, Run, TokensOk, Unrevoked;
    EmptyIsGood();
    RunKeepsInv(EMPTY, es);
    assert SessionsOk(Run(EMPTY, es), op);
  }

  /** Every refresh token was handed out by the store, and no token is accepted twice in a whole run. */
  lemma RefreshTokensWorkOnce(es: seq<Event>)
    requires CanRun(EMPTY, es)
    ensures Distinct(Run(EMPTY, es).accepted)
    ensures forall t :: t in Run(EMPTY, es).accepted ==> t in Run(EMPTY, es).issued
  {
    hide CanRun, Run, SessionsOk;
    EmptyIsGood();
    RunKeepsInv(EMPTY, es);
  }

  /** The log of accepted tokens is what the run let through on a refresh, and nothing else. */
  lemma AcceptedIsLogged(a: Auth, e: Event)
    requires Enabled(a, e)
    ensures Apply(a, e).accepted == a.accepted + (if e.Refresh? && Accepts(a, e).Some? then [e.token] else [])
  {
    hide PastAbsolute, PastIdle, Presented, RevokeAll, MakeRoom;
    if e.Refresh? {
      var o := Presented(a, e.token, e.principal);
      if o.Some? { EnforceKeepsDigests(a, o.value, e.now); }
    }
  }

  /** A request passes exactly on an unrevoked session inside all its deadlines, of an operator still enabled. */
  lemma PassesIffInsideDeadlines(a: Auth, sid: SessId, now: int)
    ensures Enforce(a, sid, now).0 <==>
      && sid in a.sessions && a.sessions[sid].revoked.None?
      && now < a.sessions[sid].absoluteExpires
      && now < a.sessions[sid].created + a.policy.absoluteMinutes * MINUTE
      && now < a.sessions[sid].lastSeen + a.policy.idleMinutes * MINUTE
      && a.sessions[sid].operator in a.operators && !a.operators[a.sessions[sid].operator].disabled
  {
  }

  /** Whatever follows, a revocation keeps its time and reason, and the session is never let through again. */
  lemma {:induction false} RevocationIsPermanent(a: Auth, es: seq<Event>, sid: SessId)
    requires CanRun(a, es) && sid in a.sessions && a.sessions[sid].revoked.Some?
    ensures var b := Run(a, es); sid in b.sessions && b.sessions[sid].revoked == a.sessions[sid].revoked
    ensures forall e :: Enabled(Run(a, es), e) ==> Accepts(Run(a, es), e) != Some(sid)
    decreases |es|
  {
    hide Enabled, Apply, Accepts;
    if es == [] {
      forall e | Enabled(a, e) ensures Accepts(a, e) != Some(sid) { RevokedIsRefused(a, e, sid); }
    } else {
      StepKeepsRevocation(a, es[0], sid);
      RevocationIsPermanent(Apply(a, es[0]), es[1..], sid);
    }
  }

  lemma RevokedIsRefused(a: Auth, e: Event, sid: SessId)
    requires Enabled(a, e) && sid in a.sessions && a.sessions[sid].revoked.Some?
    ensures Accepts(a, e) != Some(sid)
  {
  }

  lemma StepKeepsRevocation(a: Auth, e: Event, sid: SessId)
    requires Enabled(a, e) && sid in a.sessions && a.sessions[sid].revoked.Some?
    ensures sid in Apply(a, e).sessions && Apply(a, e).sessions[sid].revoked == a.sessions[sid].revoked
  {
    if e.SignIn? {
      hide LiveOf, Overflow, PastAbsolute, PastIdle;
    } else {
      StepOnlyRevokes(a, e);
    }
  }

  /** The last enabled administrator can be neither demoted nor disabled. */
  lemma {:induction false} AnAdminRemains(a: Auth, es: seq<Event>)
    requires CanRun(a, es) && EnabledAdmins(a) != {}
    ensures EnabledAdmins(Run(a, es)) != {}
    decreases |es|
  {
    hide Enabled, Apply, EnabledAdmins;
    if es != [] {
      StepKeepsAnAdmin(a, es[0]);
      AnAdminRemains(Apply(a, es[0]), es[1..]);
    }
  }

  lemma StepKeepsAnAdmin(a: Auth, e: Event)
    requires Enabled(a, e) && EnabledAdmins(a) != {}
    ensures EnabledAdmins(Apply(a, e)) != {}
  {
    hide PastAbsolute, PastIdle, Presented, RevokeAll, MakeRoom, LiveOf;
    EnforceKeepsOperators(a, e);
    var admin :| admin in EnabledAdmins(a);
    if (e.ChangeRole? || e.SetDisabled?) && e.op == admin && !GuardRefuses(a, admin) {
      var other :| other in EnabledAdmins(a) - {admin};
      assert other in EnabledAdmins(Apply(a, e));
    } else {
      assert admin in EnabledAdmins(Apply(a, e));
    }
  }
}
