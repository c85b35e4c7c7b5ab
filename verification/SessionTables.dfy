/** The operator and session tables updated in place, refining the steps of HumanSessions. */
module SessionTables {
  import opened Common
  import opened HumanSessions
  import opened HumanSessionFacts

  function Purge(xs: Sessions, rows: seq<SessId>, p: Policy, now: int): Sessions {
    map sid | sid in xs ::
      if sid !in rows then xs[sid]
      else if PastAbsolute(xs[sid], p, now) then Revoke(xs[sid], now, ABSOLUTE)
      else if PastIdle(xs[sid], p, now) then Revoke(xs[sid], now, IDLE)
      else xs[sid]
  }

  function Evict(xs: Sessions, out: seq<SessId>, now: int): Sessions {
    map sid | sid in xs :: if sid in out then Revoke(xs[sid], now, SESSION_LIMIT) else xs[sid]
  }

  function RevokeListed(xs: Sessions, rows: seq<SessId>, now: int, why: Reason): Sessions {
    map sid | sid in xs :: if sid in rows then Revoke(xs[sid], now, why) else xs[sid]
  }

  lemma ListedIsAll(xs: Sessions, op: OpId, rows: seq<SessId>, now: int, why: Reason)
    requires IsListing(xs, op, rows)
    ensures RevokeListed(xs, rows, now, why) == RevokeAll(xs, op, now, why)
  {
    forall sid | sid in xs && sid in rows ensures xs[sid].operator == op {
      var i :| 0 <= i < |rows| && rows[i] == sid;
      assert IsUnrevoked(xs, op, rows[i]);
    }
    forall sid | sid in xs && xs[sid].operator == op && sid !in rows ensures xs[sid].revoked.Some? {
      assert !IsUnrevoked(xs, op, sid);
    }
  }

  lemma PurgeThenEvict(xs: Sessions, rows: seq<SessId>, p: Policy, now: int)
    requires Distinct(rows) && forall i :: 0 <= i < |rows| ==> rows[i] in xs
    ensures MakeRoom(xs, rows, p, now)
            == Evict(Purge(xs, rows, p, now), Overflow(LiveOf(xs, rows, p, now), p.maxSessions), now)
  {
    var live := LiveOf(xs, rows, p, now);
    LiveIs(xs, rows, p, now);
    assert forall sid :: sid in Overflow(live, p.maxSessions) ==> sid in live;
  }

  lemma PurgeStep(xs: Sessions, rows: seq<SessId>, i: nat, p: Policy, now: int)
    requires Distinct(rows) && i < |rows| && rows[i] in xs
    requires forall k :: 0 <= k < |rows| ==> rows[k] in xs
    ensures var sid, ys := rows[i], Purge(xs, rows[..i], p, now);
      && ys[sid] == xs[sid]
      && Purge(xs, rows[..i + 1], p, now) ==
           (if PastAbsolute(xs[sid], p, now) then RevokeOne(ys, sid, now, ABSOLUTE)
            else if PastIdle(xs[sid], p, now) then RevokeOne(ys, sid, now, IDLE)
            else ys)
      && LiveOf(xs, rows[..i + 1], p, now) ==
           LiveOf(xs, rows[..i], p, now) + (if TimedOut(xs[sid], p, now) then [] else [sid])
  {
    var sid := rows[i];
    assert rows[..i + 1] == rows[..i] + [sid] && sid !in rows[..i];
    assert rows[..i + 1][..i] == rows[..i];
    hide AbsoluteDeadline;
  }

  lemma EvictStep(xs: Sessions, out: seq<SessId>, i: nat, now: int)
    requires i < |out|
    ensures Evict(xs, out[..i + 1], now) == RevokeOne(Evict(xs, out[..i], now), out[i], now, SESSION_LIMIT)
  {
    assert out[..i + 1] == out[..i] + [out[i]];
  }

  /** Insert before the first session that was seen later. */
  function InsertSeen(xs: Sessions, rows: seq<SessId>, sid: SessId): seq<SessId>
    requires sid in xs && forall i :: 0 <= i < |rows| ==> rows[i] in xs
  {
    if rows == [] || NotNewer(xs[rows[|rows| - 1]], xs[sid]) then rows + [sid]
    else InsertSeen(xs, rows[..|rows| - 1], sid) + [rows[|rows| - 1]]
  }

  lemma {:induction false} InsertSeenSorts(xs: Sessions, rows: seq<SessId>, sid: SessId)
    requires sid in xs && sid !in rows && SortedBySeen(xs, rows) && Distinct(rows)
    ensures var r := InsertSeen(xs, rows, sid);
            SortedBySeen(xs, r) && Distinct(r) && forall x :: x in r <==> x in rows || x == sid
  {
    if rows != [] && !NotNewer(xs[rows[|rows| - 1]], xs[sid]) {
      var front, l := rows[..|rows| - 1], rows[|rows| - 1];
      assert rows == front + [l] && l !in front;
      InsertSeenSorts(xs, front, sid);
      var f := InsertSeen(xs, front, sid);
      forall i | 0 <= i < |f| ensures NotNewer(xs[f[i]], xs[l]) {
        assert f[i] in f;
        if f[i] != sid {
          var k :| 0 <= k < |front| && front[k] == f[i];
        }
      }
    }
  }

  class Tables {
    var operators: map<OpId, Operator>
    var sessions: Sessions
    var policy: Policy
    ghost var clock: int
    ghost var issued: set<Token>
    ghost var accepted: seq<Token>
    ghost var caps: map<OpId, int>

    ghost function State(): Auth
      reads this
    {
      Auth(operators, sessions, policy, clock, issued, accepted, caps)
    }

    constructor ()
      ensures State() == EMPTY && Inv(State())
    {
      operators, sessions, policy := map[], map[], DEFAULT_POLICY;
      clock, issued, accepted, caps := 0, {}, [], map[];
      new;
      EmptyIsGood();
    }

    method ListUnrevoked(op: OpId) returns (rows: seq<SessId>)
      ensures IsListing(sessions, op, rows)
    {
      var todo := sessions.Keys;
      rows := [];
      while todo != {}
        invariant todo <= sessions.Keys
        invariant SortedBySeen(sessions, rows) && Distinct(rows)
        invariant forall sid :: sid in rows <==> sid !in todo && IsUnrevoked(sessions, op, sid)
      {
        var sid :| sid in todo;
        if IsUnrevoked(sessions, op, sid) {
          InsertSeenSorts(sessions, rows, sid);
          rows := InsertSeen(sessions, rows, sid);
        }
        todo := todo - {sid};
      }
      assert forall i :: 0 <= i < |rows| ==> rows[i] in rows;
    }

    /** Clear the way for one more session: what timed out goes first, then whatever was seen longest ago. */
    method MakeRoomForSession(op: OpId, p: Policy, now: int) returns (ghost rows: seq<SessId>)
      modifies this`sessions
      ensures IsListing(old(sessions), op, rows)
      ensures sessions == MakeRoom(old(sessions), rows, p, now)
    {
      ghost var xs := sessions;
      var listed := ListUnrevoked(op);
      rows := listed;
      assert forall i :: 0 <= i < |listed| ==> listed[i] in xs;
      hide IsListing, MakeRoom, Purge, Evict, LiveOf, Overflow, SortedBySeen;
      var live := PurgeExpired(listed, p, now);
      EvictEach(Overflow(live, p.maxSessions), now);
      PurgeThenEvict(xs, listed, p, now);
    }

    method PurgeExpired(rows: seq<SessId>, p: Policy, now: int) returns (live: seq<SessId>)
      requires Distinct(rows) && forall i :: 0 <= i < |rows| ==> rows[i] in sessions
      modifies this`sessions
      ensures sessions == Purge(old(sessions), rows, p, now)
      ensures live == LiveOf(old(sessions), rows, p, now)
    {
      ghost var xs := sessions;
      live := [];
      assert Purge(xs, [], p, now) == xs;
      for i := 0 to |rows|
        invariant sessions == Purge(xs, rows[..i], p, now)
        invariant live == LiveOf(xs, rows[..i], p, now)
      {
        var sid := rows[i];
        PurgeStep(xs, rows, i, p, now);
        if PastAbsolute(sessions[sid], p, now) {
          sessions := RevokeOne(sessions, sid, now, ABSOLUTE);
        } else if PastIdle(sessions[sid], p, now) {
          sessions := RevokeOne(sessions, sid, now, IDLE);
        } else {
          live := live + [sid];
        }
      }
      assert rows[..|rows|] == rows;
    }

    method EvictEach(out: seq<SessId>, now: int)
      modifies this`sessions
      ensures sessions == Evict(old(sessions), out, now)
    {
      ghost var xs := sessions;
      assert Evict(xs, [], now) == xs;
      for i := 0 to |out|
        invariant sessions == Evict(xs, out[..i], now)
      {
        EvictStep(xs, out, i, now);
        sessions := RevokeOne(sessions, out[i], now, SESSION_LIMIT);
      }
      assert out[..|out|] == out;
    }

    /** A credential check that succeeded, down to the new session row. */
    method OpenSession(op: OpId, sid: SessId, token: Token, p: Policy, now: int)
      returns (granted: bool, ghost rows: seq<SessId>)
      requires clock <= now && sid !in sessions && token !in issued && p.Valid()
      modifies this
      ensures Enabled(old(State()), SignIn(op, sid, token, p, rows, now))
      ensures State() == Apply(old(State()), SignIn(op, sid, token, p, rows, now))
      ensures granted <==>
        && op in old(operators) && !old(operators)[op].disabled
        && (old(operators)[op].lockedUntil.Some? ==> old(operators)[op].lockedUntil.value <= now)
      ensures granted ==> sid in sessions && sessions[sid].operator == op && sessions[sid].revoked.None?
      ensures granted ==> operators == old(operators)[op := old(operators)[op].(failed := 0, lockedUntil := None)]
      ensures !granted ==> operators == old(operators) && sessions == old(sessions)
    {
      granted := op in operators && !operators[op].disabled && !Locked(operators[op], now);
      if !granted {
        rows := ListUnrevoked(op);
        clock := now;
        return;
      }
      operators := operators[op := operators[op].(failed := 0, lockedUntil := None)];
      rows := MakeRoomForSession(op, p, now);
      sessions := sessions[sid := Session(op, Digest(token), now, now, now + p.absoluteMinutes * MINUTE, None)];
      issued, caps, clock := issued + {token}, caps[op := p.maxSessions], now;
    }

    method RevokeOperatorSessions(op: OpId, now: int, why: Reason)
      modifies this`sessions
      ensures sessions == RevokeAll(old(sessions), op, now, why)
    {
      ghost var xs := sessions;
      var rows := ListUnrevoked(op);
      for i := 0 to |rows|
        invariant sessions == RevokeListed(xs, rows[..i], now, why)
      {
        assert rows[..i + 1] == rows[..i] + [rows[i]];
        assert IsUnrevoked(xs, op, rows[i]);
        hide IsListing;
        sessions := RevokeOne(sessions, rows[i], now, why);
      }
      assert rows[..|rows|] == rows;
      ListedIsAll(xs, op, rows, now, why);
    }

    /** Count a bad credential; at the threshold the account locks and its sessions end. */
    method RegisterFailure(op: OpId, now: int)
      requires clock <= now
      modifies this
      ensures State() == Apply(old(State()), BadCredential(op, now))
      ensures op in old(operators) ==>
        var o, due := old(operators)[op], old(operators)[op].failed + 1 >= policy.lockThreshold;
        operators == old(operators)[op := o.(failed := o.failed + 1,
          lockedUntil := if due then Some(now + policy.lockMinutes * MINUTE) else o.lockedUntil)]
      ensures op !in old(operators) ==> operators == old(operators) && sessions == old(sessions)
    {
      clock := now;
      if op in operators {
        var o := operators[op].(failed := operators[op].failed + 1);
        var lockedNow := o.failed >= policy.lockThreshold;
        if lockedNow {
          o := o.(lockedUntil := Some(now + policy.lockMinutes * MINUTE));
        }
        operators := operators[op := o];
        if lockedNow {
          RevokeOperatorSessions(op, now, LOCKED);
        }
      }
    }

    method EnforceSession(sid: SessId, now: int) returns (ok: bool)
      requires clock <= now
      modifies this`sessions, this`clock
      ensures ok == Enforce(old(State()), sid, now).0
      ensures State() == Enforce(old(State()), sid, now).1
    {
      clock := now;
      if sid !in sessions || sessions[sid].revoked.Some? {
        return false;
      }
      var x := sessions[sid];
      if now >= AbsoluteDeadline(x, policy) {
        sessions := RevokeOne(sessions, sid, now, ABSOLUTE);
        return false;
      }
      if now >= x.lastSeen + policy.idleMinutes * MINUTE {
        sessions := RevokeOne(sessions, sid, now, IDLE);
        return false;
      }
      if x.operator !in operators || operators[x.operator].disabled {
        return false;
      }
      sessions := sessions[sid := x.(lastSeen := now)];
      ok := true;
    }

    /** An authenticated request; a token naming another operator is refused after the session was touched. */
    method AuthenticateAccess(sid: SessId, subject: bool, now: int) returns (ok: bool)
      requires clock <= now
      modifies this`sessions, this`clock
      ensures State() == Apply(old(State()), Access(sid, subject, now))
      ensures ok <==> Accepts(old(State()), Access(sid, subject, now)) == Some(sid)
    {
      ok := EnforceSession(sid, now);
      ok := ok && subject;
    }

    method FindByDigest(d: Digest) returns (o: Option<SessId>)
      requires TokensOk(State())
      ensures o == Holder(sessions, d)
    {
      var todo := sessions.Keys;
      while todo != {}
        invariant todo <= sessions.Keys
        invariant forall sid :: sid in sessions && sid !in todo ==> sessions[sid].digest != d
      {
        var sid :| sid in todo;
        if sessions[sid].digest == d {
          assert Holds(sessions, sid, d);
          assert forall t :: Holds(sessions, t, d) ==> t == sid;
          return Some(sid);
        }
        todo := todo - {sid};
      }
      o := None;
    }

    /** Rotate the refresh token of a session that passes the same gate as a request. */
    method RefreshToken(token: Token, principal: Option<SessId>, rotated: Token, now: int) returns (ok: bool)
      requires Inv(State()) && clock <= now && rotated !in issued
      modifies this
      ensures State() == Apply(old(State()), Refresh(token, principal, rotated, now))
      ensures ok <==> Accepts(old(State()), Refresh(token, principal, rotated, now)).Some?
    {
      ok := false;
      ghost var before := State();
      if Blank(token) {
        clock := now;
        return;
      }
      var o := FindByDigest(Digest(token));
      if o.None? || sessions[o.value].revoked.Some? || (principal.Some? && principal.value != o.value) {
        clock := now;
        return;
      }
      assert Presented(before, token, principal) == o;
      ok := EnforceSession(o.value, now);
      if ok {
        sessions := sessions[o.value := sessions[o.value].(digest := Digest(rotated))];
        issued, accepted := issued + {rotated}, accepted + [token];
      }
    }

    method Logout(sid: SessId, now: int)
      requires clock <= now
      modifies this`sessions, this`clock
      ensures State() == Apply(old(State()), HumanSessions.Event.Logout(sid, now))
      ensures sid in old(sessions) ==> sid in sessions && sessions[sid].revoked.Some?
    {
      sessions, clock := RevokeOne(sessions, sid, now, USER_LOGOUT), now;
    }

    /** Disable or enable an account; disabling ends its sessions, and the last admin is refused. */
    method SetDisabled(op: OpId, disabled: bool, now: int) returns (ok: bool)
      requires clock <= now
      modifies this
      ensures State() == Apply(old(State()), HumanSessions.Event.SetDisabled(op, disabled, now))
      ensures ok <==>
        && op in old(operators) && old(operators)[op].disabled != disabled
        && (disabled && old(operators)[op].admin ==>
              exists x :: x in old(operators) && x != op && old(operators)[x].admin && !old(operators)[x].disabled)
      ensures ok ==> op in operators && operators[op].disabled == disabled
    {
      clock := now;
      ok := false;
      if op !in operators || operators[op].disabled == disabled {
        return;
      }
      if disabled && operators[op].admin && !operators[op].disabled {
        var others := set o | o in operators && operators[o].admin && !operators[o].disabled && o != op;
        assert others == EnabledAdmins(old(State())) - {op};
        assert forall x :: x in operators && x != op && operators[x].admin && !operators[x].disabled ==> x in others;
        if others == {} {
          return;
        }
      }
      operators := operators[op := operators[op].(disabled := disabled)];
      if disabled {
        RevokeOperatorSessions(op, now, ADMIN_REVOKE);
      }
      ok := true;
    }
  }
}
