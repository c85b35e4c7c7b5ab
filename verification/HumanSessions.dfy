/** Operator sessions: sign-in with a cap, timeouts, refresh rotation, locks (`orchestrator/human_auth.py`). */
module HumanSessions {
  import opened Common

  type Ticks = n: int | 1 <= n witness 60
  /** Clock ticks in a minute. */
  const MINUTE: Ticks

  type OpId = nat
  type SessId = nat
  type Token = string

  /** A keyed digest without collisions. */
  datatype Digest = Digest(token: Token)

  datatype Reason = ABSOLUTE | IDLE | SESSION_LIMIT | LOCKED | ADMIN_REVOKE | USER_LOGOUT
  datatype Revocation = Revocation(at: int, reason: Reason)

  datatype Policy = Policy(idleMinutes: int, absoluteMinutes: int, maxSessions: int, lockThreshold: int, lockMinutes: int)
  {
    /** What `_validate_policy` lets an administrator store. */
    predicate Valid() {
      && 5 <= idleMinutes <= 1440 && 30 <= absoluteMinutes <= 10080 && idleMinutes <= absoluteMinutes
      && 1 <= maxSessions <= 20 && 3 <= lockThreshold <= 20 && 1 <= lockMinutes <= 1440
    }
  }

  const DEFAULT_POLICY := Policy(30, 480, 5, 5, 15)

  datatype Operator = Operator(admin: bool, disabled: bool, failed: nat, lockedUntil: Option<int>)

  datatype Session = Session(operator: OpId, digest: Digest, created: int, lastSeen: int, absoluteExpires: int,
                             revoked: Option<Revocation>)

  type Sessions = map<SessId, Session>

  /**
   The tables, with the history no table keeps: every refresh token handed out, every one accepted, and
   the cap in force at each operator's last sign-in.
   */
  datatype Auth = Auth(operators: map<OpId, Operator>, sessions: Sessions, policy: Policy, clock: int,
                       issued: set<Token>, accepted: seq<Token>, caps: map<OpId, int>)

  const EMPTY := Auth(map[], map[], DEFAULT_POLICY, 0, {}, [], map[])

  // --- deadlines --------------------------------------------------------------------

  /** Whichever comes first: what sign-in stamped, or what the policy in force now would give. */
  function AbsoluteDeadline(x: Session, p: Policy): int {
    var live := x.created + p.absoluteMinutes * MINUTE;
    if x.absoluteExpires <= live then x.absoluteExpires else live
  }

  predicate PastAbsolute(x: Session, p: Policy, now: int) { now >= AbsoluteDeadline(x, p) }

  predicate PastIdle(x: Session, p: Policy, now: int) { now >= x.lastSeen + p.idleMinutes * MINUTE }

  predicate TimedOut(x: Session, p: Policy, now: int) { PastAbsolute(x, p, now) || PastIdle(x, p, now) }

  predicate Locked(o: Operator, now: int) { o.lockedUntil.Some? && o.lockedUntil.value > now }

  // --- revocation ----------------------------------------------------------------------

  /** The update touches a row only while it is unrevoked. */
  function Revoke(x: Session, now: int, why: Reason): Session {
    if x.revoked.Some? then x else x.(revoked := Some(Revocation(now, why)))
  }

  function RevokeOne(xs: Sessions, sid: SessId, now: int, why: Reason): Sessions {
    if sid in xs then xs[sid := Revoke(xs[sid], now, why)] else xs
  }

  function RevokeAll(xs: Sessions, op: OpId, now: int, why: Reason): Sessions {
    map sid | sid in xs :: if xs[sid].operator == op then Revoke(xs[sid], now, why) else xs[sid]
  }

  predicate IsUnrevoked(xs: Sessions, op: OpId, sid: SessId) {
    sid in xs && xs[sid].operator == op && xs[sid].revoked.None?
  }

  function Unrevoked(xs: Sessions, op: OpId): set<SessId> {
    set sid | sid in xs && IsUnrevoked(xs, op, sid)
  }

  // --- making room -----------------------------------------------------------------------

  predicate Distinct<T(==)>(q: seq<T>) { forall i, j :: 0 <= i < j < |q| ==> q[i] != q[j] }

  predicate NotNewer(x: Session, y: Session) {
    x.lastSeen < y.lastSeen || (x.lastSeen == y.lastSeen && x.created <= y.created)
  }

  /** The operator's unrevoked sessions, least recently seen first; ties are left to the database. */
  ghost predicate IsListing(xs: Sessions, op: OpId, rows: seq<SessId>) {
    && Distinct(rows)
    && (forall i :: 0 <= i < |rows| ==> IsUnrevoked(xs, op, rows[i]))
    && (forall sid :: IsUnrevoked(xs, op, sid) ==> sid in rows)
    && (forall i, j :: 0 <= i < j < |rows| ==> NotNewer(xs[rows[i]], xs[rows[j]]))
  }

  function LiveOf(xs: Sessions, rows: seq<SessId>, p: Policy, now: int): seq<SessId>
    requires forall i :: 0 <= i < |rows| ==> rows[i] in xs
  {
    if rows == [] then []
    else
      var front, l := rows[..|rows| - 1], rows[|rows| - 1];
      if TimedOut(xs[l], p, now) then LiveOf(xs, front, p, now) else LiveOf(xs, front, p, now) + [l]
  }

  function Overflow(live: seq<SessId>, cap: int): seq<SessId> {
    var keep := Max(0, cap - 1);
    if |live| > keep then live[..|live| - keep] else []
  }

  function MakeRoom(xs: Sessions, rows: seq<SessId>, p: Policy, now: int): Sessions
    requires forall i :: 0 <= i < |rows| ==> rows[i] in xs
  {
    var evicted := Overflow(LiveOf(xs, rows, p, now), p.maxSessions);
    map sid | sid in xs ::
      if sid !in rows then xs[sid]
      else if PastAbsolute(xs[sid], p, now) then Revoke(xs[sid], now, ABSOLUTE)
      else if PastIdle(xs[sid], p, now) then Revoke(xs[sid], now, IDLE)
      else if sid in evicted then Revoke(xs[sid], now, SESSION_LIMIT)
      else xs[sid]
  }

  // --- steps ----------------------------------------------------------------------------------

  /**
   `SignIn` is a credential check that succeeded, with the policy that check read; `BadCredential` one that
   failed. `Access` is an authenticated request (`subject`: the token names the session's operator).
   */
  datatype Event =
    | CreateUser(op: OpId, admin: bool, now: int)
    | ExpireLock(op: OpId, now: int)
    | SignIn(op: OpId, sid: SessId, token: Token, policy: Policy, rows: seq<SessId>, now: int)
    | BadCredential(op: OpId, now: int)
    | Access(sid: SessId, subject: bool, now: int)
    | Refresh(token: Token, principal: Option<SessId>, rotated: Token, now: int)
    | Logout(sid: SessId, now: int)
    | ChangeRole(op: OpId, admin: bool, now: int)
    | SetDisabled(op: OpId, disabled: bool, now: int)
    | Unlock(op: OpId, now: int)
    | ResetPassword(op: OpId, now: int)
    | ChangePassword(op: OpId, now: int)
    | SetPolicy(policy: Policy, now: int)

  predicate Blank(t: Token) { Strip(t) == "" }

  /** Random ids and tokens are new, and a listing is what the query returned. */
  ghost predicate Enabled(a: Auth, e: Event) {
    && a.clock <= e.now
    && match e
       case SignIn(op, sid, token, p, rows, _) =>
         sid !in a.sessions && token !in a.issued && p.Valid() && IsListing(a.sessions, op, rows)
       case Refresh(_, _, rotated, _) => rotated !in a.issued
       case _ => true
  }

  predicate MaySignIn(a: Auth, op: OpId, now: int) {
    op in a.operators && !a.operators[op].disabled && !Locked(a.operators[op], now)
  }

  function Opened(a: Auth, op: OpId, sid: SessId, token: Token, p: Policy, rows: seq<SessId>, now: int): Auth
    requires op in a.operators && forall i :: 0 <= i < |rows| ==> rows[i] in a.sessions
  {
    var x := Session(op, Digest(token), now, now, now + p.absoluteMinutes * MINUTE, None);
    a.(operators := a.operators[op := a.operators[op].(failed := 0, lockedUntil := None)],
       sessions := MakeRoom(a.sessions, rows, p, now)[sid := x],
       issued := a.issued + {token}, caps := a.caps[op := p.maxSessions], clock := now)
  }

  function Failed(a: Auth, op: OpId, now: int): Auth
    requires op in a.operators
  {
    var o := a.operators[op].(failed := a.operators[op].failed + 1);
    if o.failed >= a.policy.lockThreshold then
      a.(operators := a.operators[op := o.(lockedUntil := Some(now + a.policy.lockMinutes * MINUTE))],
         sessions := RevokeAll(a.sessions, op, now, LOCKED), clock := now)
    else a.(operators := a.operators[op := o], clock := now)
  }

  /** Whether the session passes, and the store after the check: a refusal still commits its revocation. */
  function Enforce(a: Auth, sid: SessId, now: int): (bool, Auth) {
    if sid !in a.sessions || a.sessions[sid].revoked.Some? then (false, a.(clock := now))
    else
      var x := a.sessions[sid];
      if PastAbsolute(x, a.policy, now) then (false, a.(sessions := RevokeOne(a.sessions, sid, now, ABSOLUTE), clock := now))
      else if PastIdle(x, a.policy, now) then (false, a.(sessions := RevokeOne(a.sessions, sid, now, IDLE), clock := now))
      else if x.operator !in a.operators || a.operators[x.operator].disabled then (false, a.(clock := now))
      else (true, a.(sessions := a.sessions[sid := x.(lastSeen := now)], clock := now))
  }

  predicate Holds(xs: Sessions, sid: SessId, d: Digest) { sid in xs && xs[sid].digest == d }

  ghost function Holder(xs: Sessions, d: Digest): Option<SessId> {
    if sid :| Holds(xs, sid, d) then Some(sid) else None
  }

  /** The session a refresh token may rotate, before timeouts are looked at. */
  ghost function Presented(a: Auth, token: Token, principal: Option<SessId>): Option<SessId> {
    var o := Holder(a.sessions, Digest(token));
    if Blank(token) || o.None? || a.sessions[o.value].revoked.Some? then None
    else if principal.Some? && principal.value != o.value then None
    else o
  }

  ghost function Refreshed(a: Auth, token: Token, principal: Option<SessId>, rotated: Token, now: int): Auth {
    var o := Presented(a, token, principal);
    if o.None? then a.(clock := now)
    else
      var (ok, b) := Enforce(a, o.value, now);
      if !ok then b
      else b.(sessions := b.sessions[o.value := b.sessions[o.value].(digest := Digest(rotated))],
              issued := b.issued + {rotated}, accepted := b.accepted + [token])
  }

  function EnabledAdmins(a: Auth): set<OpId> {
    set op | op in a.operators && a.operators[op].admin && !a.operators[op].disabled
  }

  /** `_guard_last_admin`: refuse to lose the last enabled administrator. */
  predicate GuardRefuses(a: Auth, op: OpId)
    requires op in a.operators
  {
    a.operators[op].admin && !a.operators[op].disabled && EnabledAdmins(a) - {op} == {}
  }

  ghost function Apply(a: Auth, e: Event): Auth
    requires Enabled(a, e)
  {
    match e
    case CreateUser(op, admin, now) =>
      if op in a.operators then a.(clock := now)
      else a.(operators := a.operators[op := Operator(admin, false, 0, None)], clock := now)
    case ExpireLock(op, now) =>
      if op in a.operators && a.operators[op].lockedUntil.Some? && !Locked(a.operators[op], now)
      then a.(operators := a.operators[op := a.operators[op].(failed := 0, lockedUntil := None)], clock := now)
      else a.(clock := now)
    case SignIn(op, sid, token, p, rows, now) =>
      if MaySignIn(a, op, now) then Opened(a, op, sid, token, p, rows, now) else a.(clock := now)
    case BadCredential(op, now) => if op in a.operators then Failed(a, op, now) else a.(clock := now)
    case Access(sid, _, now) => Enforce(a, sid, now).1
    case Refresh(token, principal, rotated, now) => Refreshed(a, token, principal, rotated, now)
    case Logout(sid, now) => a.(sessions := RevokeOne(a.sessions, sid, now, USER_LOGOUT), clock := now)
    case ChangeRole(op, admin, now) =>
      if op !in a.operators || a.operators[op].admin == admin || (!admin && GuardRefuses(a, op)) then a.(clock := now)
      else a.(operators := a.operators[op := a.operators[op].(admin := admin)], clock := now)
    case SetDisabled(op, disabled, now) =>
      if op !in a.operators || a.operators[op].disabled == disabled || (disabled && GuardRefuses(a, op)) then a.(clock := now)
      else a.(operators := a.operators[op := a.operators[op].(disabled := disabled)],
              sessions := if disabled then RevokeAll(a.sessions, op, now, ADMIN_REVOKE) else a.sessions, clock := now)
    case Unlock(op, now) =>
      if op !in a.operators || (!Locked(a.operators[op], now) && a.operators[op].failed == 0) then a.(clock := now)
      else a.(operators := a.operators[op := a.operators[op].(failed := 0, lockedUntil := None)], clock := now)
    case ResetPassword(op, now) =>
      if op !in a.operators then a.(clock := now)
      else a.(operators := a.operators[op := a.operators[op].(failed := 0, lockedUntil := None)],
              sessions := RevokeAll(a.sessions, op, now, ADMIN_REVOKE), clock := now)
    case ChangePassword(op, now) =>
      if op !in a.operators then a.(clock := now)
      else a.(operators := a.operators[op := a.operators[op].(failed := 0)], clock := now)
    case SetPolicy(p, now) => if p.Valid() then a.(policy := p, clock := now) else a.(clock := now)
  }

  /** The session a request was let through on, if it was. */
  ghost function Accepts(a: Auth, e: Event): Option<SessId>
    requires Enabled(a, e)
  {
    match e
    case Access(sid, subject, now) => if Enforce(a, sid, now).0 && subject then Some(sid) else None
    case Refresh(token, principal, _, now) =>
      var o := Presented(a, token, principal);
      if o.Some? && Enforce(a, o.value, now).0 then o else None
    case _ => None
  }

  ghost predicate CanRun(a: Auth, es: seq<Event>)
    decreases |es|
  {
    es == [] || (Enabled(a, es[0]) && CanRun(Apply(a, es[0]), es[1..]))
  }

  ghost function Run(a: Auth, es: seq<Event>): Auth
    requires CanRun(a, es)
    decreases |es|
  {
    if es == [] then a else Run(Apply(a, es[0]), es[1..])
  }
}
