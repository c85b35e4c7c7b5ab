/** Delivery of approved actions: keys, the retry loop, and what an executor ends up doing (`orchestrator/response.py`). */
module Delivery {
  import opened Common

  type Positive = n: int | 1 <= n witness 1
  const MAX_ATTEMPTS: Positive
  const DRY_RUN: bool
  const SITE_ID: string
  const ROUTES: map<string, string>

  /** One approved action, or the taking back of one. */
  datatype Request = Request(decision: int, action: string, verb: string, target: string, rule: string,
                             rollback: bool, execution: string)

  // --- keys ----------------------------------------------------------------------------------

  function Digit(n: nat): char
    requires n < 10
  {
    "0123456789"[n]
  }

  function Digits(n: nat): string { if n < 10 then [Digit(n)] else Digits(n / 10) + [Digit(n % 10)] }

  function Decimal(n: int): string { if n < 0 then "-" + Digits(-n) else Digits(n) }

  const UNDO := ":rollback"

  function ForwardKey(r: Request): string { SITE_ID + ":" + Decimal(r.decision) + ":" + r.action }

  function Key(r: Request): string { if r.rollback then ForwardKey(r) + UNDO else ForwardKey(r) }

  /** The same action of the same decision, in the same direction. */
  predicate Same(r: Request, s: Request) { r.decision == s.decision && r.action == s.action && r.rollback == s.rollback }

  /** Undoing `r` cannot be told from doing `s`. */
  predicate Mistakable(r: Request, s: Request) {
    r.rollback && !s.rollback && r.decision == s.decision && s.action == r.action + UNDO
  }

  predicate IsDigit(c: char) { '0' <= c <= '9' }

  lemma {:induction false} DigitsAreDigits(n: nat)
    ensures Digits(n) != "" && forall k :: 0 <= k < |Digits(n)| ==> IsDigit(Digits(n)[k])
  {
    if n >= 10 { DigitsAreDigits(n / 10); }
  }

  lemma {:induction false} DigitsAreInjective(a: nat, b: nat)
    requires Digits(a) == Digits(b)
    ensures a == b
    decreases a
  {
    LastDigit(a);
    LastDigit(b);
    SameDigit(a % 10, b % 10);
    if a >= 10 && b >= 10 { DigitsAreInjective(a / 10, b / 10); }
    assert a == a / 10 * 10 + a % 10 && b == b / 10 * 10 + b % 10;
  }

  lemma SameDigit(a: nat, b: nat)
    requires a < 10 && b < 10 && Digit(a) == Digit(b)
    ensures a == b
  {
  }

  lemma LastDigit(n: nat)
    ensures var s := Digits(n);
      |s| > 0 && s[|s| - 1] == Digit(n % 10) && (n < 10 <==> |s| == 1) && (n >= 10 ==> s[..|s| - 1] == Digits(n / 10))
  {
    if n >= 10 {
      DigitsAreDigits(n / 10);
      var s := Digits(n);
      assert s[..|s| - 1] == Digits(n / 10);
    }
  }

  /** A number read back from its decimal digits. */
  function ReadDigits(s: string): int {
    if s == "" then 0 else 10 * ReadDigits(s[..|s| - 1]) + (s[|s| - 1] as int - '0' as int)
  }

  /** The digits are those of the number, most significant first, with no zero in front. */
  lemma {:induction false} DigitsReadBack(n: nat)
    ensures ReadDigits(Digits(n)) == n
    ensures n > 0 ==> Digits(n)[0] != '0'
  {
    LastDigit(n);
    DigitIs(n % 10);
    if n >= 10 {
      DigitsReadBack(n / 10);
      LastDigit(n / 10);
      assert Digits(n)[0] == Digits(n / 10)[0];
    } else {
      assert Digits(n)[..0] == "";
    }
  }

  lemma DigitIs(n: nat)
    requires n < 10
    ensures Digit(n) as int - '0' as int == n && (n > 0 ==> Digit(n) != '0')
  {
  }

  lemma DecimalIsInjective(a: int, b: int)
    requires Decimal(a) == Decimal(b)
    ensures a == b
  {
    DigitsAreDigits(if a < 0 then -a else a);
    DigitsAreDigits(if b < 0 then -b else b);
    var s, t := Decimal(a), Decimal(b);
    if a < 0 {
      assert t[0] == '-';
      assert s[1..] == Digits(-a) && t[1..] == Digits(-b);
      DigitsAreInjective(-a, -b);
    } else {
      assert s[0] != '-';
      DigitsAreInjective(a, b);
    }
  }

  lemma DecimalHasNoColon(n: int)
    ensures ':' !in Decimal(n)
  {
    DigitsAreDigits(if n < 0 then -n else n);
  }

  lemma HeadOf(a: string, x: string)
    requires ':' !in a
    ensures (a + ":" + x)[0] == ':' <==> a == ""
  {
    if a != "" { assert a[0] in a; }
  }

  /** Text up to the first colon is read back, and so is the rest. */
  lemma {:induction false} FirstColon(a: string, x: string, b: string, y: string)
    requires ':' !in a && ':' !in b && a + ":" + x == b + ":" + y
    ensures a == b && x == y
  {
    var s, t := a + ":" + x, b + ":" + y;
    HeadOf(a, x);
    HeadOf(b, y);
    if a == "" || b == "" {
      assert a == b;
      assert s[1..] == x && t[1..] == y;
    } else {
      assert s[0] == a[0] && t[0] == b[0];
      assert s[1..] == a[1..] + ":" + x && t[1..] == b[1..] + ":" + y;
      assert ':' !in a[1..] && ':' !in b[1..];
      FirstColon(a[1..], x, b[1..], y);
    }
  }

  function Tail(r: Request): string { if r.rollback then r.action + UNDO else r.action }

  lemma KeyParts(r: Request)
    ensures Key(r) == (SITE_ID + ":") + (Decimal(r.decision) + ":" + Tail(r))
  {
  }

  lemma Cancel(p: string, x: string, y: string)
    requires p + x == p + y
    ensures x == y
  {
    assert (p + x)[|p|..] == x && (p + y)[|p|..] == y;
  }

  lemma CancelRight(x: string, y: string, p: string)
    requires x + p == y + p
    ensures x == y
  {
    assert |x| == |y|;
    assert (x + p)[..|x|] == x && (y + p)[..|y|] == y;
  }

  /** Two requests share a key exactly when they are the same action, or one is named like the other's undoing. */
  lemma KeysAgreeIff(r: Request, s: Request)
    ensures Key(r) == Key(s) <==> Same(r, s) || Mistakable(r, s) || Mistakable(s, r)
  {
    hide Decimal, Key;
    KeyParts(r);
    KeyParts(s);
    if Key(r) == Key(s) {
      var a, b := Decimal(r.decision) + ":" + Tail(r), Decimal(s.decision) + ":" + Tail(s);
      Cancel(SITE_ID + ":", a, b);
      DecimalHasNoColon(r.decision);
      DecimalHasNoColon(s.decision);
      FirstColon(Decimal(r.decision), Tail(r), Decimal(s.decision), Tail(s));
      DecimalIsInjective(r.decision, s.decision);
      if r.rollback && s.rollback { CancelRight(r.action, s.action, UNDO); }
    }
  }

  /** Undoing action `a` of a decision, and doing its action `a:rollback`, travel under one key. */
  lemma TwoActionsOneKey(decision: int, action: string)
    ensures var undo := Request(decision, action, "", "", "", true, "");
      var other := Request(decision, action + UNDO, "", "", "", false, "");
      Key(undo) == Key(other) && !Same(undo, other)
  {
    KeysAgreeIff(Request(decision, action, "", "", "", true, ""), Request(decision, action + UNDO, "", "", "", false, ""));
  }

  // --- one delivery ------------------------------------------------------------------------------

  datatype Status = DONE | FAILED | BLOCKED | SIMULATED

  function StatusNamed(word: string): Status {
    match word
    case "DONE" => DONE
    case "BLOCKED" => BLOCKED
    case "SIMULATED" => SIMULATED
    case _ => FAILED
  }

  const STATUS_WORDS := ["DONE", "FAILED", "BLOCKED", "SIMULATED"]

  function Word(s: Status): string {
    match s
    case DONE => "DONE"
    case FAILED => "FAILED"
    case BLOCKED => "BLOCKED"
    case SIMULATED => "SIMULATED"
  }

  /** The four words name the four statuses one to one; any other reply is a failure. */
  lemma StatusWords(s: Status, w: string)
    ensures StatusNamed(Word(s)) == s
    ensures Word(StatusNamed(w)) == if w in STATUS_WORDS then w else "FAILED"
  {
  }

  datatype Answer =
    | TransportError
    | ConnectorRefused
    | Raised
    | Reply(status: string, ref: string)

  datatype Connector = Connector(name: string, verbs: set<string>, undoRefusal: string)

  datatype Receipt = Receipt(status: Status, connector: string, key: string, execution: string, attempts: nat,
                             ref: string)

  /** The connector name a class of action is routed to, or "". */
  function RouteFor(rule: string): string {
    var own := Lower(Strip(rule));
    if own in ROUTES && ROUTES[own] != "" then ROUTES[own] else if "*" in ROUTES then ROUTES["*"] else ""
  }

  /** The connector itself, when one of that name is configured. */
  function Routed(connectors: map<string, Connector>, rule: string): Option<Connector> {
    var name := RouteFor(rule);
    var slot := Lower(Strip(name));
    if name != "" && slot in connectors then Some(connectors[slot]) else None
  }

  predicate Accepts(c: Connector, r: Request) {
    (c.verbs == {} || r.rule in c.verbs) && (r.rollback ==> c.undoRefusal == "")
  }

  /** The call goes out at all. */
  predicate Sends(connectors: map<string, Connector>, r: Request) {
    Routed(connectors, r.rule).Some? && Accepts(Routed(connectors, r.rule).value, r) && !DRY_RUN
  }

  /** A class of action goes to its own connector if it has a route, and to the fallback's if not, however it is spelled. */
  lemma RoutesAre(rule: string)
    ensures var own := Lower(Strip(rule));
      && (own in ROUTES && ROUTES[own] != "" ==> RouteFor(rule) == ROUTES[own])
      && (own !in ROUTES && "*" in ROUTES ==> RouteFor(rule) == ROUTES["*"])
      && (own !in ROUTES && "*" !in ROUTES ==> RouteFor(rule) == "")
    ensures forall other :: Lower(Strip(other)) == Lower(Strip(rule)) ==> RouteFor(other) == RouteFor(rule)
  {
    hide Lower, Strip;
  }

  /** A call goes out exactly when a configured connector is routed to that performs the class and, for an undoing, can undo. */
  lemma SendsIff(connectors: map<string, Connector>, r: Request)
    ensures Sends(connectors, r) <==>
      && !DRY_RUN && RouteFor(r.rule) != "" && Lower(Strip(RouteFor(r.rule))) in connectors
      && var c := connectors[Lower(Strip(RouteFor(r.rule)))];
      && (c.verbs == {} || r.rule in c.verbs) && (r.rollback ==> c.undoRefusal == "")
  {
    hide Lower, Strip, RouteFor;
  }

  function StatusOf(a: Answer): Status { if a.Reply? then StatusNamed(a.status) else FAILED }

  /** How many calls are made when call number `n + k` is answered with `answer(n + k)`. */
  function Calls(answer: nat -> Answer, n: nat, left: nat): nat
    decreases left
  {
    if left == 0 then 0 else if answer(n).TransportError? then 1 + Calls(answer, n + 1, left - 1) else 1
  }

  lemma {:induction false} CallsAre(answer: nat -> Answer, n: nat, left: nat)
    ensures var k := Calls(answer, n, left);
      && k <= left && (left > 0 ==> k > 0)
      && (forall i: nat :: n <= i < n + k - 1 ==> answer(i).TransportError?)
      && (0 < k < left ==> !answer(n + k - 1).TransportError?)
    decreases left
  {
    if left > 0 && answer(n).TransportError? { CallsAre(answer, n + 1, left - 1); }
  }

  /** Everything that has gone over the wire. */
  class Wire {
    var sent: seq<Request>
    /** What comes back for each call in turn, as the network and the executor decide. */
    const answer: nat -> Answer

    constructor (answer: nat -> Answer)
      ensures sent == [] && this.answer == answer
    {
      sent := [];
      this.answer := answer;
    }

    method Call(r: Request) returns (a: Answer)
      modifies this
      ensures sent == old(sent) + [r] && a == answer(|old(sent)|)
    {
      a := answer(|sent|);
      sent := sent + [r];
    }

    /** Deliver one approved action; every failure becomes a receipt. */
    method DeliverAction(connectors: map<string, Connector>, request: Request, execution: string)
      returns (receipt: Receipt)
      modifies this
      ensures receipt.key == Key(request) && receipt.execution == execution
      ensures receipt.connector ==
        match Routed(connectors, request.rule)
        case Some(c) => c.name
        case None => if RouteFor(request.rule) != "" then RouteFor(request.rule) else "(unrouted)"
      ensures receipt.attempts == if Sends(connectors, request) then Calls(answer, |old(sent)|, MAX_ATTEMPTS) else 0
      ensures sent == old(sent) + Stamped(request, execution, receipt.attempts)
      ensures receipt.attempts > 0 ==> receipt.status == StatusOf(answer(|sent| - 1))
      ensures forall i: nat :: |old(sent)| <= i < |sent| - 1 ==> answer(i).TransportError?
      ensures 0 < receipt.attempts < MAX_ATTEMPTS ==> !answer(|sent| - 1).TransportError?
      ensures receipt.status == DONE <==> receipt.attempts > 0 && answer(|sent| - 1).Reply? && answer(|sent| - 1).status == "DONE"
      ensures receipt.attempts > 0 && answer(|sent| - 1).Reply? ==>
        receipt.ref == answer(|sent| - 1).ref
        && Word(receipt.status) == if answer(|sent| - 1).status in STATUS_WORDS then answer(|sent| - 1).status else "FAILED"
      ensures receipt.attempts > 0 && !answer(|sent| - 1).Reply? ==> receipt.status == FAILED
      ensures receipt.attempts == 0 ==>
        receipt.status ==
          if Routed(connectors, request.rule).None? then FAILED
          else if !Accepts(Routed(connectors, request.rule).value, request) then BLOCKED
          else SIMULATED
    {
      forall w: string { StatusWords(FAILED, w); }
      CallsAre(answer, |sent|, MAX_ATTEMPTS);
      StampedIs(request, execution, if Sends(connectors, request) then Calls(answer, |sent|, MAX_ATTEMPTS) else 0);
      var found := Routed(connectors, request.rule);
      if found.None? {
        var name := RouteFor(request.rule);
        return Receipt(FAILED, if name != "" then name else "(unrouted)", Key(request), execution, 0, "");
      }
      var connector := found.value;
      if !Accepts(connector, request) {
        return Receipt(BLOCKED, connector.name, Key(request), execution, 0, "");
      }
      if DRY_RUN {
        return Receipt(SIMULATED, connector.name, Key(request), execution, 0, "");
      }
      receipt := Attempt(connector.name, request, execution);
    }

    /** The retry loop. */
    method Attempt(name: string, request: Request, execution: string) returns (receipt: Receipt)
      modifies this
      ensures receipt.key == Key(request) && receipt.execution == execution && receipt.connector == name
      ensures receipt.attempts == Calls(answer, |old(sent)|, MAX_ATTEMPTS) > 0
      ensures sent == old(sent) + Stamped(request, execution, receipt.attempts) && |sent| == |old(sent)| + receipt.attempts
      ensures receipt.status == StatusOf(answer(|sent| - 1))
      ensures answer(|sent| - 1).Reply? ==> receipt.ref == answer(|sent| - 1).ref
    {
      hide Key, StatusNamed;
      var stamped := request.(execution := execution);
      var attempts := 0;
      ghost var start := |sent|;
      while attempts < MAX_ATTEMPTS
        invariant attempts <= MAX_ATTEMPTS && |sent| == start + attempts
        invariant sent == old(sent) + Stamped(request, execution, attempts)
        invariant Calls(answer, start, MAX_ATTEMPTS) == attempts + Calls(answer, start + attempts, MAX_ATTEMPTS - attempts)
        invariant attempts > 0 ==> answer(start + attempts - 1).TransportError?
      {
        var a := Call(stamped);
        attempts := attempts + 1;
        match a {
          case TransportError =>
          case ConnectorRefused =>
            return Receipt(FAILED, name, Key(request), execution, attempts, "");
          case Raised =>
            return Receipt(FAILED, name, Key(request), execution, attempts, "");
          case Reply(status, ref) =>
            return Receipt(StatusNamed(status), name, Key(request), execution, attempts, ref);
        }
      }
      receipt := Receipt(FAILED, name, Key(request), execution, attempts, "");
    }
  }

  /** The same request, under one execution id, as often as it was tried. */
  function Stamped(r: Request, execution: string, k: nat): seq<Request> {
    if k == 0 then [] else Stamped(r, execution, k - 1) + [r.(execution := execution)]
  }

  // --- a whole run of deliveries --------------------------------------------------------------------

  datatype Delivery = Delivery(request: Request, execution: string)

  /** What is sent by a run of deliveries, repeats included; the tables may change between them. */
  function SentBy(answer: nat -> Answer, ds: seq<(map<string, Connector>, Delivery)>): seq<Request> {
    if ds == [] then []
    else
      var before, last := SentBy(answer, ds[..|ds| - 1]), ds[|ds| - 1];
      var k := if Sends(last.0, last.1.request) then Calls(answer, |before|, MAX_ATTEMPTS) else 0;
      before + Stamped(last.1.request, last.1.execution, k)
  }

  lemma {:induction false} StampedIs(r: Request, execution: string, k: nat)
    ensures |Stamped(r, execution, k)| == k
    ensures forall i :: 0 <= i < k ==> Stamped(r, execution, k)[i] == r.(execution := execution)
  {
    if k > 0 { StampedIs(r, execution, k - 1); }
  }

  /** Within one delivery: one key, one execution id, a bounded number of calls, each after a silent one. */
  lemma DeliveryIsOneAction(answer: nat -> Answer, ds: seq<(map<string, Connector>, Delivery)>, d: (map<string, Connector>, Delivery))
    ensures var before, after := SentBy(answer, ds), SentBy(answer, ds + [d]);
      && before <= after && |after| <= |before| + MAX_ATTEMPTS
      && (forall i :: |before| <= i < |after| ==>
            Key(after[i]) == Key(d.1.request) && after[i].execution == d.1.execution && Same(after[i], d.1.request))
      && (forall i: nat :: |before| <= i < |after| - 1 ==> answer(i).TransportError?)
  {
    hide Sends;
    assert (ds + [d])[..|ds|] == ds;
    var before := SentBy(answer, ds);
    var k := if Sends(d.0, d.1.request) then Calls(answer, |before|, MAX_ATTEMPTS) else 0;
    StampedIs(d.1.request, d.1.execution, k);
    CallsAre(answer, |before|, MAX_ATTEMPTS);
  }

  // --- an executor that performs each key once ---------------------------------------------------------

  /** What it performs, of the requests that reach it. */
  function Performed(arrived: seq<Request>): seq<Request> {
    if arrived == [] then []
    else
      var done, r := Performed(arrived[..|arrived| - 1]), arrived[|arrived| - 1];
      if exists k :: 0 <= k < |done| && Key(done[k]) == Key(r) then done else done + [r]
  }

  ghost predicate KeysDiffer(done: seq<Request>) { forall i, j :: 0 <= i < j < |done| ==> Key(done[i]) != Key(done[j]) }

  lemma {:induction false} PerformedKeys(arrived: seq<Request>)
    ensures KeysDiffer(Performed(arrived))
    ensures forall r :: r in Performed(arrived) ==> r in arrived
    ensures forall r :: r in arrived ==> exists k :: 0 <= k < |Performed(arrived)| && Key(Performed(arrived)[k]) == Key(r)
  {
    hide Key;
    if arrived != [] {
      var front, r := arrived[..|arrived| - 1], arrived[|arrived| - 1];
      PerformedKeys(front);
      assert arrived == front + [r];
      var done, all := Performed(front), Performed(arrived);
      assert done <= all;
      forall s | s in arrived ensures exists k :: 0 <= k < |all| && Key(all[k]) == Key(s) {
        if s in front {
          var k :| 0 <= k < |done| && Key(done[k]) == Key(s);
          assert all[k] == done[k];
        } else if all == done + [r] {
          assert all[|done|] == r;
        }
      }
    }
  }

  /** Each action, in each direction, is performed at most once, however often it is retried or delivered again. */
  lemma AtMostOnce(arrived: seq<Request>, i: nat, j: nat)
    requires i < j < |Performed(arrived)|
    ensures !Same(Performed(arrived)[i], Performed(arrived)[j])
  {
    PerformedKeys(arrived);
    KeysAgreeIff(Performed(arrived)[i], Performed(arrived)[j]);
  }

  predicate Delivered(ds: seq<(map<string, Connector>, Delivery)>, r: Request) {
    exists k :: 0 <= k < |ds| && Same(ds[k].1.request, r)
  }

  lemma {:induction false} SentIsDelivered(answer: nat -> Answer, ds: seq<(map<string, Connector>, Delivery)>)
    ensures forall r :: r in SentBy(answer, ds) ==> Delivered(ds, r)
  {
    hide Sends, Calls;
    if ds != [] {
      var front, last := ds[..|ds| - 1], ds[|ds| - 1];
      SentIsDelivered(answer, front);
      var before := SentBy(answer, front);
      var k := if Sends(last.0, last.1.request) then Calls(answer, |before|, MAX_ATTEMPTS) else 0;
      StampedIs(last.1.request, last.1.execution, k);
      forall r | r in SentBy(answer, ds) ensures Delivered(ds, r) {
        if r in before {
          var i :| 0 <= i < |front| && Same(front[i].1.request, r);
          assert Same(ds[i].1.request, r);
        } else {
          assert Same(ds[|ds| - 1].1.request, r);
        }
      }
    }
  }

  /** Over a whole run of deliveries, whatever gets lost: only what was delivered is done, and nothing twice. */
  lemma RunActsOnce(answer: nat -> Answer, ds: seq<(map<string, Connector>, Delivery)>, arrived: seq<Request>)
    requires forall r :: r in arrived ==> r in SentBy(answer, ds)
    ensures forall r :: r in Performed(arrived) ==> Delivered(ds, r)
    ensures forall i, j :: 0 <= i < j < |Performed(arrived)| ==> !Same(Performed(arrived)[i], Performed(arrived)[j])
  {
    hide Performed, SentBy, Delivered, Same;
    SentIsDelivered(answer, ds);
    PerformedKeys(arrived);
    forall i, j | 0 <= i < j < |Performed(arrived)| ensures !Same(Performed(arrived)[i], Performed(arrived)[j]) {
      AtMostOnce(arrived, i, j);
    }
  }

  /** The request itself, not one mistaken for it, is among those performed. */
  predicate Served(arrived: seq<Request>, r: Request) {
    exists k :: 0 <= k < |Performed(arrived)| && Same(Performed(arrived)[k], r)
  }

  ghost predicate Unmistakable(arrived: seq<Request>) {
    forall r, s :: r in arrived && s in arrived ==> !Mistakable(r, s)
  }

  /** Every action that arrives is performed as itself, exactly when no action is named like the undoing of another. */
  lemma ServedIff(arrived: seq<Request>)
    ensures (forall r :: r in arrived ==> Served(arrived, r)) <==> Unmistakable(arrived)
  {
    hide Key, Performed, Mistakable;
    PerformedKeys(arrived);
    var done := Performed(arrived);
    if Unmistakable(arrived) {
      forall r | r in arrived ensures Served(arrived, r) {
        var k :| 0 <= k < |done| && Key(done[k]) == Key(r);
        assert done[k] in arrived;
        KeysAgreeIff(done[k], r);
      }
    }
    if forall r :: r in arrived ==> Served(arrived, r) {
      forall r, s | r in arrived && s in arrived ensures !Mistakable(r, s) {
        if Mistakable(r, s) { TwoServed(arrived, r, s); }
      }
    }
  }

  lemma TwoServed(arrived: seq<Request>, r: Request, s: Request)
    requires KeysDiffer(Performed(arrived)) && Served(arrived, r) && Served(arrived, s)
    ensures !Mistakable(r, s)
  {
    hide Key, Performed;
    var done := Performed(arrived);
    var j :| 0 <= j < |done| && Same(done[j], r);
    var k :| 0 <= k < |done| && Same(done[k], s);
    if Mistakable(r, s) {
      KeysAgreeIff(done[j], done[k]);
      assert false;
    }
  }
}
