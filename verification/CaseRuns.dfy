/** A case over whole runs: the timeline determines the row, and the ticketing system cannot act. */
module CaseRuns {
  import opened Common
  import opened CaseFile

  type Pusher = nat

  /** A case, the pushes now waiting for an answer, and the revisions pushed so far. */
  datatype Desk = Desk(file: Case, waiting: map<Pusher, Snapshot>, pushed: seq<nat>)

  datatype Event =
    | Grow(alert: Option<string>, title: string, severity: string)
    | Assign(assignee: string, actor: string)
    | SetState(word: string, actor: string, note: string, origin: Origin, externalState: string, at: int)
    | Escalate(tier: int, to: string, actor: string)
    | AddNote(note: string, actor: string, origin: Origin)
    | Record(fact: Fact, actor: string, origin: Origin)
    | BeginPush(who: Pusher)
    | EndPush(who: Pusher, provider: string, reply: Reply)
    | Inbound(change: Change, note: string, at: int)
    | CloseInbound(externalState: string, applied: seq<Field>, refused: seq<Field>, actor: string)

  predicate Enabled(d: Desk, e: Event) {
    match e
    case Record(fact, _, _) => fact == Action || fact == Rollback
    case BeginPush(who) => who !in d.waiting
    case EndPush(who, _, _) => who in d.waiting
    case _ => true
  }

  function FileAfter(c: Case, e: Event): Case {
    match e
    case Grow(alert, title, severity) => CaseFile.Grow(c, alert, title, severity)
    case Assign(assignee, actor) => After(c, CaseFile.Assign(c, assignee, actor))
    case SetState(word, actor, note, origin, externalState, at) =>
      After(c, CaseFile.SetState(c, word, actor, note, origin, externalState, at))
    case Escalate(tier, to, actor) => After(c, CaseFile.Escalate(c, tier, to, actor))
    case AddNote(note, actor, origin) => After(c, CaseFile.AddNote(c, note, actor, origin))
    case Record(fact, actor, origin) => c.(log := Append(c.log, fact, actor, origin))
    case BeginPush(_) => c
    case EndPush(_, _, _) => c
    case Inbound(change, note, at) => CaseFile.Inbound(c, change, note, at)
    case CloseInbound(externalState, applied, refused, actor) =>
      CaseFile.CloseInbound(c, externalState, applied, refused, actor)
  }

  function Apply(d: Desk, e: Event): Desk {
    match e
    case BeginPush(who) => d.(waiting := d.waiting[who := Snap(d.file)])
    case EndPush(who, provider, reply) =>
      if who !in d.waiting then d
      else
        Desk(CaseFile.EndPush(d.file, d.waiting[who], provider, reply), d.waiting - {who},
             if reply.Pushed? then d.pushed + [d.waiting[who].revision] else d.pushed)
    case _ => d.(file := FileAfter(d.file, e))
  }

  predicate CanRun(d: Desk, es: seq<Event>)
    decreases |es|
  {
    es == [] || (Enabled(d, es[0]) && CanRun(Apply(d, es[0]), es[1..]))
  }

  function Run(d: Desk, es: seq<Event>): Desk
    decreases |es|
  {
    if es == [] then d else Run(Apply(d, es[0]), es[1..])
  }

  // --- the timeline determines the row --------------------------------------------------------

  /** What the timeline says of a case. */
  datatype View = View(state: State, assignee: string, tier: int, revision: nat)

  const BLANK := View(NEW, "", 0, 0)

  function Tell(v: View, f: Fact): View {
    match f
    case Assigned(_, to) => v.(assignee := to, state := if to != "" && v.state == NEW then ASSIGNED else v.state)
    case Moved(_, to) => v.(state := to)
    case Escalated(tier, _) => v.(tier := tier, state := if Allowed(v.state, ESCALATED) then ESCALATED else v.state)
    case SyncOut(revision) => v.(revision := revision)
    case _ => v
  }

  function Replay(log: seq<Entry>): View {
    if log == [] then BLANK else Tell(Replay(log[..|log| - 1]), log[|log| - 1].fact)
  }

  function ViewOf(r: Row): View { View(r.state, r.assignee, r.tier, r.revision) }

  /** One timeline row follows lawfully from what came before it. */
  predicate Lawful(v: View, f: Fact) {
    match f
    case Assigned(was, _) => was == v.assignee && v.state != CLOSED
    case Moved(was, to) => was == v.state && Allowed(was, to)
    case Escalated(tier, fromTier) => fromTier == v.tier < tier <= 9 && v.state != CLOSED
    case Note(text) => |text| <= MAX_NOTE_LENGTH
    case _ => true
  }

  ghost predicate Numbered(log: seq<Entry>) { forall k :: 0 <= k < |log| ==> log[k].number == k + 1 }

  ghost predicate LawfulLog(log: seq<Entry>) {
    forall k :: 0 <= k < |log| ==> Lawful(Replay(log[..k]), log[k].fact)
  }

  ghost predicate RowInv(r: Row) {
    && (r.closedAt.Some? <==> r.state == CLOSED)
    && (r.state != CLOSED ==> r.closedBy == "" && r.closureReason.None?)
    && (r.state == NEW ==> r.assignee == "" && r.priority == PriorityFor(r.severity))
    && 0 <= r.tier <= 9
  }

  ghost predicate Inv(c: Case) {
    && Numbered(c.log) && LawfulLog(c.log)
    && Replay(c.log) == ViewOf(c.row)
    && RowInv(c.row)
  }

  lemma {:induction false} MaxOfNumbered(log: seq<Entry>)
    requires Numbered(log)
    ensures MaxNumber(log) == |log|
  {
    if log != [] { MaxOfNumbered(log[..|log| - 1]); }
  }

  /** Appending one lawful row to a numbered, lawful timeline. */
  lemma AppendIsLawful(log: seq<Entry>, fact: Fact, actor: string, origin: Origin)
    requires Numbered(log) && LawfulLog(log) && Lawful(Replay(log), fact)
    ensures var after := Append(log, fact, actor, origin);
      Numbered(after) && LawfulLog(after) && Replay(after) == Tell(Replay(log), fact)
  {
    hide Lawful, Tell;
    MaxOfNumbered(log);
    var after := Append(log, fact, actor, origin);
    assert after[..|log|] == log;
    assert forall k :: 0 <= k < |log| ==> after[..k] == log[..k];
  }

  lemma OpenSatisfiesInv(situation: string, alert: Option<string>, title: string, severity: string)
    ensures Inv(Open(situation, alert, title, severity))
  {
    var c := Open(situation, alert, title, severity);
    assert Numbered([]) && LawfulLog([]);
    AppendIsLawful([], Created, "AfraSOC", SYSTEM);
    assert Replay([]) == BLANK;
    PriorityIgnoresCase(severity);
  }

  lemma {:induction false} StripOfUpper(s: string)
    ensures Strip(Upper(s)) == Upper(Strip(s))
  {
    LeftOfUpper(s);
    RightOfUpper(StripLeft(s));
  }

  lemma {:induction false} LeftOfUpper(s: string)
    ensures StripLeft(Upper(s)) == Upper(StripLeft(s))
  {
    if s != "" && IsSpace(s[0]) {
      LeftOfUpper(s[1..]);
      assert Upper(s)[1..] == Upper(s[1..]);
    }
  }

  lemma {:induction false} RightOfUpper(s: string)
    ensures StripRight(Upper(s)) == Upper(StripRight(s))
  {
    if s != "" && IsSpace(s[|s| - 1]) {
      RightOfUpper(s[..|s| - 1]);
      assert Upper(s)[..|s| - 1] == Upper(s[..|s| - 1]);
    }
  }

  lemma PriorityIgnoresCase(severity: string)
    ensures PriorityFor(Upper(severity)) == PriorityFor(severity)
    ensures PriorityFor(Upper("MEDIUM")) == PriorityFor("")
  {
    StripOfUpper(severity);
    assert Upper(Upper(Strip(severity))) == Upper(Strip(severity));
    StripOfTight("MEDIUM");
    assert Upper("MEDIUM") == "MEDIUM";
  }

  lemma GrowKeepsInv(c: Case, alert: Option<string>, title: string, severity: string)
    requires Inv(c)
    ensures Inv(CaseFile.Grow(c, alert, title, severity))
  {
    hide Numbered, LawfulLog, Replay, PriorityFor;
  }

  lemma AssignKeepsInv(c: Case, assignee: string, actor: string)
    requires Inv(c)
    ensures Inv(After(c, CaseFile.Assign(c, assignee, actor)))
  {
    hide Numbered, LawfulLog, Replay, PriorityFor, Append, Strip, Clip;
    if c.row.state != CLOSED {
      AppendIsLawful(c.log, Assigned(c.row.assignee, Clip(Strip(assignee), 128)), actor, HUMAN);
    }
  }

  lemma SetStateKeepsInv(c: Case, word: string, actor: string, note: string, origin: Origin, externalState: string, at: int)
    requires Inv(c)
    ensures Inv(After(c, CaseFile.SetState(c, word, actor, note, origin, externalState, at)))
  {
    hide Numbered, LawfulLog, Replay, PriorityFor, Append, Strip, Clip, Upper, StateOf;
    var target := StateOf(Upper(Strip(word)));
    if target.Some? && target.value != c.row.state && Allowed(c.row.state, target.value) {
      AppendIsLawful(c.log, Moved(c.row.state, target.value), actor, origin);
    }
  }

  lemma EscalateKeepsInv(c: Case, tier: int, to: string, actor: string)
    requires Inv(c)
    ensures Inv(After(c, CaseFile.Escalate(c, tier, to, actor)))
  {
    hide Numbered, LawfulLog, Replay, PriorityFor, Append, Strip, Clip;
    if 1 <= tier <= 9 && c.row.state != CLOSED && c.row.tier < tier {
      AppendIsLawful(c.log, Escalated(tier, c.row.tier), actor, HUMAN);
    }
  }

  lemma RecordKeepsInv(c: Case, fact: Fact, actor: string, origin: Origin)
    requires Inv(c) && (fact == Action || fact == Rollback || fact.SyncIn? || (fact.Note? && |fact.text| <= MAX_NOTE_LENGTH))
    ensures Inv(c.(log := Append(c.log, fact, actor, origin)))
  {
    hide Numbered, LawfulLog, Replay, PriorityFor, Append;
    AppendIsLawful(c.log, fact, actor, origin);
  }

  lemma AddNoteKeepsInv(c: Case, note: string, actor: string, origin: Origin)
    requires Inv(c)
    ensures Inv(After(c, CaseFile.AddNote(c, note, actor, origin)))
  {
    hide Inv, Append, Strip;
    if Strip(note) != "" { RecordKeepsInv(c, Note(Clip(Strip(note), MAX_NOTE_LENGTH)), actor, origin); }
  }

  lemma EndPushKeepsInv(c: Case, s: Snapshot, provider: string, reply: Reply)
    requires Inv(c)
    ensures Inv(CaseFile.EndPush(c, s, provider, reply))
  {
    hide Numbered, LawfulLog, Replay, PriorityFor, Append, Clip;
    if reply.Pushed? { AppendIsLawful(c.log, SyncOut(s.revision), provider, SYNC); }
  }

  lemma InboundKeepsInv(c: Case, ch: Change, note: string, at: int)
    requires Inv(c)
    ensures Inv(CaseFile.Inbound(c, ch, note, at))
  {
    hide Inv, Append, Strip, Clip, Lower, NameOf, CaseFile.Assign, CaseFile.SetState, CaseFile.AddNote, ActorOf, CaseFile.CloseInbound;
    if Heeded(c.row, ch) {
      var actor := ActorOf(c.row, ch);
      if ch.assignee.Some? { AssignKeepsInv(c, Strip(ch.assignee.value), actor); }
      var a := InboundAssignee(Progress(c, [], []), c.row, ch);
      assert Inv(a.now);
      var key := Lower(Strip(ch.externalState));
      if key in STATE_MAP { SetStateKeepsInv(a.now, STATE_MAP[key], actor, note, SYNC, ch.externalState, at); }
      var b := InboundState(a, c.row, ch, note, at);
      assert Inv(b.now);
      AddNoteKeepsInv(b.now, Strip(ch.note), actor, SYNC);
      var p := InboundNote(b, c.row, ch);
      assert Inv(p.now);
      CloseKeepsInv(p.now, ch.externalState, p.applied, p.refused, actor);
    }
  }

  lemma CloseKeepsInv(c: Case, externalState: string, applied: seq<Field>, refused: seq<Field>, actor: string)
    requires Inv(c)
    ensures Inv(CaseFile.CloseInbound(c, externalState, applied, refused, actor))
  {
    hide Append, Clip, Numbered, LawfulLog, Replay, PriorityFor;
    AppendIsLawful(c.log, SyncIn(applied, refused), actor, SYNC);
  }

  lemma EventKeepsInv(d: Desk, e: Event)
    requires Inv(d.file) && Enabled(d, e)
    ensures Inv(Apply(d, e).file)
  {
    hide Inv, CaseFile.Grow, CaseFile.Assign, CaseFile.SetState, CaseFile.Escalate, CaseFile.AddNote,
      CaseFile.EndPush, CaseFile.Inbound, CaseFile.CloseInbound, Append;
    var c := d.file;
    match e {
      case Grow(alert, title, severity) => GrowKeepsInv(c, alert, title, severity);
      case Assign(assignee, actor) => AssignKeepsInv(c, assignee, actor);
      case SetState(word, actor, note, origin, externalState, at) =>
        SetStateKeepsInv(c, word, actor, note, origin, externalState, at);
      case Escalate(tier, to, actor) => EscalateKeepsInv(c, tier, to, actor);
      case AddNote(note, actor, origin) => AddNoteKeepsInv(c, note, actor, origin);
      case Record(fact, actor, origin) => RecordKeepsInv(c, fact, actor, origin);
      case BeginPush(_) =>
      case EndPush(who, provider, reply) => EndPushKeepsInv(c, d.waiting[who], provider, reply);
      case Inbound(change, note, at) => InboundKeepsInv(c, change, note, at);
      case CloseInbound(externalState, applied, refused, actor) => CloseKeepsInv(c, externalState, applied, refused, actor);
    }
  }

  /** After any run, accepted and refused operations alike, the timeline still determines the row. */
  lemma {:induction false} RunKeepsInv(d: Desk, es: seq<Event>)
    requires Inv(d.file) && CanRun(d, es)
    ensures Inv(Run(d, es).file)
    decreases |es|
  {
    hide Inv, Apply, Enabled;
    if es != [] {
      EventKeepsInv(d, es[0]);
      RunKeepsInv(Apply(d, es[0]), es[1..]);
    }
  }

  /** The case a situation opens, before anything was pushed. */
  function Fresh(situation: string, alert: Option<string>, title: string, severity: string): Desk {
    Desk(Open(situation, alert, title, severity), map[], [])
  }

  /** Every move the timeline tells of is a listed one, and each escalation goes up. */
  lemma {:induction false} TimelineWalksTheMachine(log: seq<Entry>, j: nat, k: nat)
    requires LawfulLog(log) && j <= k <= |log|
    ensures Replay(log[..j]).tier <= Replay(log[..k]).tier
    ensures k < |log| ==>
      var was, now := Replay(log[..k]).state, Replay(log[..k + 1]).state;
      was == now || Allowed(was, now)
    ensures k < |log| && log[k].fact.Escalated? ==> Replay(log[..k]).tier < Replay(log[..k + 1]).tier
    decreases k - j
  {
    if j < k { TimelineWalksTheMachine(log, j, k - 1); OneFact(log, k - 1); }
    if k < |log| { OneFact(log, k); }
  }

  lemma OneFact(log: seq<Entry>, k: nat)
    requires LawfulLog(log) && k < |log|
    ensures Lawful(Replay(log[..k]), log[k].fact) && Replay(log[..k + 1]) == Tell(Replay(log[..k]), log[k].fact)
  {
    assert log[..k + 1][..k] == log[..k];
  }

  /** The whole promise of the log, over any run from a case's opening. */
  lemma TheLogDeterminesTheCase(situation: string, alert: Option<string>, title: string, severity: string, es: seq<Event>)
    requires CanRun(Fresh(situation, alert, title, severity), es)
    ensures var c := Run(Fresh(situation, alert, title, severity), es).file;
      && Replay(c.log) == ViewOf(c.row)
      && (forall k :: 0 <= k < |c.log| ==> c.log[k].number == k + 1)
      && (c.row.closedAt.Some? <==> c.row.state == CLOSED)
      && (forall k :: 0 <= k < |c.log| ==>
            var was, now := Replay(c.log[..k]), Replay(c.log[..k + 1]);
            (was.state == now.state || Allowed(was.state, now.state)) && was.tier <= now.tier)
  {
    hide Run, CanRun, Replay, Lawful, Tell, PriorityFor;
    var d := Fresh(situation, alert, title, severity);
    OpenSatisfiesInv(situation, alert, title, severity);
    RunKeepsInv(d, es);
    var c := Run(d, es).file;
    forall k | 0 <= k < |c.log|
      ensures var was, now := Replay(c.log[..k]), Replay(c.log[..k + 1]);
        (was.state == now.state || Allowed(was.state, now.state)) && was.tier <= now.tier
    {
      TimelineWalksTheMachine(c.log, k, k);
      TimelineWalksTheMachine(c.log, k, k + 1);
    }
  }

  // --- append-only --------------------------------------------------------------------------------

  lemma InboundOnlyAppends(c: Case, ch: Change, note: string, at: int)
    ensures c.log <= CaseFile.Inbound(c, ch, note, at).log
  {
    hide Strip, Clip, Lower, NameOf, Upper, StateOf, MovedRow, ActorOf, MaxNumber;
    var a := InboundAssignee(Progress(c, [], []), c.row, ch);
    assert c.log <= a.now.log;
    var b := InboundState(a, c.row, ch, note, at);
    assert a.now.log <= b.now.log;
    var p := InboundNote(b, c.row, ch);
    assert b.now.log <= p.now.log;
  }

  /** No operation ever rewrites or removes what the timeline already holds. */
  lemma {:induction false} TimelineOnlyGrows(d: Desk, es: seq<Event>)
    ensures d.file.log <= Run(d, es).file.log
    decreases |es|
  {
    if es != [] {
      EventOnlyAppends(d, es[0]);
      TimelineOnlyGrows(Apply(d, es[0]), es[1..]);
    }
  }

  lemma EventOnlyAppends(d: Desk, e: Event)
    ensures d.file.log <= Apply(d, e).file.log
  {
    hide CaseFile.Inbound, Strip, Clip, Upper, StateOf, MovedRow, MaxNumber;
    if e.Inbound? { InboundOnlyAppends(d.file, e.change, e.note, e.at); }
  }

  // --- an inbound change is a run of its transactions ---------------------------------------------

  function AssigneePart(row: Row, ch: Change): seq<Event> {
    if ALLOW_INBOUND_ASSIGNEE && ch.assignee.Some? && Strip(ch.assignee.value) != row.assignee
    then [Assign(Strip(ch.assignee.value), ActorOf(row, ch))] else []
  }

  function StatePart(row: Row, ch: Change, note: string, at: int): seq<Event> {
    var key := Lower(Strip(ch.externalState));
    if ALLOW_INBOUND_STATE && ch.externalState != "" && key in STATE_MAP && STATE_MAP[key] != NameOf(row.state)
    then [SetState(STATE_MAP[key], ActorOf(row, ch), note, SYNC, ch.externalState, at)] else []
  }

  function NotePart(row: Row, ch: Change): seq<Event> {
    if Strip(ch.note) != "" then [AddNote(Strip(ch.note), ActorOf(row, ch), SYNC)] else []
  }

  /** The transactions of a heeded change. */
  function Transactions(c: Case, ch: Change, note: string, at: int): seq<Event> {
    var p := InboundSteps(c, ch, note, at);
    AssigneePart(c.row, ch) + StatePart(c.row, ch, note, at) + NotePart(c.row, ch)
    + [CloseInbound(ch.externalState, p.applied, p.refused, ActorOf(c.row, ch))]
  }

  lemma {:induction false} RunOfTwo(d: Desk, a: seq<Event>, b: seq<Event>)
    ensures Run(d, a + b) == Run(Run(d, a), b)
    ensures CanRun(d, a) && CanRun(Run(d, a), b) ==> CanRun(d, a + b)
    decreases |a|
  {
    hide Apply, Enabled;
    if a == [] {
      assert a + b == b;
    } else {
      assert (a + b)[0] == a[0] && (a + b)[1..] == a[1..] + b;
      RunOfTwo(Apply(d, a[0]), a[1..], b);
    }
  }

  lemma RunOfOne(d: Desk, e: Event)
    ensures Run(d, [e]) == Apply(d, e)
    ensures Enabled(d, e) ==> CanRun(d, [e])
  {
    hide Apply, Enabled;
    assert [e][1..] == [];
    assert Run(Apply(d, e), []) == Apply(d, e);
  }

  lemma PartsAreRuns(d: Desk, p: Progress, row: Row, ch: Change, note: string, at: int)
    requires d.file == p.now
    ensures CanRun(d, AssigneePart(row, ch)) && CanRun(d, StatePart(row, ch, note, at)) && CanRun(d, NotePart(row, ch))
    ensures Run(d, AssigneePart(row, ch)) == d.(file := InboundAssignee(p, row, ch).now)
    ensures Run(d, StatePart(row, ch, note, at)) == d.(file := InboundState(p, row, ch, note, at).now)
    ensures Run(d, NotePart(row, ch)) == d.(file := InboundNote(p, row, ch).now)
  {
    hide Run, CanRun, Strip, Lower, ActorOf, NameOf, CaseFile.Assign, CaseFile.SetState, CaseFile.AddNote, STATE_MAP;
    Nothing(d);
    if AssigneePart(row, ch) != [] { RunOfOne(d, AssigneePart(row, ch)[0]); }
    if StatePart(row, ch, note, at) != [] { RunOfOne(d, StatePart(row, ch, note, at)[0]); }
    if NotePart(row, ch) != [] { RunOfOne(d, NotePart(row, ch)[0]); }
  }

  lemma Nothing(d: Desk)
    ensures CanRun(d, []) && Run(d, []) == d
  {
  }

  /** With nothing in between it does what the transactions do one after another; between them anything may run. */
  lemma InboundIsARun(d: Desk, ch: Change, note: string, at: int)
    requires Heeded(d.file.row, ch)
    ensures var es := Transactions(d.file, ch, note, at);
      && CanRun(d, es) && Run(d, es) == d.(file := CaseFile.Inbound(d.file, ch, note, at))
      && forall k :: 0 <= k < |es| ==> OfTheWorkflow(es[k])
  {
    hide Run, CanRun, Strip, Lower, Append, ActorOf, NameOf, InboundAssignee, InboundState, InboundNote, CaseFile.CloseInbound;
    var row := d.file.row;
    var s1, s2, s3 := AssigneePart(row, ch), StatePart(row, ch, note, at), NotePart(row, ch);
    var start := Progress(d.file, [], []);
    var a := InboundAssignee(start, row, ch);
    var b := InboundState(a, row, ch, note, at);
    var p := InboundNote(b, row, ch);
    var close := CloseInbound(ch.externalState, p.applied, p.refused, ActorOf(row, ch));
    PartsAreRuns(d, start, row, ch, note, at);
    PartsAreRuns(d.(file := a.now), a, row, ch, note, at);
    PartsAreRuns(d.(file := b.now), b, row, ch, note, at);
    RunOfOne(d.(file := p.now), close);
    RunOfTwo(d, s1, s2);
    RunOfTwo(d, s1 + s2, s3);
    RunOfTwo(d, s1 + s2 + s3, [close]);
  }

  // --- who owns which field --------------------------------------------------------------------------

  /** What the decision layer derived, and the ladder people climb. */
  function Derived(r: Row): (string, string, string, Option<string>, int, nat) {
    (r.title, r.severity, r.priority, r.alert, r.tier, r.revision)
  }

  lemma InboundKeepsDerived(c: Case, ch: Change, note: string, at: int)
    ensures Derived(CaseFile.Inbound(c, ch, note, at).row) == Derived(c.row)
    ensures CaseFile.Inbound(c, ch, note, at).row.externalRef == c.row.externalRef
  {
    hide Strip, Clip, Lower, NameOf, Upper, StateOf, ActorOf, Append;
    var a := InboundAssignee(Progress(c, [], []), c.row, ch);
    assert Derived(a.now.row) == Derived(c.row) && a.now.row.externalRef == c.row.externalRef;
    var b := InboundState(a, c.row, ch, note, at);
    assert Derived(b.now.row) == Derived(a.now.row) && b.now.row.externalRef == a.now.row.externalRef;
  }

  /** An inbound change, or any of the transactions it is made of. */
  predicate OfTheWorkflow(e: Event) { e.Inbound? || e.Assign? || e.SetState? || e.AddNote? || e.CloseInbound? }

  lemma WorkflowKeepsDerived(c: Case, e: Event)
    requires OfTheWorkflow(e)
    ensures Derived(FileAfter(c, e).row) == Derived(c.row)
  {
    hide Strip, Clip, Upper, StateOf, Append, CaseFile.Inbound;
    if e.Inbound? { InboundKeepsDerived(c, e.change, e.note, e.at); }
  }

  /** However many messages the ticketing system sends, what the decision layer owns stays. */
  lemma {:induction false} InboundOwnsOnlyTheWorkflow(d: Desk, es: seq<Event>)
    requires forall k :: 0 <= k < |es| ==> OfTheWorkflow(es[k])
    ensures Derived(Run(d, es).file.row) == Derived(d.file.row)
    ensures Run(d, es).waiting == d.waiting && Run(d, es).pushed == d.pushed
    decreases |es|
  {
    hide FileAfter, Derived;
    if es != [] {
      WorkflowKeepsDerived(d.file, es[0]);
      InboundOwnsOnlyTheWorkflow(Apply(d, es[0]), es[1..]);
    }
  }

  /** Once somebody has started on a case, nothing in the program re-prioritises it. */
  lemma {:induction false} PriorityIsTheirs(d: Desk, es: seq<Event>)
    requires d.file.row.state != NEW
    ensures Run(d, es).file.row.state != NEW
    ensures Run(d, es).file.row.priority == d.file.row.priority
    decreases |es|
  {
    if es != [] {
      StartedStaysStarted(d, es[0]);
      PriorityIsTheirs(Apply(d, es[0]), es[1..]);
    }
  }

  lemma StartedStaysStarted(d: Desk, e: Event)
    requires d.file.row.state != NEW
    ensures Apply(d, e).file.row.state != NEW
    ensures Apply(d, e).file.row.priority == d.file.row.priority
  {
    hide Strip, Clip, Lower, NameOf, Upper, StateOf, ActorOf, Append, PriorityFor;
    if e.Inbound? {
      hide Derived;
      var c := d.file;
      var a := InboundAssignee(Progress(c, [], []), c.row, e.change);
      assert a.now.row.state != NEW && a.now.row.priority == c.row.priority;
      var b := InboundState(a, c.row, e.change, e.note, e.at);
      assert b.now.row.state != NEW && b.now.row.priority == c.row.priority;
    }
  }

  // --- provenance ----------------------------------------------------------------------------------------

  ghost predicate AllSync(log: seq<Entry>, start: nat) { forall k :: start <= k < |log| ==> log[k].origin == SYNC }

  /** A heeded change hands the case to somebody else. */
  predicate Reassigns(row: Row, ch: Change) {
    && ALLOW_INBOUND_ASSIGNEE && ch.assignee.Some? && row.state != CLOSED
    && Strip(ch.assignee.value) != row.assignee
  }

  /** What an inbound change writes reads as the ticketing system's, except exactly when it reassigns. */
  lemma InboundIsMarkedIff(c: Case, ch: Change, note: string, at: int)
    requires Heeded(c.row, ch)
    ensures AllSync(CaseFile.Inbound(c, ch, note, at).log, |c.log|) <==> !Reassigns(c.row, ch)
  {
    hide Strip, Clip, Lower, NameOf, Upper, StateOf, MovedRow, ActorOf, MaxNumber;
    var a := InboundAssignee(Progress(c, [], []), c.row, ch);
    var n := |c.log|;
    if Reassigns(c.row, ch) {
      assert |a.now.log| == n + 1 && a.now.log[n].origin == HUMAN;
    } else {
      assert a.now.log == c.log;
    }
    var b := InboundState(a, c.row, ch, note, at);
    assert AllSync(b.now.log, |a.now.log|) && a.now.log <= b.now.log;
    var p := InboundNote(b, c.row, ch);
    assert AllSync(p.now.log, |b.now.log|) && b.now.log <= p.now.log;
    var d := InboundEnd(p, c.row, ch);
    assert AllSync(d.log, |p.now.log|) && p.now.log <= d.log;
  }

  /** A case pushed once, then given to somebody by its ticket: the timeline says a person did it. */
  lemma ReassignmentReadsAsAPersons(situation: string, alert: Option<string>, title: string, severity: string,
                                    provider: string, note: string, at: int)
    requires ALLOW_INBOUND_ASSIGNEE
    ensures var d := Fresh(situation, alert, title, severity);
      var es := [BeginPush(0), EndPush(0, provider, Pushed("T", ""))];
      var ch := Change("T", "", Some("bob"), "", "", None);
      && CanRun(d, es)
      && var c, after := Run(d, es).file, CaseFile.Inbound(Run(d, es).file, ch, note, at);
      && |after.log| > |c.log| && after.log[|c.log|].fact == Assigned("", "bob")
      && after.log[|c.log|].origin == HUMAN && after.row.state == ASSIGNED
  {
    hide Append, Upper, PriorityFor;
    var d := Fresh(situation, alert, title, severity);
    var es := [BeginPush(0), EndPush(0, provider, Pushed("T", ""))];
    var d1 := Apply(d, es[0]);
    var d2 := Apply(d1, es[1]);
    assert es[1..][1..] == [];
    assert CanRun(d1, es[1..]) && Run(d1, es[1..]) == d2;
    HandedOver(d2.file, note, at);
  }

  lemma HandedOver(c: Case, note: string, at: int)
    requires ALLOW_INBOUND_ASSIGNEE && c.row.externalRef == "T" && c.row.state == NEW && c.row.assignee == ""
    ensures var after := CaseFile.Inbound(c, Change("T", "", Some("bob"), "", "", None), note, at);
      && |after.log| > |c.log| && after.log[|c.log|].fact == Assigned("", "bob")
      && after.log[|c.log|].origin == HUMAN && after.row.state == ASSIGNED
  {
    hide MaxNumber, Lower;
    StripOfTight("bob");
  }

  // --- echoes -----------------------------------------------------------------------------------------------

  /** Nothing pushed is ahead of the revision the row holds. */
  ghost predicate Stamped(d: Desk) { forall k :: 0 <= k < |d.pushed| ==> d.pushed[k] <= d.file.row.revision }

  /** At most one push waits for its answer. */
  ghost predicate OneAtATime(d: Desk) { forall a, b :: a in d.waiting && b in d.waiting ==> a == b }

  predicate Serial(d: Desk, es: seq<Event>)
    decreases |es|
  {
    es == [] || ((es[0].BeginPush? ==> d.waiting == map[]) && Serial(Apply(d, es[0]), es[1..]))
  }

  ghost predicate Synced(d: Desk) {
    && d.file.row.revision == |d.pushed|
    && (forall k :: 0 <= k < |d.pushed| ==> d.pushed[k] == k + 1)
    && (forall a :: a in d.waiting ==> d.waiting[a].revision == |d.pushed| + 1)
    && OneAtATime(d)
  }

  lemma EventKeepsRevision(d: Desk, e: Event)
    requires !e.EndPush?
    ensures Apply(d, e).file.row.revision == d.file.row.revision && Apply(d, e).pushed == d.pushed
  {
    hide CaseFile.Inbound, Strip, Clip, Upper, StateOf, MaxNumber;
    if e.Inbound? { InboundKeepsDerived(d.file, e.change, e.note, e.at); }
  }

  lemma EventKeepsSynced(d: Desk, e: Event)
    requires Synced(d) && Enabled(d, e) && (e.BeginPush? ==> d.waiting == map[])
    ensures Synced(Apply(d, e))
  {
    if !e.EndPush? {
      hide FileAfter;
      EventKeepsRevision(d, e);
    } else {
      hide Append, Clip;
    }
  }

  /** Without overlapping pushes the revisions pushed are exactly 1, 2, and so on, and the row holds the last. */
  lemma {:induction false} SerialPushesCount(d: Desk, es: seq<Event>)
    requires Synced(d) && CanRun(d, es) && Serial(d, es)
    ensures Synced(Run(d, es)) && Stamped(Run(d, es))
    decreases |es|
  {
    hide Apply, Enabled;
    if es != [] {
      EventKeepsSynced(d, es[0]);
      SerialPushesCount(Apply(d, es[0]), es[1..]);
    }
  }

  /** Every successful answer arrives while the row has not moved past the revision it was pushed with. */
  predicate Current(d: Desk, es: seq<Event>)
    decreases |es|
  {
    es == []
    || ((es[0].EndPush? && es[0].who in d.waiting && es[0].reply.Pushed? ==>
           d.file.row.revision <= d.waiting[es[0].who].revision)
        && Current(Apply(d, es[0]), es[1..]))
  }

  ghost predicate AlwaysStamped(d: Desk, es: seq<Event>)
    decreases |es|
  {
    Stamped(d) && (es == [] || AlwaysStamped(Apply(d, es[0]), es[1..]))
  }

  /** Overlapping or not, no revision pushed is ever ahead of the row exactly when every answer comes in time. */
  lemma {:induction false} AlwaysStampedIff(d: Desk, es: seq<Event>)
    requires CanRun(d, es) && Stamped(d) && (d.file.row.revision == 0 || d.file.row.revision in d.pushed)
    ensures AlwaysStamped(d, es) <==> Current(d, es)
    ensures AlwaysStamped(d, es) ==> Stamped(Run(d, es))
    decreases |es|
  {
    hide FileAfter, CaseFile.EndPush;
    if es != [] {
      var e, t := es[0], Apply(d, es[0]);
      if e.EndPush? {
        EndPushMoves(d, e);
        if e.reply.Pushed? { PushKeepsStampsIff(d, e.who, e.provider, e.reply); }
      } else {
        EventKeepsRevision(d, e);
      }
      hide Apply;
      if Stamped(t) { AlwaysStampedIff(t, es[1..]); }
    }
  }

  lemma EndPushMoves(d: Desk, e: Event)
    requires e.EndPush? && Enabled(d, e)
    ensures var t := Apply(d, e);
      if e.reply.Pushed? then t.file.row.revision == d.waiting[e.who].revision && t.file.row.revision in t.pushed
      else t.file.row.revision == d.file.row.revision && t.pushed == d.pushed
  {
    hide Append, Clip;
  }

  /** Pushes that never overlap always come in time. */
  lemma {:induction false} SerialIsCurrent(d: Desk, es: seq<Event>)
    requires Synced(d) && CanRun(d, es) && Serial(d, es)
    ensures Current(d, es)
    decreases |es|
  {
    hide Apply, Enabled;
    if es != [] {
      EventKeepsSynced(d, es[0]);
      SerialIsCurrent(Apply(d, es[0]), es[1..]);
    }
  }

  /** A change quoting any revision whose push was answered is dropped, while answers come in time. */
  lemma EchoesAreDropped(situation: string, alert: Option<string>, title: string, severity: string,
                         es: seq<Event>, ch: Change, note: string, at: int)
    requires var d := Fresh(situation, alert, title, severity); CanRun(d, es) && Current(d, es)
    requires var d := Run(Fresh(situation, alert, title, severity), es);
      exists k :: 0 <= k < |d.pushed| && ch.revision == Some(d.pushed[k])
    ensures var d := Run(Fresh(situation, alert, title, severity), es);
      CaseFile.Inbound(d.file, ch, note, at) == d.file
  {
    hide Run, CanRun, Current;
    AlwaysStampedIff(Fresh(situation, alert, title, severity), es);
  }

  /** A change for this case is dropped exactly when it quotes a revision the row has reached. */
  lemma DroppedIff(c: Case, ch: Change, note: string, at: int)
    requires ch.ref == c.row.externalRef
    ensures CaseFile.Inbound(c, ch, note, at) == c <==> ch.revision.Some? && ch.revision.value <= c.row.revision
  {
    hide InboundSteps, InboundEnd;
    if Heeded(c.row, ch) { EndAppends(c, ch, note, at); }
  }

  /** So an echo that overtakes the answer to its own push is taken for news. */
  lemma EarlyEchoIsNews(d: Desk, who: Pusher, note: string, at: int)
    requires who in d.waiting && d.waiting[who].revision > d.file.row.revision
    ensures var ch := Change(d.file.row.externalRef, "", None, "", "", Some(d.waiting[who].revision));
      |CaseFile.Inbound(d.file, ch, note, at).log| > |d.file.log|
  {
    EndAppends(d.file, Change(d.file.row.externalRef, "", None, "", "", Some(d.waiting[who].revision)), note, at);
  }

  /** It takes one push answered and a second one sent. */
  lemma EarlyEchoIsReachable(situation: string, alert: Option<string>, title: string, severity: string, provider: string)
    ensures var d := Fresh(situation, alert, title, severity);
      var es := [BeginPush(0), EndPush(0, provider, Pushed("T", "")), BeginPush(0)];
      && CanRun(d, es) && Serial(d, es)
      && 0 in Run(d, es).waiting && Run(d, es).waiting[0].revision > Run(d, es).file.row.revision
      && Run(d, es).file.row.externalRef == "T"
  {
    hide Append, Upper, PriorityFor;
    var d := Fresh(situation, alert, title, severity);
    var es := [BeginPush(0), EndPush(0, provider, Pushed("T", "")), BeginPush(0)];
    var d1 := Apply(d, es[0]);
    var d2 := Apply(d1, es[1]);
    var d3 := Apply(d2, es[2]);
    assert es[1..][1..][1..] == [];
    assert CanRun(d2, es[2..]) && Run(d2, es[2..]) == d3 && Serial(d2, es[2..]);
    assert es[1..][1..] == es[2..] && CanRun(d1, es[1..]) && Run(d1, es[1..]) == d3 && Serial(d1, es[1..]);
  }

  /** Overlapping or not, the row holds a revision that was pushed, or none was. */
  lemma {:induction false} RowHoldsAPushedRevision(d: Desk, es: seq<Event>)
    requires d.file.row.revision == 0 || d.file.row.revision in d.pushed
    ensures var e := Run(d, es); e.file.row.revision == 0 || e.file.row.revision in e.pushed
    decreases |es|
  {
    hide FileAfter, Append, Clip;
    if es != [] {
      if !es[0].EndPush? { EventKeepsRevision(d, es[0]); }
      RowHoldsAPushedRevision(Apply(d, es[0]), es[1..]);
    }
  }

  /** The answer to one push leaves every pushed revision recognisable exactly when the row has not moved past it. */
  lemma PushKeepsStampsIff(d: Desk, who: Pusher, provider: string, reply: Reply)
    requires Stamped(d) && who in d.waiting && reply.Pushed?
    requires d.file.row.revision == 0 || d.file.row.revision in d.pushed
    ensures Stamped(Apply(d, EndPush(who, provider, reply))) <==> d.file.row.revision <= d.waiting[who].revision
  {
    hide Append, Clip;
    var s, e := d.waiting[who].revision, Apply(d, EndPush(who, provider, reply));
    assert e.pushed == d.pushed + [s] && e.file.row.revision == s;
    if d.file.row.revision > s {
      var k :| 0 <= k < |d.pushed| && d.pushed[k] == d.file.row.revision;
      assert e.pushed[k] > s;
    }
  }

  /** Two pushers in turn around a slow third: the row falls back, and an echo is then taken for news. */
  function Overlap(provider: string): seq<Event> {
    [BeginPush(0), BeginPush(1), EndPush(1, provider, Pushed("T", "")), BeginPush(1), EndPush(1, provider, Pushed("T", "")),
     EndPush(0, provider, Pushed("T", ""))]
  }

  lemma OverlapLetsAnEchoIn(d: Desk, provider: string, note: string, at: int)
    requires d.waiting == map[] && d.file.row.revision == 0 && d.pushed == []
    ensures CanRun(d, Overlap(provider))
    ensures var e := Run(d, Overlap(provider));
      2 in e.pushed && e.file.row.revision == 1
      && CaseFile.Inbound(e.file, Change(e.file.row.externalRef, "", None, "", "", Some(2)), note, at) != e.file
  {
    hide Append, Clip, FileAfter, CaseFile.Inbound;
    var es := Overlap(provider);
    var d1 := Apply(d, es[0]);
    var d2 := Apply(d1, es[1]);
    var d3 := Apply(d2, es[2]);
    var d4 := Apply(d3, es[3]);
    var d5 := Apply(d4, es[4]);
    var d6 := Apply(d5, es[5]);
    assert d6.pushed == [1, 2, 1];
    assert es[1..][1..][1..][1..][1..][1..] == [];
    assert CanRun(d5, es[5..]) && Run(d5, es[5..]) == d6;
    assert es[4..][1..] == es[5..] && CanRun(d4, es[4..]) && Run(d4, es[4..]) == d6;
    assert es[3..][1..] == es[4..] && CanRun(d3, es[3..]) && Run(d3, es[3..]) == d6;
    assert es[2..][1..] == es[3..] && CanRun(d2, es[2..]) && Run(d2, es[2..]) == d6;
    assert es[1..][1..] == es[2..] && CanRun(d1, es[1..]) && Run(d1, es[1..]) == d6;
    EndAppends(d6.file, Change(d6.file.row.externalRef, "", None, "", "", Some(2)), note, at);
  }

  /** Whatever else it does, a heeded change leaves its mark. */
  lemma EndAppends(c: Case, ch: Change, note: string, at: int)
    requires Heeded(c.row, ch)
    ensures |CaseFile.Inbound(c, ch, note, at).log| > |c.log|
  {
    hide InboundSteps;
    var p := InboundSteps(c, ch, note, at);
    StepsOnlyAppend(c, ch, note, at);
  }

  lemma StepsOnlyAppend(c: Case, ch: Change, note: string, at: int)
    ensures |InboundSteps(c, ch, note, at).now.log| >= |c.log|
  {
    hide Strip, Clip, Lower, NameOf, Upper, StateOf, MovedRow, ActorOf, MaxNumber;
    var a := InboundAssignee(Progress(c, [], []), c.row, ch);
    assert |c.log| <= |a.now.log|;
    var b := InboundState(a, c.row, ch, note, at);
    assert |a.now.log| <= |b.now.log|;
  }
}
