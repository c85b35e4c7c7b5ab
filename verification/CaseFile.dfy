/** One case: its live row, its append-only timeline, and every transaction that writes them
    (`orchestrator/cases.py`, `orchestrator/case_sync.py`). */
module CaseFile {
  import opened Common

  datatype State = NEW | ASSIGNED | IN_PROGRESS | ESCALATED | RESOLVED | CLOSED | REOPENED

  /** Which state may follow which. */
  predicate Allowed(was: State, now: State) {
    match was
    case NEW => now in {ASSIGNED, IN_PROGRESS, ESCALATED, RESOLVED, CLOSED}
    case ASSIGNED => now in {IN_PROGRESS, ESCALATED, RESOLVED, CLOSED}
    case IN_PROGRESS => now in {ESCALATED, RESOLVED, CLOSED}
    case ESCALATED => now in {IN_PROGRESS, RESOLVED, CLOSED}
    case RESOLVED => now in {CLOSED, REOPENED}
    case CLOSED => now == REOPENED
    case REOPENED => now in {ASSIGNED, IN_PROGRESS, ESCALATED, RESOLVED, CLOSED}
  }

  function NameOf(s: State): string {
    match s
    case NEW => "NEW"
    case ASSIGNED => "ASSIGNED"
    case IN_PROGRESS => "IN_PROGRESS"
    case ESCALATED => "ESCALATED"
    case RESOLVED => "RESOLVED"
    case CLOSED => "CLOSED"
    case REOPENED => "REOPENED"
  }

  function StateOf(word: string): Option<State> {
    match word
    case "NEW" => Some(NEW)
    case "ASSIGNED" => Some(ASSIGNED)
    case "IN_PROGRESS" => Some(IN_PROGRESS)
    case "ESCALATED" => Some(ESCALATED)
    case "RESOLVED" => Some(RESOLVED)
    case "CLOSED" => Some(CLOSED)
    case "REOPENED" => Some(REOPENED)
    case _ => None
  }

  const MAX_NOTE_LENGTH: nat
  const ALLOW_INBOUND_STATE: bool
  const ALLOW_INBOUND_ASSIGNEE: bool
  /** What the site adds to, or changes in, the vocabulary below. */
  const SITE_STATE_MAP: map<string, string>

  const STATE_MAP: map<string, string> :=
    map["new" := "NEW", "open" := "IN_PROGRESS", "assigned" := "ASSIGNED", "inprogress" := "IN_PROGRESS",
        "in progress" := "IN_PROGRESS", "in_progress" := "IN_PROGRESS", "escalated" := "ESCALATED",
        "resolved" := "RESOLVED", "closed" := "CLOSED", "reopened" := "REOPENED"] + SITE_STATE_MAP

  function PriorityFor(severity: string): string {
    match Upper(Strip(severity))
    case "CRITICAL" => "P1"
    case "HIGH" => "P2"
    case "MEDIUM" => "P3"
    case "LOW" => "P4"
    case _ => "P3"
  }

  // --- the row and the timeline -----------------------------------------------------------

  datatype Origin = HUMAN | SYSTEM | SYNC

  datatype Field = AssigneeField | StateField | NoteField

  /** The kind of a timeline row with the data it carries. */
  datatype Fact =
    | Created
    | Assigned(was: string, assignee: string)
    | Moved(from: State, to: State)
    | Note(text: string)
    | Escalated(tier: int, fromTier: int)
    | SyncOut(revision: nat)
    | SyncIn(applied: seq<Field>, refused: seq<Field>)
    | Action
    | Rollback

  datatype Entry = Entry(number: nat, fact: Fact, actor: string, origin: Origin)

  datatype SyncStatus = LOCAL | OK | ERROR

  datatype Row = Row(title: string, severity: string, priority: string, alert: Option<string>,
                     state: State, assignee: string, assignedBy: string,
                     tier: int, escalatedTo: string,
                     closedBy: string, closedAt: Option<int>, closureReason: Option<string>,
                     externalSystem: string, externalRef: string, externalState: string,
                     syncStatus: SyncStatus, revision: nat)

  datatype Case = Case(row: Row, log: seq<Entry>)

  function MaxNumber(log: seq<Entry>): nat {
    if log == [] then 0
    else
      var front := MaxNumber(log[..|log| - 1]);
      if log[|log| - 1].number > front then log[|log| - 1].number else front
  }

  /** Append one row, numbered after the highest so far. */
  function Append(log: seq<Entry>, fact: Fact, actor: string, origin: Origin): seq<Entry> {
    log + [Entry(MaxNumber(log) + 1, fact, Clip(if actor == "" then "system" else actor, 128), origin)]
  }

  // --- operations ---------------------------------------------------------------------------

  /** Why an operation was refused: malformed, or not possible now. */
  datatype Refusal = Malformed | Conflict

  datatype Result = Ok(case_: Case) | Refused(why: Refusal)

  /** The case after an operation, whether it was accepted or refused. */
  function After(c: Case, r: Result): Case { if r.Ok? then r.case_ else c }

  function Open(situation: string, alert: Option<string>, title: string, severity: string): Case {
    var row := Row(Clip(if title != "" then title else situation, 255),
                   Upper(if severity != "" then severity else "MEDIUM"), PriorityFor(severity), alert,
                   NEW, "", "", 0, "", "", None, None, "", "", "", LOCAL, 0);
    Case(row, Append([], Created, "AfraSOC", SYSTEM))
  }

  /** A situation that grew refreshes what the case is about, and nothing else. */
  function Grow(c: Case, alert: Option<string>, title: string, severity: string): Case {
    var r := c.row;
    var renamed := if title != "" && title != r.title then r.(title := Clip(title, 255)) else r;
    var rated :=
      if severity != "" && severity != r.severity then
        renamed.(severity := severity,
                 priority := if r.state == NEW && r.assignee == "" then PriorityFor(severity) else r.priority)
      else renamed;
    c.(row := if alert.Some? && alert.value != "" then rated.(alert := alert) else rated)
  }

  function Assign(c: Case, assignee: string, actor: string): Result {
    var to := Clip(Strip(assignee), 128);
    if c.row.state == CLOSED then Refused(Conflict)
    else
      Ok(Case(c.row.(assignee := to, assignedBy := Clip(actor, 128),
                     state := if to != "" && c.row.state == NEW then ASSIGNED else c.row.state),
              Append(c.log, Assigned(c.row.assignee, to), actor, HUMAN)))
  }

  function MovedRow(r: Row, to: State, actor: string, note: string, externalState: string, at: int): Row {
    var moved := r.(state := to, externalState := if externalState != "" then Clip(externalState, 64) else r.externalState);
    if to == CLOSED then
      moved.(closedBy := Clip(actor, 128), closedAt := Some(at), closureReason := if note != "" then Some(note) else None)
    else if r.state == CLOSED then moved.(closedBy := "", closedAt := None, closureReason := None)
    else moved
  }

  function SetState(c: Case, word: string, actor: string, note: string, origin: Origin, externalState: string, at: int): Result {
    var target := StateOf(Upper(Strip(word)));
    if target.None? then Refused(Malformed)
    else if target.value == c.row.state then Ok(c)
    else if !Allowed(c.row.state, target.value) then Refused(Conflict)
    else
      Ok(Case(MovedRow(c.row, target.value, actor, note, externalState, at),
              Append(c.log, Moved(c.row.state, target.value), actor, origin)))
  }

  function Escalate(c: Case, tier: int, to: string, actor: string): Result {
    if tier < 1 || tier > 9 then Refused(Malformed)
    else if c.row.state == CLOSED || tier <= c.row.tier then Refused(Conflict)
    else
      Ok(Case(c.row.(tier := tier, escalatedTo := Clip(Strip(to), 128),
                     state := if Allowed(c.row.state, ESCALATED) then ESCALATED else c.row.state),
              Append(c.log, Escalated(tier, c.row.tier), actor, HUMAN)))
  }

  function AddNote(c: Case, note: string, actor: string, origin: Origin): Result {
    var text := Strip(note);
    if text == "" then Refused(Malformed)
    else Ok(c.(log := Append(c.log, Note(Clip(text, MAX_NOTE_LENGTH)), actor, origin)))
  }

  // --- outward ----------------------------------------------------------------------------------

  /** What a push remembers from the row it read before calling out. */
  datatype Snapshot = Snapshot(revision: nat, externalState: string)

  datatype Reply = Failed | Pushed(ref: string, state: string)

  function Snap(c: Case): Snapshot { Snapshot(c.row.revision + 1, c.row.externalState) }

  function EndPush(c: Case, s: Snapshot, provider: string, reply: Reply): Case {
    match reply
    case Failed => c.(row := c.row.(syncStatus := ERROR))
    case Pushed(ref, state) =>
      Case(c.row.(externalSystem := provider, externalRef := Clip(ref, 128),
                  externalState := Clip(if state != "" then state else s.externalState, 64),
                  syncStatus := OK, revision := s.revision),
           Append(c.log, SyncOut(s.revision), provider, SYNC))
  }

  // --- inward -----------------------------------------------------------------------------------

  datatype Change = Change(ref: string, externalState: string, assignee: Option<string>, note: string,
                           actor: string, revision: Option<int>)

  function ActorOf(row: Row, ch: Change): string {
    if ch.actor != "" then ch.actor else if row.externalSystem != "" then row.externalSystem else "system-of-record"
  }

  /** The change is about this case and is not its own writing coming back. */
  predicate Heeded(row: Row, ch: Change) {
    ch.ref == row.externalRef && !(ch.revision.Some? && ch.revision.value <= row.revision)
  }

  datatype Progress = Progress(now: Case, applied: seq<Field>, refused: seq<Field>)

  function Tried(p: Progress, r: Result, field: Field): Progress {
    if r.Ok? then Progress(r.case_, p.applied + [field], p.refused) else p.(refused := p.refused + [field])
  }

  function InboundAssignee(p: Progress, row: Row, ch: Change): Progress {
    if ALLOW_INBOUND_ASSIGNEE && ch.assignee.Some? && Strip(ch.assignee.value) != row.assignee then
      Tried(p, Assign(p.now, Strip(ch.assignee.value), ActorOf(row, ch)), AssigneeField)
    else p
  }

  /** `row` is the row as it was read before the assignee was applied. */
  function InboundState(p: Progress, row: Row, ch: Change, note: string, at: int): Progress {
    var key := Lower(Strip(ch.externalState));
    if !ALLOW_INBOUND_STATE || ch.externalState == "" then p
    else if key !in STATE_MAP then p.(refused := p.refused + [StateField])
    else if STATE_MAP[key] == NameOf(row.state) then p
    else Tried(p, SetState(p.now, STATE_MAP[key], ActorOf(row, ch), note, SYNC, ch.externalState, at), StateField)
  }

  function InboundNote(p: Progress, row: Row, ch: Change): Progress {
    if Strip(ch.note) != "" then Tried(p, AddNote(p.now, Strip(ch.note), ActorOf(row, ch), SYNC), NoteField) else p
  }

  /** The closing transaction: the ticket's own state, and one row saying what came of the change. */
  function CloseInbound(c: Case, externalState: string, applied: seq<Field>, refused: seq<Field>, actor: string): Case {
    Case(c.row.(externalState := if externalState != "" then Clip(externalState, 64) else c.row.externalState),
         Append(c.log, SyncIn(applied, refused), actor, SYNC))
  }

  function InboundEnd(p: Progress, row: Row, ch: Change): Case {
    CloseInbound(p.now, ch.externalState, p.applied, p.refused, ActorOf(row, ch))
  }

  function InboundSteps(c: Case, ch: Change, note: string, at: int): Progress {
    var a := InboundAssignee(Progress(c, [], []), c.row, ch);
    InboundNote(InboundState(a, c.row, ch, note, at), c.row, ch)
  }

  function Inbound(c: Case, ch: Change, note: string, at: int): Case {
    if !Heeded(c.row, ch) then c else InboundEnd(InboundSteps(c, ch, note, at), c.row, ch)
  }
}
