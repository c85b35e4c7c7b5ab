/** What a case's words, moves, signatures and ticket come to, said of the row and its timeline. */
module CaseLaws {
  import opened Common
  import opened CaseFile

  // --- words ----------------------------------------------------------------------------

  /** The seven words and the seven states name each other, one to one. */
  lemma WordsNameStates(s: State, w: string)
    ensures StateOf(NameOf(s)) == Some(s)
    ensures StateOf(w).Some? ==> NameOf(StateOf(w).value) == w
    ensures StateOf(w).Some? <==> w in {"NEW", "ASSIGNED", "IN_PROGRESS", "ESCALATED", "RESOLVED", "CLOSED", "REOPENED"}
    ensures (NameOf(s) == "CLOSED" <==> s == CLOSED) && (NameOf(s) == "RESOLVED" <==> s == RESOLVED)
    ensures (NameOf(s) == "NEW" <==> s == NEW) && (NameOf(s) == "REOPENED" <==> s == REOPENED)
    ensures (NameOf(s) == "ASSIGNED" <==> s == ASSIGNED) && (NameOf(s) == "IN_PROGRESS" <==> s == IN_PROGRESS)
  {
  }

  // --- moves ------------------------------------------------------------------------------

  /** How far the work has got; a reopened case starts from the beginning. */
  function Stage(s: State): nat {
    match s
    case NEW => 0
    case REOPENED => 0
    case ASSIGNED => 1
    case IN_PROGRESS => 2
    case ESCALATED => 3
    case RESOLVED => 4
    case CLOSED => 5
  }

  /** Work only moves on, but for two steps back: an escalated case is taken up again, a finished one reopened. */
  lemma MovesGoForward(a: State, b: State)
    ensures Allowed(a, b) <==>
      || Stage(a) < Stage(b)
      || (a == ESCALATED && b == IN_PROGRESS)
      || ((a == RESOLVED || a == CLOSED) && b == REOPENED)
  {
  }

  /** Closing is possible from every other state, and only reopening follows it. */
  lemma ClosingAndReopening(s: State)
    ensures Allowed(s, CLOSED) <==> s != CLOSED
    ensures Allowed(CLOSED, s) <==> s == REOPENED
    ensures !Allowed(s, NEW) && !Allowed(s, s)
  {
  }

  // --- what a request for a state comes to ----------------------------------------------------

  /** "closed", however spelled, closes the case and stamps it; nothing else does. */
  lemma AskingToClose(c: Case, word: string, actor: string, note: string, origin: Origin, externalState: string, at: int)
    ensures var r := SetState(c, word, actor, note, origin, externalState, at);
      && (Upper(Strip(word)) == "CLOSED" && c.row.state != CLOSED ==>
            && r.Ok? && r.case_.row.state == CLOSED && r.case_.row.closedAt == Some(at)
            && r.case_.row.closedBy == Clip(actor, 128)
            && r.case_.row.closureReason == if note == "" then None else Some(note))
      && (r.Ok? && r.case_.row.state == CLOSED ==> Upper(Strip(word)) == "CLOSED")
  {
    hide Strip, Upper, Append;
  }

  /** Leaving CLOSED forgets the closure. */
  lemma AskingToReopen(c: Case, word: string, actor: string, note: string, origin: Origin, externalState: string, at: int)
    requires c.row.state == CLOSED && Upper(Strip(word)) == "REOPENED"
    ensures var r := SetState(c, word, actor, note, origin, externalState, at);
      && r.Ok? && r.case_.row.state == REOPENED
      && r.case_.row.closedAt.None? && r.case_.row.closedBy == "" && r.case_.row.closureReason.None?
  {
    hide Strip, Upper, Append;
  }

  /** Every accepted change adds one timeline row saying what changed, signed by whoever made it. */
  lemma EveryChangeIsSigned(log: seq<Entry>, fact: Fact, actor: string, origin: Origin)
    ensures var after := Append(log, fact, actor, origin);
      && |after| == |log| + 1 && after[..|log|] == log
      && var e := after[|log|];
      && e.fact == fact && e.origin == origin && |e.actor| <= 128
      && (actor == "" ==> e.actor == "system")
      && (actor != "" ==> e.actor <= actor && |e.actor| == Min(|actor|, 128))
      && forall k :: 0 <= k < |log| ==> log[k].number < e.number
  {
    HighestIsHighest(log);
    assert "system"[..] == "system";
  }

  lemma {:induction false} HighestIsHighest(log: seq<Entry>)
    ensures forall k :: 0 <= k < |log| ==> log[k].number <= MaxNumber(log)
  {
    if log != [] {
      HighestIsHighest(log[..|log| - 1]);
    }
  }

  // --- priority ----------------------------------------------------------------------------------

  const SEVERITIES := ["CRITICAL", "HIGH", "MEDIUM", "LOW"]
  const PRIORITIES := ["P1", "P2", "P3", "P4"]

  /** The graver the severity, the earlier the priority, however it is spelled; an unknown one counts as MEDIUM. */
  lemma PriorityFollowsSeverity(severity: string)
    ensures forall i :: 0 <= i < 4 && Upper(Strip(severity)) == SEVERITIES[i] ==> PriorityFor(severity) == PRIORITIES[i]
    ensures Upper(Strip(severity)) !in SEVERITIES ==> PriorityFor(severity) == "P3"
  {
    hide Upper, Strip;
  }

  /** Refreshing a case with what it already shows changes nothing. */
  lemma GrowingTwice(c: Case, alert: Option<string>, title: string, severity: string)
    ensures var once := Grow(c, alert, title, severity);
      && Grow(once, alert, title, severity) == once
      && (severity != "" ==> once.row.severity == severity)
      && (alert.Some? && alert.value != "" ==> once.row.alert == alert)
      && (title != "" && title != c.row.title ==> once.row.title == Clip(title, 255))
  {
    hide PriorityFor;
  }

  // --- the ticket -----------------------------------------------------------------------------------

  /** A change for another reference does nothing. */
  lemma OthersTickets(c: Case, ch: Change, note: string, at: int)
    requires ch.ref != c.row.externalRef
    ensures Inbound(c, ch, note, at) == c
  {
  }

  /** A ticket reported closed closes its case, unless the site gave the word another meaning. */
  lemma TicketClosesCase(c: Case, ch: Change, note: string, at: int)
    requires Heeded(c.row, ch) && ALLOW_INBOUND_STATE && "closed" !in SITE_STATE_MAP
    requires Lower(Strip(ch.externalState)) == "closed" && ch.externalState != "" && c.row.state != CLOSED
    ensures var after := Inbound(c, ch, note, at).row;
      after.state == CLOSED && after.closedAt == Some(at) && after.externalState == Clip(ch.externalState, 64)
  {
    var a := InboundAssignee(Progress(c, [], []), c.row, ch);
    assert a.now.row.state != CLOSED by { hide Strip, Clip, Append; }
    ClosedWord();
    AskingToClose(a.now, "CLOSED", ActorOf(c.row, ch), note, SYNC, ch.externalState, at);
    hide Strip, Upper, Lower, Append, SetState, Assign, AddNote, ActorOf, InboundAssignee;
    assert STATE_MAP["closed"] == "CLOSED";
    var b := InboundState(a, c.row, ch, note, at);
    assert b.now.row.state == CLOSED && b.now.row.closedAt == Some(at);
    NoteKeepsRow(b, c.row, ch);
  }

  lemma ClosedWord()
    ensures Upper(Strip("CLOSED")) == "CLOSED"
  {
    StripOfTight("CLOSED");
    assert Upper("CLOSED") == "CLOSED";
  }

  lemma NoteKeepsRow(p: Progress, row: Row, ch: Change)
    ensures InboundNote(p, row, ch).now.row == p.now.row
  {
    hide Strip, Append;
  }

  /** A ticket handed over hands the case over; the last row names the ticketing system or whoever it named. */
  lemma TicketHandsOver(c: Case, ch: Change, note: string, at: int)
    requires Heeded(c.row, ch) && ALLOW_INBOUND_ASSIGNEE && ch.assignee.Some? && c.row.state != CLOSED
    requires Strip(ch.assignee.value) != c.row.assignee
    ensures Inbound(c, ch, note, at).row.assignee == Clip(Strip(ch.assignee.value), 128)
  {
    StripTight(ch.assignee.value);
    StripOfTight(Strip(ch.assignee.value));
    hide Strip, Clip, Append, Upper, Lower, StateOf, NameOf, ActorOf;
    var a := InboundAssignee(Progress(c, [], []), c.row, ch);
    assert a.now.row.assignee == Clip(Strip(ch.assignee.value), 128);
    var b := InboundState(a, c.row, ch, note, at);
    assert b.now.row.assignee == a.now.row.assignee;
    NoteKeepsRow(b, c.row, ch);
  }

  /** With a switch off, the ticket cannot touch what it governs. */
  lemma SwitchesBar(c: Case, ch: Change, note: string, at: int)
    ensures !ALLOW_INBOUND_ASSIGNEE ==> Inbound(c, ch, note, at).row.assignee == c.row.assignee
    ensures !ALLOW_INBOUND_ASSIGNEE && !ALLOW_INBOUND_STATE ==> Inbound(c, ch, note, at).row.state == c.row.state
  {
    hide Strip, Clip, Append, Upper, Lower, StateOf, NameOf, ActorOf;
    var a := InboundAssignee(Progress(c, [], []), c.row, ch);
    var b := InboundState(a, c.row, ch, note, at);
    assert b.now.row.assignee == a.now.row.assignee;
    NoteKeepsRow(b, c.row, ch);
  }

  /** Who a change is put down to. */
  lemma ChangeIsPutDownTo(row: Row, ch: Change)
    ensures ch.actor != "" ==> ActorOf(row, ch) == ch.actor
    ensures ch.actor == "" && row.externalSystem != "" ==> ActorOf(row, ch) == row.externalSystem
    ensures ch.actor == "" && row.externalSystem == "" ==> ActorOf(row, ch) == "system-of-record"
  {
  }
}
