/** The case row and its timeline updated in place, refining the transactions of the case file. */
module CaseTables {
  import opened Common
  import opened CaseFile
  import Laws = CaseLaws

  class CaseRecord {
    var row: Row
    var log: seq<Entry>

    function State(): Case
      reads this
    {
      Case(row, log)
    }

    /** A situation analysed for the first time opens its case. */
    constructor (situation: string, alert: Option<string>, title: string, severity: string)
      ensures State() == Open(situation, alert, title, severity)
      ensures row.state == NEW && row.assignee == "" && row.tier == 0 && row.revision == 0 && row.closedAt.None?
      ensures row.priority == PriorityFor(severity) && row.alert == alert && row.syncStatus == LOCAL
      ensures |log| == 1 && log[0].number == 1 && log[0].fact == Created && log[0].origin == SYSTEM
    {
      row := Open(situation, alert, title, severity).row;
      log := Append([], Created, "AfraSOC", SYSTEM);
    }

    /** The highest number on the timeline, or 0. */
    method HighestNumber() returns (n: nat)
      ensures n == MaxNumber(log)
      ensures forall k :: 0 <= k < |log| ==> log[k].number <= n
    {
      n := 0;
      for i := 0 to |log|
        invariant n == MaxNumber(log[..i])
        invariant forall k :: 0 <= k < i ==> log[k].number <= n
      {
        assert log[..i + 1][..i] == log[..i];
        if log[i].number > n { n := log[i].number; }
      }
      assert log[..|log|] == log;
    }

    method AppendEvent(fact: Fact, actor: string, origin: Origin)
      modifies this`log
      ensures log == Append(old(log), fact, actor, origin)
    {
      var n := HighestNumber();
      log := log + [Entry(n + 1, fact, Clip(if actor == "" then "system" else actor, 128), origin)];
    }

    method EnsureCase(alert: Option<string>, title: string, severity: string)
      modifies this`row
      ensures State() == Grow(old(State()), alert, title, severity)
      ensures row.state == old(row.state) && row.assignee == old(row.assignee) && row.tier == old(row.tier)
      ensures row.priority != old(row.priority) ==> old(row.state) == NEW && old(row.assignee) == ""
      ensures row.severity == if severity != "" then severity else old(row.severity)
      ensures row.title == if title != "" && title != old(row.title) then Clip(title, 255) else old(row.title)
      ensures row.alert == if alert.Some? && alert.value != "" then alert else old(row.alert)
    {
      var was := row;
      if title != "" && title != was.title { row := row.(title := Clip(title, 255)); }
      if severity != "" && severity != was.severity {
        row := row.(severity := severity);
        if was.state == NEW && was.assignee == "" { row := row.(priority := PriorityFor(severity)); }
      }
      if alert.Some? && alert.value != "" && alert != was.alert { row := row.(alert := alert); }
    }

    method AssignCase(assignee: string, actor: string) returns (refused: Option<Refusal>)
      modifies this
      ensures State() == After(old(State()), Assign(old(State()), assignee, actor))
      ensures refused == if old(row.state) == CLOSED then Some(Conflict) else None
      ensures refused.None? ==>
        && row.assignee == Clip(Strip(assignee), 128) && row.assignedBy == Clip(actor, 128)
        && (row.state == if row.assignee != "" && old(row.state) == NEW then ASSIGNED else old(row.state))
        && |log| == |old(log)| + 1 && log[|old(log)|].fact == Assigned(old(row.assignee), row.assignee)
      ensures refused.Some? ==> State() == old(State())
    {
      var target := Clip(Strip(assignee), 128);
      if row.state == CLOSED {
        return Some(Conflict);
      }
      var was := row.assignee;
      row := row.(assignee := target, assignedBy := Clip(actor, 128));
      if target != "" && row.state == NEW { row := row.(state := ASSIGNED); }
      AppendEvent(Assigned(was, target), actor, HUMAN);
      refused := None;
    }

    method SetCaseState(word: string, actor: string, note: string, origin: Origin, externalState: string, at: int)
      returns (refused: Option<Refusal>)
      modifies this
      ensures State() == After(old(State()), SetState(old(State()), word, actor, note, origin, externalState, at))
      ensures refused == Some(Malformed) <==> forall s :: NameOf(s) != Upper(Strip(word))
      ensures refused.None? <==>
        exists s :: NameOf(s) == Upper(Strip(word)) && (s == old(row.state) || Allowed(old(row.state), s))
      ensures refused.None? ==> NameOf(row.state) == Upper(Strip(word))
      ensures refused.None? && Upper(Strip(word)) == "CLOSED" ==> row.state == CLOSED
      ensures refused.None? && Upper(Strip(word)) == "CLOSED" && old(row.state) != CLOSED ==>
        row.closedAt == Some(at) && row.closedBy == Clip(actor, 128)
      ensures old(row.closedAt.Some? <==> row.state == CLOSED) ==> (row.closedAt.Some? <==> row.state == CLOSED)
      ensures refused.None? && row.state != old(row.state) ==>
        |log| == |old(log)| + 1 && log[|old(log)|].fact == Moved(old(row.state), row.state) && log[|old(log)|].origin == origin
      ensures refused.Some? ==> State() == old(State())
    {
      Words(Upper(Strip(word)));
      hide Strip, Upper, StateOf, NameOf, MaxNumber;
      var found := StateOf(Upper(Strip(word)));
      if found.None? {
        return Some(Malformed);
      }
      var target, current := found.value, row.state;
      if target == current {
        return None;
      }
      if !Allowed(current, target) {
        return Some(Conflict);
      }
      row := row.(state := target);
      if target == CLOSED {
        row := row.(closedBy := Clip(actor, 128), closedAt := Some(at), closureReason := if note != "" then Some(note) else None);
      } else if current == CLOSED {
        row := row.(closedBy := "", closedAt := None, closureReason := None);
      }
      if externalState != "" { row := row.(externalState := Clip(externalState, 64)); }
      AppendEvent(Moved(current, target), actor, origin);
      refused := None;
    }

    method EscalateCase(tier: int, to: string, actor: string) returns (refused: Option<Refusal>)
      modifies this
      ensures State() == After(old(State()), Escalate(old(State()), tier, to, actor))
      ensures refused.None? <==> 1 <= tier <= 9 && old(row.state) != CLOSED && old(row.tier) < tier
      ensures refused.None? ==>
        && row.tier == tier && row.escalatedTo == Clip(Strip(to), 128)
        && (row.state == if old(row.state) == RESOLVED then RESOLVED else ESCALATED)
        && |log| == |old(log)| + 1 && log[|old(log)|].fact == Escalated(tier, old(row.tier))
      ensures refused.Some? ==> State() == old(State())
    {
      if tier < 1 || tier > 9 {
        return Some(Malformed);
      }
      if row.state == CLOSED || tier <= row.tier {
        return Some(Conflict);
      }
      var was := row;
      row := row.(tier := tier, escalatedTo := Clip(Strip(to), 128));
      if Allowed(was.state, ESCALATED) { row := row.(state := ESCALATED); }
      AppendEvent(Escalated(tier, was.tier), actor, HUMAN);
      refused := None;
    }

    method AddCaseNote(note: string, actor: string, origin: Origin) returns (refused: Option<Refusal>)
      modifies this`log
      ensures State() == After(old(State()), AddNote(old(State()), note, actor, origin))
      ensures refused.Some? <==> Strip(note) == ""
      ensures refused.None? ==>
        && |log| == |old(log)| + 1 && log[|old(log)|].fact == Note(Clip(Strip(note), MAX_NOTE_LENGTH))
        && log[|old(log)|].origin == origin
    {
      var text := Strip(note);
      if text == "" {
        return Some(Malformed);
      }
      AppendEvent(Note(Clip(text, MAX_NOTE_LENGTH)), actor, origin);
      refused := None;
    }

    /** The part of a push after the provider answered; `s` is what was read before it was asked. */
    method FinishPush(s: Snapshot, provider: string, reply: Reply)
      modifies this
      ensures State() == EndPush(old(State()), s, provider, reply)
      ensures reply.Failed? ==> log == old(log) && row == old(row).(syncStatus := ERROR)
      ensures reply.Pushed? ==>
        && row.revision == s.revision && row.externalRef == Clip(reply.ref, 128) && row.externalSystem == provider
        && row.externalState == Clip(if reply.state != "" then reply.state else s.externalState, 64)
        && row.syncStatus == OK && |log| == |old(log)| + 1 && log[|old(log)|].fact == SyncOut(s.revision)
    {
      match reply
      case Failed =>
        row := row.(syncStatus := ERROR);
      case Pushed(ref, state) =>
        row := row.(externalSystem := provider, externalRef := Clip(ref, 128),
                    externalState := Clip(if state != "" then state else s.externalState, 64),
                    syncStatus := OK, revision := s.revision);
        AppendEvent(SyncOut(s.revision), provider, SYNC);
    }

    /** A push with nothing in between: the revision grows by one on success and never otherwise. */
    method PushCase(provider: string, reply: Reply) returns (synced: bool)
      modifies this
      ensures provider == "none" ==> !synced && State() == old(State())
      ensures provider != "none" ==> State() == EndPush(old(State()), Snap(old(State())), provider, reply)
      ensures synced <==> provider != "none" && reply.Pushed?
      ensures row.revision == old(row.revision) + (if synced then 1 else 0)
      ensures synced ==> |log| == |old(log)| + 1 && log[|log| - 1].fact == SyncOut(row.revision)
    {
      if provider == "none" {
        return false;
      }
      var snapshot := Snapshot(row.revision + 1, row.externalState);
      FinishPush(snapshot, provider, reply);
      synced := reply.Pushed?;
    }

    /** Apply one observed change: assignee, then state, then note, then the row that says what came of it. */
    method ApplyInbound(ch: Change, note: string, at: int) returns (applied: seq<Field>, refused: seq<Field>)
      modifies this
      ensures State() == Inbound(old(State()), ch, note, at)
      ensures !Heeded(old(row), ch) ==> applied == [] && refused == [] && State() == old(State())
      ensures Heeded(old(row), ch) ==> log[|log| - 1].fact == SyncIn(applied, refused)
    {
      hide Assign, SetState, AddNote, Strip, Lower, Clip, NameOf, StateOf, Upper, MaxNumber, STATE_MAP, ActorOf;
      ghost var was := State();
      applied, refused := [], [];
      if !Heeded(row, ch) {
        return;
      }
      var seen := row;
      var actor := ActorOf(seen, ch);
      if ALLOW_INBOUND_ASSIGNEE && ch.assignee.Some? {
        var target := Strip(ch.assignee.value);
        if target != seen.assignee {
          var no := AssignCase(target, actor);
          assert no.None? <==> Assign(was, target, actor).Ok? by { AssignOk(was, target, actor); }
          if no.None? { applied := applied + [AssigneeField]; } else { refused := refused + [AssigneeField]; }
        }
      }
      ghost var a := InboundAssignee(Progress(was, [], []), seen, ch);
      assert a == Progress(State(), applied, refused);
      if ALLOW_INBOUND_STATE && ch.externalState != "" {
        var key := Lower(Strip(ch.externalState));
        if key !in STATE_MAP {
          refused := refused + [StateField];
        } else if STATE_MAP[key] != NameOf(seen.state) {
          var no := SetCaseState(STATE_MAP[key], actor, note, SYNC, ch.externalState, at);
          assert no.None? <==> SetState(a.now, STATE_MAP[key], actor, note, SYNC, ch.externalState, at).Ok? by {
            SetStateOk(a.now, STATE_MAP[key], actor, note, SYNC, ch.externalState, at);
          }
          if no.None? { applied := applied + [StateField]; } else { refused := refused + [StateField]; }
        }
      }
      ghost var b := InboundState(a, seen, ch, note, at);
      assert b == Progress(State(), applied, refused);
      if Strip(ch.note) != "" {
        var no := AddCaseNote(Strip(ch.note), actor, SYNC);
        NoteOk(b.now, ch.note, actor, SYNC);
        applied := applied + [NoteField];
      }
      assert InboundNote(b, seen, ch) == Progress(State(), applied, refused);
      if ch.externalState != "" { row := row.(externalState := Clip(ch.externalState, 64)); }
      AppendEvent(SyncIn(applied, refused), actor, SYNC);
    }
  }

  /** A word is found exactly when it names a state, and then it is that state's name. */
  lemma Words(w: string)
    ensures forall s :: NameOf(s) == w <==> StateOf(w) == Some(s)
    ensures w == "CLOSED" ==> StateOf(w) == Some(CLOSED)
  {
    forall s ensures NameOf(s) == w <==> StateOf(w) == Some(s) { Laws.WordsNameStates(s, w); }
  }

  lemma AssignOk(c: Case, assignee: string, actor: string)
    ensures Assign(c, assignee, actor).Ok? <==> c.row.state != CLOSED
  {
  }

  lemma SetStateOk(c: Case, word: string, actor: string, note: string, origin: Origin, externalState: string, at: int)
    ensures SetState(c, word, actor, note, origin, externalState, at).Ok? <==>
      exists s :: NameOf(s) == Upper(Strip(word)) && (s == c.row.state || Allowed(c.row.state, s))
  {
    Words(Upper(Strip(word)));
    hide Strip, Upper, StateOf, NameOf;
  }

  lemma NoteOk(c: Case, note: string, actor: string, origin: Origin)
    requires Strip(note) != ""
    ensures AddNote(c, Strip(note), actor, origin).Ok?
  {
    hide Strip;
    StripTight(note);
    StripOfTight(Strip(note));
  }
}
