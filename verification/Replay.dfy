/** The audit log alone rebuilds the ticket table, up to bodies and timestamps. */
module Replay {
  import opened Wrappers
  import opened Json
  import opened Store
  import opened Audit
  import opened Validation
  import opened Gateway
  import opened Runs

  datatype Summary = Summary(team: string, title: string, status: string, createdBy: string)

  /** The table as the log can know it; `next` is the next row id. */
  datatype Board = Board(rows: map<int, Summary>, next: int)

  function SummaryOf(t: Ticket): Summary {
    Summary(t.team, t.title, t.status, t.createdBy)
  }

  function BoardOf(s: System): Board {
    Board(map id | id in s.tickets :: SummaryOf(s.tickets[id]), s.nextTicketId)
  }

  /** Read one event: only an allowed creation or status change matters. */
  function Apply(codec: Codec, b: Board, e: Event): Board {
    var args := codec.loads(e.fields.argsJson);
    if e.fields.decision != ALLOW then b
    else
      match ToolOf(e.fields.tool)
      case CreateTicket =>
        var author := if e.fields.clientId.Some? then e.fields.clientId.value else "";
        Board(b.rows[b.next := Summary(TextOf(args, TEAM), TextOf(args, TITLE), "open", author)], b.next + 1)
      case UpdateTicketStatus =>
        var id := IntegerOf(args, TICKET_ID);
        if id in b.rows then b.(rows := b.rows[id := b.rows[id].(status := TextOf(args, STATUS))]) else b
      case _ => b
  }

  /** Fold the events, oldest first. */
  function Rebuild(codec: Codec, b: Board, events: seq<Event>): Board {
    if events == [] then b else Apply(codec, Rebuild(codec, b, events[..|events| - 1]), events[|events| - 1])
  }

  lemma LoweredLengths()
    ensures !Redacted(TEAM) && !Redacted(TITLE) && !Redacted(STATUS) && !Redacted(TICKET_ID)
  {
    assert |LowerAll(TEAM)| == 4 && LowerAll(TEAM)[0] == 't' && "body"[0] == 'b';
    assert |LowerAll(TITLE)| == 5 && LowerAll(TITLE)[1] == 'i' && "token"[1] == 'o';
    assert |LowerAll(STATUS)| == 6 && |LowerAll(TICKET_ID)| == 9;
  }

  /** Redaction leaves every argument the fold reads. */
  lemma RedactionKeeps(args: Args)
    ensures Given(SafeArgs(args), TEAM) == Given(args, TEAM)
    ensures Given(SafeArgs(args), TITLE) == Given(args, TITLE)
    ensures Given(SafeArgs(args), STATUS) == Given(args, STATUS)
    ensures Given(SafeArgs(args), TICKET_ID) == Given(args, TICKET_ID)
  {
    LoweredLengths();
    hide Redacted;
  }

  lemma BoardAfterCreation(s: System, t: System, row: Ticket)
    requires t.tickets == s.tickets[s.nextTicketId := row] && t.nextTicketId == s.nextTicketId + 1
    ensures BoardOf(t) == Board(BoardOf(s).rows[s.nextTicketId := SummaryOf(row)], s.nextTicketId + 1)
  {
  }

  lemma BoardAfterStatus(s: System, t: System, id: int, status: string, now: real)
    requires id in s.tickets && t.tickets == SetStatus(s.tickets, id, status, now) && t.nextTicketId == s.nextTicketId
    ensures id in BoardOf(s).rows
    ensures BoardOf(t) == BoardOf(s).(rows := BoardOf(s).rows[id := BoardOf(s).rows[id].(status := status)])
  {
  }

  /** The event a call appends tells the fold exactly what the call did to the table. */
  lemma CallIsReplayed(gate: Gate, s: System, inv: Invocation, r: Readings)
    requires gate.limits.Valid() && gate.codec.RoundTrips()
    ensures var (t, outcome) := Invoke(gate, s, inv, r);
            var e := Recorded(gate.codec, s.events, EntryOf(gate, s, inv, r, outcome), r.stamp);
            t.events == s.events + [e] && Apply(gate.codec, BoardOf(s), e) == BoardOf(t)
  {
    hide Invoke, Authenticate, ToolOf, BoardOf, Tag, SafeArgs, Given, Permitted;
    var (t, outcome) := Invoke(gate, s, inv, r);
    InvokeEffect(gate, s, inv, r);
    RedactionKeeps(inv.args);
    assert gate.codec.loads(gate.codec.dumps(SafeArgs(inv.args))) == SafeArgs(inv.args);
    BoardNext(s);
    if outcome.Success? && ToolOf(inv.tool) == CreateTicket {
      BoardAfterCreation(s, t, t.tickets[s.nextTicketId]);
    } else if outcome.Success? && ToolOf(inv.tool) == UpdateTicketStatus {
      BoardAfterStatus(s, t, IntegerOf(inv.args, TICKET_ID), TextOf(inv.args, STATUS), r.writeAt);
    } else {
      SameTicketsSameBoard(s, t);
    }
  }

  lemma BoardNext(s: System)
    ensures BoardOf(s).next == s.nextTicketId
  {
  }

  lemma SameTicketsSameBoard(s: System, t: System)
    requires LeavesTickets(s, t)
    ensures BoardOf(s) == BoardOf(t)
  {
  }

  lemma RebuildAppend(codec: Codec, b: Board, events: seq<Event>, e: Event)
    ensures Rebuild(codec, b, events + [e]) == Apply(codec, Rebuild(codec, b, events), e)
  {
    assert (events + [e])[..|events|] == events;
  }

  /** Any two seedings look the same to the log. */
  lemma SeedBoard(now: real, later: real)
    ensures BoardOf(Seeded(now)) == BoardOf(Seeded(later))
  {
  }

  lemma RejectionChangesNothing(gate: Gate, b: Board, events: seq<Event>, entry: Entry, stamp: Stamp)
    requires entry.decision == DENY
    ensures Apply(gate.codec, b, Recorded(gate.codec, events, entry, stamp)) == b
  {
    hide Tag, SafeArgs, ToolOf;
  }

  lemma StepIsReplayed(gate: Gate, s: System, step: Step, b: Board)
    requires gate.limits.Valid() && gate.codec.RoundTrips() && Rebuild(gate.codec, b, s.events) == BoardOf(s)
    ensures Rebuild(gate.codec, b, Next(gate, s, step).events) == BoardOf(Next(gate, s, step))
  {
    hide Invoke, BoardOf, Apply, Codec.RoundTrips, Recorded;
    match step
    case Call(inv, r) =>
      CallIsReplayed(gate, s, inv, r);
      RebuildAppend(gate.codec, b, s.events,
                    Recorded(gate.codec, s.events, EntryOf(gate, s, inv, r, Invoke(gate, s, inv, r).1), r.stamp));
    case Grant(op) =>
      SameTicketsSameBoard(s, Next(gate, s, step));
    case Rejected(requestId, clientId, tool, args, stamp) =>
      var e := Recorded(gate.codec, s.events, RejectedEntry(gate, requestId, clientId, tool, args), stamp);
      SameTicketsSameBoard(s, Next(gate, s, step));
      RebuildAppend(gate.codec, b, s.events, e);
      RejectionChangesNothing(gate, BoardOf(s), s.events, RejectedEntry(gate, requestId, clientId, tool, args), stamp);
  }

  /**
    After every run, folding the log over the seed rows gives every ticket's id, team, title, status and
    author, and the next id.
   */
  lemma {:induction false} LogDeterminesTickets(gate: Gate, now: real, steps: seq<Step>)
    requires gate.limits.Valid() && gate.codec.RoundTrips()
    ensures var s := Exec(gate, Seeded(now), steps);
            Rebuild(gate.codec, BoardOf(Seeded(0.0)), s.events) == BoardOf(s)
  {
    hide Next, BoardOf, Apply, Codec.RoundTrips, SeedRows;
    if steps == [] {
      SeedBoard(now, 0.0);
    } else {
      LogDeterminesTickets(gate, now, steps[..|steps| - 1]);
      StepIsReplayed(gate, Exec(gate, Seeded(now), steps[..|steps| - 1]), steps[|steps| - 1], BoardOf(Seeded(0.0)));
    }
  }
}
