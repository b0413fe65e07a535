/** What a call answers, what it is refused for, and what its event says, in the caller's own terms. */
module Answers {
  import opened Wrappers
  import opened Json
  import opened Policy
  import opened RateLimit
  import opened Canonical
  import opened Store
  import opened Audit
  import opened Auth
  import opened Validation
  import opened Gateway
  import opened Runs
  import RateWitness

  // ---------- Reaching the tool ----------

  /** Each tool answers to one name. */
  lemma ToolNames(name: string)
    ensures ToolOf(name) == ListTickets <==> name == "list_tickets"
    ensures ToolOf(name) == GetTicket <==> name == "get_ticket"
    ensures ToolOf(name) == CreateTicket <==> name == "create_ticket"
    ensures ToolOf(name) == UpdateTicketStatus <==> name == "update_ticket_status"
    ensures ToolOf(name) == AuditRecent <==> name == "audit_recent"
  {
    assert "list_tickets"[0] == 'l' && "audit_recent"[0] == 'a';
    assert |"list_tickets"| == 12 && |"get_ticket"| == 10 && |"create_ticket"| == 13;
    assert |"update_ticket_status"| == 20 && |"audit_recent"| == 12;
  }

  /** The token is accepted and the bucket of its client can pay for one call. */
  ghost predicate Paid(gate: Gate, s: System, inv: Invocation, r: Readings)
    requires gate.limits.Valid()
  {
    var access := Authenticate(gate, s, inv.token, r);
    access.Some? && Admit(gate.limits, Lookup(s.buckets, access.value.clientId), r.limiterAt, 1.0).1.allowed
  }

  /** Past authentication, the limiter and the scope check. */
  ghost predicate Admitted(gate: Gate, s: System, inv: Invocation, r: Readings)
    requires gate.limits.Valid()
  {
    && Paid(gate, s, inv, r)
    && inv.tool in gate.cfg.policy.tools
    && gate.cfg.policy.tools[inv.tool].scope in Authenticate(gate, s, inv.token, r).value.scopes
  }

  function TeamsOfCaller(gate: Gate, s: System, inv: Invocation, r: Readings): set<string> {
    var access := Authenticate(gate, s, inv.token, r);
    if access.Some? then access.value.claims.teams else {}
  }

  ghost predicate PassesAll(gate: Gate, s: System, inv: Invocation, r: Readings)
    requires gate.limits.Valid()
  {
    Admitted(gate, s, inv, r) && ProperArgs(ToolOf(inv.tool), inv.args)
  }

  /** What a dispatch did to the tickets, and its answer. */
  ghost predicate Ends(s: System, tool: Tool, args: Args, access: Access, now: real, t: System, outcome: Outcome) {
    exists d: System :: d.tickets == s.tickets && d.nextTicketId == s.nextTicketId && d.events == s.events
                        && EndsFrom(d, tool, args, access, now, t, outcome)
  }

  ghost predicate EndsFrom(d: System, tool: Tool, args: Args, access: Access, now: real, t: System, outcome: Outcome) {
    && outcome == Dispatch(d, tool, args, access, now).1
    && t.tickets == Dispatch(d, tool, args, access, now).0.tickets
    && t.nextTicketId == Dispatch(d, tool, args, access, now).0.nextTicketId
  }

  /** A call the guards let through ends as its dispatch does; any other ends at the guard that stopped it. */
  lemma CallEnds(gate: Gate, s: System, inv: Invocation, r: Readings)
    requires gate.limits.Valid()
    ensures var (t, outcome) := Invoke(gate, s, inv, r);
            var access := Authenticate(gate, s, inv.token, r);
            var clean := Validate(ToolOf(inv.tool), inv.args);
            if access.None? then outcome == Failure(InvalidToken)
            else if !Paid(gate, s, inv, r) then outcome.Failure? && outcome.error.RateLimited?
            else if !Admitted(gate, s, inv, r) then
              outcome == Failure(Forbidden(if inv.tool in gate.cfg.policy.tools
                                           then MissingScope(gate.cfg.policy.tools[inv.tool].scope)
                                           else PermissionError.UnknownTool))
            else if clean.Failure? then outcome == Failure(clean.error)
            else Ends(s, ToolOf(inv.tool), clean.value, access.value, r.writeAt, t, outcome)
  {
    hide Dispatch, Validate, Admit, LoadAccess, ToolOf, EntryOf, Recorded;
    var access := Authenticate(gate, s, inv.token, r);
    var clean := Validate(ToolOf(inv.tool), inv.args);
    if Admitted(gate, s, inv, r) && clean.Success? {
      var charged := Charge(gate, s, access.value.clientId, r.limiterAt).0;
      assert EndsFrom(charged, ToolOf(inv.tool), clean.value, access.value, r.writeAt, Invoke(gate, s, inv, r).0,
                      Invoke(gate, s, inv, r).1);
    }
  }

  // ---------- What each tool answers ----------

  /** The rows of the caller's teams, with the status asked for if any, by increasing id. */
  ghost predicate ListsScope(tickets: map<int, Ticket>, teams: set<string>, args: Args, rows: seq<Ticket>) {
    && (forall row: Ticket :: row in rows <==>
          && row.id in tickets && tickets[row.id] == row
          && row.team in teams && StatusMatches(args, row))
    && (forall j, k :: 0 <= j < k < |rows| ==> rows[j].id < rows[k].id)
  }

  ghost predicate StatusMatches(args: Args, row: Ticket) {
    "status" in args && args["status"].Text? ==> row.status == args["status"].s
  }

  /** The limit of an audit read: twenty unless asked otherwise, and between one and a hundred. */
  ghost predicate IsLimit(args: Args, limit: nat) {
    if "limit" !in args || args["limit"].Null? || args["limit"] == Value.Integer(0) then limit == 20
    else if !args["limit"].Integer? then false
    else if args["limit"].i < 1 then limit == 1
    else if args["limit"].i > 100 then limit == 100
    else limit == args["limit"].i
  }

  ghost predicate Readable(tickets: map<int, Ticket>, args: Args, teams: set<string>) {
    && "ticket_id" in args && args["ticket_id"].Integer?
    && args["ticket_id"].i in tickets && tickets[args["ticket_id"].i].team in teams
  }

  /** The id an argument names fits the driver's 64 bits. */
  ghost predicate Fits64(args: Args) {
    "ticket_id" in args && args["ticket_id"].Integer? &&
    -0x8000_0000_0000_0000 <= args["ticket_id"].i < 0x8000_0000_0000_0000
  }

  /** A lookup answers the row, not_found for a hidden or absent one alike, or faults on an id it cannot bind. */
  ghost predicate LooksUp(s: System, args: Args, teams: set<string>, outcome: Outcome) {
    && (outcome.Success? <==> Fits64(args) && Readable(s.tickets, args, teams))
    && (outcome.Failure? ==> outcome.error == if Fits64(args) then NotFound else InternalError)
  }

  ghost predicate Answered(tool: Tool, args: Args, access: Access, now: real, s: System, t: System, outcome: Outcome)
    requires ProperArgs(tool, args)
  {
    var teams := access.claims.teams;
    match tool
    case ListTickets =>
      && LeavesTickets(s, t)
      && outcome.Success? && outcome.value.Tickets?
      && (KeyedByIdBelow(s.tickets, s.nextTicketId) ==> ListsScope(s.tickets, teams, args, outcome.value.rows))
    case GetTicket =>
      && LeavesTickets(s, t)
      && LooksUp(s, args, teams, outcome)
      && (outcome.Success? ==> outcome.value == OneTicket(s.tickets[args["ticket_id"].i]))
    case CreateTicket =>
      var row := Ticket(s.nextTicketId, args["team"].s, args["title"].s, args["body"].s, "open", access.clientId, now,
                        now);
      && (outcome.Success? <==> args["team"].s in teams)
      && (outcome.Success? ==>
            && outcome.value == OneTicket(row)
            && t.tickets == s.tickets[s.nextTicketId := row] && t.nextTicketId == s.nextTicketId + 1)
      && (outcome.Failure? ==> outcome.error == RowScopeViolation && LeavesTickets(s, t))
    case UpdateTicketStatus =>
      var id := args["ticket_id"].i;
      && LooksUp(s, args, teams, outcome)
      && (outcome.Success? ==>
            var row := s.tickets[id].(status := args["status"].s, updatedAt := now);
            && outcome.value == OneTicket(row)
            && t.tickets == s.tickets[id := row] && t.nextTicketId == s.nextTicketId)
      && (outcome.Failure? ==> LeavesTickets(s, t))
    case AuditRecent =>
      && LeavesTickets(s, t)
      && outcome.Success? && outcome.value.Events?
      && (Ordered(s.events) ==>
            exists limit: nat :: IsLimit(args, limit) && NewestInScope(s.events, limit, teams, outcome.value.events))
  }

  lemma TicketToolAnswers(s: System, tool: Tool, args: Args, access: Access, now: real)
    requires ProperArgs(tool, args) && Validate(tool, args).Success?
    requires tool == GetTicket || tool == CreateTicket || tool == UpdateTicketStatus
    ensures var (t, outcome) := Dispatch(s, tool, Validate(tool, args).value, access, now);
            Answered(tool, args, access, now, s, t, outcome)
  {
    ValidatedArguments(tool, args);
    var clean := Validate(tool, args).value;
    assert Given(clean, TICKET_ID) == Given(args, TICKET_ID) && Given(clean, STATUS) == Given(args, STATUS);
    assert Given(clean, TEAM) == Given(args, TEAM) && Given(clean, TITLE) == Given(args, TITLE);
    assert Given(clean, BODY) == Given(args, BODY);
    hide Validate, ProperText, Blank, SelectTickets, AuditEvents;
  }

  lemma ListAnswers(s: System, args: Args, access: Access, now: real)
    requires ProperArgs(ListTickets, args) && Validate(ListTickets, args).Success?
    ensures var (t, outcome) := Dispatch(s, ListTickets, Validate(ListTickets, args).value, access, now);
            Answered(ListTickets, args, access, now, s, t, outcome)
  {
    ValidatedArguments(ListTickets, args);
    var clean := Validate(ListTickets, args).value;
    assert Given(clean, STATUS) == Given(args, STATUS);
    hide Validate, ProperText, SelectTickets, AuditEvents;
    if KeyedByIdBelow(s.tickets, s.nextTicketId) {
      ListingIsTheSelection(s.tickets, s.nextTicketId, access.claims.teams, OptionalStatus(clean));
    }
  }

  lemma AuditAnswers(s: System, args: Args, access: Access, now: real)
    requires ProperArgs(AuditRecent, args) && Validate(AuditRecent, args).Success?
    ensures var (t, outcome) := Dispatch(s, AuditRecent, Validate(AuditRecent, args).value, access, now);
            Answered(AuditRecent, args, access, now, s, t, outcome)
  {
    ValidatedArguments(AuditRecent, args);
    var clean := Validate(AuditRecent, args).value;
    assert Given(clean, LIMIT) == Given(args, LIMIT);
    hide Validate, SelectTickets, AuditEvents, NewestInScope;
    assert IsLimit(args, AuditLimit(clean));
    if Ordered(s.events) {
      hide Ordered;
      ScopedReadIsNewestInScope(s.events, AuditLimit(clean), access.claims.teams);
    }
  }

  lemma DispatchAnswers(s: System, tool: Tool, args: Args, access: Access, now: real)
    requires ProperArgs(tool, args) && Validate(tool, args).Success?
    ensures var (t, outcome) := Dispatch(s, tool, Validate(tool, args).value, access, now);
            Answered(tool, args, access, now, s, t, outcome)
  {
    hide Answered, Dispatch, Validate, ProperText, Blank;
    if tool == ListTickets {
      ListAnswers(s, args, access, now);
    } else if tool == AuditRecent {
      AuditAnswers(s, args, access, now);
    } else {
      TicketToolAnswers(s, tool, args, access, now);
    }
  }

  lemma AnsweredTransfers(tool: Tool, args: Args, access: Access, now: real, d: System, dt: System, s: System, t: System,
                          outcome: Outcome)
    requires ProperArgs(tool, args) && Answered(tool, args, access, now, d, dt, outcome)
    requires d.tickets == s.tickets && d.nextTicketId == s.nextTicketId && d.events == s.events
    requires dt.tickets == t.tickets && dt.nextTicketId == t.nextTicketId
    ensures Answered(tool, args, access, now, s, t, outcome)
  {
    hide ListsScope, NewestInScope, IsLimit, Ordered, KeyedByIdBelow, ProperText, Blank;
  }

  /** Any call: past all guards it is answered by its tool, and otherwise it is refused and changes no ticket. */
  lemma CallAnswers(gate: Gate, s: System, inv: Invocation, r: Readings)
    requires gate.limits.Valid()
    ensures var (t, outcome) := Invoke(gate, s, inv, r);
            && (PassesAll(gate, s, inv, r) ==>
                  && Authenticate(gate, s, inv.token, r).Some?
                  && Answered(ToolOf(inv.tool), inv.args, Authenticate(gate, s, inv.token, r).value, r.writeAt, s, t,
                              outcome))
            && (!PassesAll(gate, s, inv, r) ==> outcome.Failure? && LeavesTickets(s, t))
  {
    CallEnds(gate, s, inv, r);
    RefusesExactly(ToolOf(inv.tool), inv.args);
    InvokeEffect(gate, s, inv, r);
    hide Invoke, Validate, Answered, Dispatch, ProperArgs, RefusedFor, Authenticate, ToolOf, Admit, Permitted, CreatesRow,
         SetsStatus, BucketsAfter, Recorded, EntryOf;
    var (t, outcome) := Invoke(gate, s, inv, r);
    if PassesAll(gate, s, inv, r) {
      var access := Authenticate(gate, s, inv.token, r).value;
      var tool := ToolOf(inv.tool);
      var clean := Validate(tool, inv.args).value;
      var d: System :| d.tickets == s.tickets && d.nextTicketId == s.nextTicketId && d.events == s.events
                       && EndsFrom(d, tool, clean, access, r.writeAt, t, outcome);
      DispatchAnswers(d, tool, inv.args, access, r.writeAt);
      AnsweredTransfers(tool, inv.args, access, r.writeAt, d, Dispatch(d, tool, clean, access, r.writeAt).0, s, t,
                        outcome);
    }
  }

  /** A successful get_ticket returns the stored row, and succeeds exactly for a row of the caller's teams. */
  lemma GetTicketAnswers(gate: Gate, s: System, inv: Invocation, r: Readings)
    requires gate.limits.Valid() && inv.tool == "get_ticket"
    ensures var (t, outcome) := Invoke(gate, s, inv, r);
            && LeavesTickets(s, t)
            && (outcome.Success? <==>
                  && Admitted(gate, s, inv, r) && ProperArgs(GetTicket, inv.args)
                  && Fits64(inv.args) && Readable(s.tickets, inv.args, TeamsOfCaller(gate, s, inv, r)))
            && (outcome.Success? ==> outcome.value == OneTicket(s.tickets[inv.args["ticket_id"].i]))
  {
    ToolNames(inv.tool);
    CallAnswers(gate, s, inv, r);
    hide Invoke, ToolOf, Authenticate, ProperText, Admitted;
  }

  /** A successful update_ticket_status returns the row it left, changed in status and update time alone. */
  lemma UpdateTicketAnswers(gate: Gate, s: System, inv: Invocation, r: Readings)
    requires gate.limits.Valid() && inv.tool == "update_ticket_status"
    ensures var (t, outcome) := Invoke(gate, s, inv, r);
            && (outcome.Success? <==>
                  && Admitted(gate, s, inv, r) && ProperArgs(UpdateTicketStatus, inv.args)
                  && Fits64(inv.args) && Readable(s.tickets, inv.args, TeamsOfCaller(gate, s, inv, r)))
            && (outcome.Success? ==>
                  var id := inv.args["ticket_id"].i;
                  var row := s.tickets[id].(status := inv.args["status"].s, updatedAt := r.writeAt);
                  && t.tickets == s.tickets[id := row] && t.nextTicketId == s.nextTicketId
                  && outcome.value == OneTicket(t.tickets[id]))
            && (outcome.Failure? ==> LeavesTickets(s, t))
  {
    ToolNames(inv.tool);
    CallAnswers(gate, s, inv, r);
    hide Invoke, ToolOf, Authenticate, ProperText, Admitted;
  }

  /** A successful create_ticket returns the row it inserted, with the texts it was given. */
  lemma CreateTicketAnswers(gate: Gate, s: System, inv: Invocation, r: Readings)
    requires gate.limits.Valid() && inv.tool == "create_ticket"
    ensures var (t, outcome) := Invoke(gate, s, inv, r);
            && (outcome.Success? <==>
                  && Admitted(gate, s, inv, r) && ProperArgs(CreateTicket, inv.args)
                  && inv.args["team"].s in TeamsOfCaller(gate, s, inv, r))
            && (outcome.Success? ==>
                  && Authenticate(gate, s, inv.token, r).Some?
                  && t.nextTicketId == s.nextTicketId + 1
                  && t.tickets == s.tickets[s.nextTicketId :=
                       Ticket(s.nextTicketId, inv.args["team"].s, inv.args["title"].s, inv.args["body"].s, "open",
                              Authenticate(gate, s, inv.token, r).value.clientId, r.writeAt, r.writeAt)]
                  && outcome.value == OneTicket(t.tickets[s.nextTicketId]))
            && (outcome.Failure? ==> LeavesTickets(s, t))
  {
    ToolNames(inv.tool);
    CallAnswers(gate, s, inv, r);
    hide Invoke, ToolOf, Authenticate, ProperText, Admitted;
  }

  /** After every run, list_tickets returns exactly the rows of the caller's teams it asked for. */
  lemma ListTicketsAnswers(gate: Gate, now: real, steps: seq<Step>, inv: Invocation, r: Readings)
    requires gate.limits.Valid() && inv.tool == "list_tickets"
    ensures var s := Exec(gate, Seeded(now), steps);
            var (t, outcome) := Invoke(gate, s, inv, r);
            && LeavesTickets(s, t)
            && (outcome.Success? <==> Admitted(gate, s, inv, r) && ProperArgs(ListTickets, inv.args))
            && (outcome.Success? ==>
                  && outcome.value.Tickets?
                  && ListsScope(s.tickets, TeamsOfCaller(gate, s, inv, r), inv.args, outcome.value.rows))
  {
    ToolNames(inv.tool);
    RunKeepsRows(gate, now, steps);
    hide Exec, Seeded, WellFormedRow;
    CallAnswers(gate, Exec(gate, Seeded(now), steps), inv, r);
    hide Invoke, ToolOf, Authenticate, ProperText, Admitted, ListsScope, KeyedByIdBelow;
  }

  /**
    After every run, audit_recent returns, newest first, the newest events of the log that carry no team or one
    of the caller's, as many as its clamped limit.
   */
  lemma AuditRecentAnswers(gate: Gate, now: real, steps: seq<Step>, inv: Invocation, r: Readings)
    requires gate.limits.Valid() && inv.tool == "audit_recent"
    ensures var s := Exec(gate, Seeded(now), steps);
            var (t, outcome) := Invoke(gate, s, inv, r);
            && LeavesTickets(s, t)
            && (outcome.Success? <==> Admitted(gate, s, inv, r) && ProperArgs(AuditRecent, inv.args))
            && (outcome.Success? ==>
                  && outcome.value.Events?
                  && exists limit: nat :: IsLimit(inv.args, limit) &&
                       NewestInScope(s.events, limit, TeamsOfCaller(gate, s, inv, r), outcome.value.events))
  {
    ToolNames(inv.tool);
    RunKeepsLog(gate, now, steps);
    hide Exec, Seeded, WellChained;
    var s := Exec(gate, Seeded(now), steps);
    assert Ordered(s.events);
    CallAnswers(gate, s, inv, r);
    hide Invoke, ToolOf, Authenticate, ProperText, Admitted, NewestInScope, Ordered, IsLimit;
  }

  // ---------- What a call is refused for ----------

  ghost predicate LooksUpTicket(tool: string) {
    tool == "get_ticket" || tool == "update_ticket_status"
  }

  /** Each refusal, and exactly when a call gets it. */
  lemma RefusalTable(gate: Gate, s: System, inv: Invocation, r: Readings)
    requires gate.limits.Valid()
    ensures var outcome := Invoke(gate, s, inv, r).1;
            var access := Authenticate(gate, s, inv.token, r);
            var teams := TeamsOfCaller(gate, s, inv, r);
            && (outcome == Failure(InvalidToken) <==> access.None?)
            && (outcome.Failure? && outcome.error.RateLimited? <==> access.Some? && !Paid(gate, s, inv, r))
            && (outcome.Failure? && outcome.error.Forbidden? <==> Paid(gate, s, inv, r) && !Admitted(gate, s, inv, r))
            && (outcome.Failure? && outcome.error.Forbidden? ==>
                  outcome.error.cause == if inv.tool in gate.cfg.policy.tools
                                         then MissingScope(gate.cfg.policy.tools[inv.tool].scope)
                                         else PermissionError.UnknownTool)
            && (forall e :: RefusedFor(ToolOf(inv.tool), inv.args, e) && Admitted(gate, s, inv, r) ==>
                  outcome == Failure(e))
            && (outcome == Failure(NotFound) <==>
                  PassesAll(gate, s, inv, r) && LooksUpTicket(inv.tool) && Fits64(inv.args) &&
                  !Readable(s.tickets, inv.args, teams))
            && (outcome == Failure(InternalError) <==>
                  PassesAll(gate, s, inv, r) && LooksUpTicket(inv.tool) && !Fits64(inv.args))
            && (outcome == Failure(RowScopeViolation) <==>
                  PassesAll(gate, s, inv, r) && inv.tool == "create_ticket" && inv.args["team"].s !in teams)
  {
    ToolNames(inv.tool);
    CallEnds(gate, s, inv, r);
    RefusesExactly(ToolOf(inv.tool), inv.args);
    CallAnswers(gate, s, inv, r);
    RefusalsOfArguments(ToolOf(inv.tool), inv.args);
    hide Invoke, ToolOf, Authenticate, ProperText, Admit, Validate, Ends, RefusedFor, ListsScope, NewestInScope, Ordered,
         IsLimit, KeyedByIdBelow, LeavesTickets, Readable, Fits64, Blank;
  }

  /** Arguments are never refused for what only a guard or the store refuses. */
  lemma RefusalsOfArguments(tool: Tool, args: Args)
    ensures forall e :: RefusedFor(tool, args, e) ==>
              e !in {InvalidToken, NotFound, InternalError, RowScopeViolation} && !e.RateLimited? && !e.Forbidden?
  {
    hide ProperText, Blank;
  }

  /** No two refusals share a code. */
  lemma CodesTellRefusals(e: Refusal)
    ensures Code(e) == "invalid_token" <==> e == InvalidToken
    ensures Code(e) == "rate_limited" <==> e.RateLimited?
    ensures Code(e) == "forbidden" <==> e.Forbidden?
    ensures Code(e) == "unknown_tool" <==> e == Refusal.UnknownTool
    ensures Code(e) == "unexpected_argument" <==> e == UnexpectedArgument
    ensures Code(e) == "missing_argument" <==> e == MissingArgument
    ensures Code(e) == "invalid_argument_type" <==> e == InvalidArgumentType
    ensures Code(e) == "input_too_long" <==> e == InputTooLong
    ensures Code(e) == "control_character" <==> e == ControlCharacter
    ensures Code(e) == "invalid_input" <==> e == InvalidInput
    ensures Code(e) == "invalid_status" <==> e == InvalidStatus
    ensures Code(e) == "not_found" <==> e == NotFound
    ensures Code(e) == "row_scope_violation" <==> e == RowScopeViolation
    ensures Code(e) == "internal_error" <==> e == InternalError
  {
    var code := Code(e);
    assert |code| == 13 ==> code[8] == if e == InvalidToken then 't' else 'i';
    assert |code| == 12 ==> code[0] == if e.RateLimited? then 'r' else 'u';
    assert |code| == 19 ==> code[0] == if e == UnexpectedArgument then 'u' else 'r';
    assert |code| == 14 ==> code[2] == if e == InputTooLong then 'p' else if e == InvalidStatus then 'v' else 't';
    assert |code| == 9 ==> code[0] == if e.Forbidden? then 'f' else 'n';
  }

  /** After denied polls, a unit call on this bucket at `later` is let through exactly from `from` on. */
  ghost predicate OpensAt(l: Limits, bucket: BucketState, polls: seq<RateLimit.Call>, from: real, later: real)
    requires l.Valid()
  {
    DeniedPolls(l, bucket, polls) ==>
      (Admit(l, Before(l, Some(bucket), polls, |polls|), later, 1.0).1.allowed <==> 1.0 <= l.capacity && from <= later)
  }

  lemma DeniedOpensAt(l: Limits, was: Option<BucketState>, now: real, polls: seq<RateLimit.Call>, later: real)
    requires l.Valid() && now <= later && (polls != [] ==> polls[|polls| - 1].time <= later)
    requires !Admit(l, was, now, 1.0).1.allowed
    ensures var (bucket, verdict) := Admit(l, was, now, 1.0);
            OpensAt(l, bucket, polls, now + verdict.retryAfter, later)
  {
    var (bucket, verdict) := Admit(l, was, now, 1.0);
    if DeniedPolls(l, bucket, polls) {
      RetryAfterIsExact(l, was, now, 1.0, polls, later);
    }
    hide Admit, DeniedPolls, Before;
  }

  /**
    The hint in a rate_limited reply is exact: however many denied calls of that client intervene, its next call
    is let through exactly from the time of the reply plus the hint on, if its bucket can ever hold one token.
   */
  lemma RetryAfterOfReplyIsExact(gate: Gate, s: System, inv: Invocation, r: Readings, polls: seq<RateLimit.Call>,
                                 later: real)
    requires gate.limits.Valid() && r.limiterAt <= later && (polls != [] ==> polls[|polls| - 1].time <= later)
    ensures var (t, outcome) := Invoke(gate, s, inv, r);
            outcome.Failure? && outcome.error.RateLimited? ==>
              && ClientOf(gate, s, inv, r) in t.buckets
              && OpensAt(gate.limits, t.buckets[ClientOf(gate, s, inv, r)], polls,
                         r.limiterAt + outcome.error.retryAfter, later)
  {
    InvokeEffect(gate, s, inv, r);
    CallEnds(gate, s, inv, r);
    RateWitness.RateLimitedExactlyByBucket(gate, s, inv, r);
    ReplyCarriesVerdict(gate, s, inv, r);
    hide Invoke, Authenticate, Admit, OpensAt, CreatesRow, SetsStatus, Permitted, LeavesTickets, EntryOf, Recorded, ToolOf,
         Ends, Validate;
    var (t, outcome) := Invoke(gate, s, inv, r);
    if outcome.Failure? && outcome.error.RateLimited? {
      DeniedOpensAt(gate.limits, Lookup(s.buckets, ClientOf(gate, s, inv, r)), r.limiterAt, polls, later);
    }
  }

  function ClientOf(gate: Gate, s: System, inv: Invocation, r: Readings): string {
    var access := Authenticate(gate, s, inv.token, r);
    if access.Some? then access.value.clientId else ""
  }

  lemma ReplyCarriesVerdict(gate: Gate, s: System, inv: Invocation, r: Readings)
    requires gate.limits.Valid()
    ensures var outcome := Invoke(gate, s, inv, r).1;
            outcome.Failure? && outcome.error.RateLimited? ==>
              outcome.error.retryAfter ==
              Admit(gate.limits, Lookup(s.buckets, ClientOf(gate, s, inv, r)), r.limiterAt, 1.0).1.retryAfter
  {
    hide Guarded, Authenticate, Admit, EntryOf, Record;
    var access := Authenticate(gate, s, inv.token, r);
    if access.Some? {
      var charged := Charge(gate, s, access.value.clientId, r.limiterAt).0;
      RateWitness.GuardedNeverRateLimits(gate, charged, inv, access.value, r.writeAt);
    }
  }

  // ---------- What the event of a call says ----------

  /** The call is about data of team `x`: a ticket to create there, or a stored ticket of that team. */
  ghost predicate Concerns(tickets: map<int, Ticket>, tool: string, args: Args, x: string) {
    || (tool == "create_ticket" && "team" in args && args["team"] == Value.Text(x))
    || (LooksUpTicket(tool) && Fits64(args) && args["ticket_id"].i in tickets && tickets[args["ticket_id"].i].team == x)
  }

  lemma SubjectTeamExactly(tickets: map<int, Ticket>, tool: string, args: Args)
    ensures forall x :: SubjectTeam(tickets, ToolOf(tool), args) == Some(x) <==> Concerns(tickets, tool, args, x)
  {
    ToolNames(tool);
    hide ToolOf;
  }

  /** The event of a call, column by column. */
  ghost predicate Tells(gate: Gate, s: System, inv: Invocation, r: Readings, outcome: Outcome, e: Event) {
    var f := e.fields;
    var access := Authenticate(gate, s, inv.token, r);
    && Says(gate.codec, s.events, EntryIn(f, inv.args), r.stamp, e)
    && f.tool == inv.tool
    && f.action == (if inv.tool in gate.cfg.policy.tools then gate.cfg.policy.tools[inv.tool].action else "unknown")
    && f.clientId == (if access.Some? then Some(access.value.clientId) else None)
    && f.sessionId == (if inv.sessionId.Some? && |inv.sessionId.value| > 0 then inv.sessionId.value
                       else if access.Some? then access.value.claims.jti else "unauth-" + r.nonce)
    && f.decision == (if outcome.Success? then "allow" else "deny")
    && f.reason == (if outcome.Success? then "policy_satisfied" else Code(outcome.error))
    && forall x :: f.subjectTeam == Some(x) <==> Concerns(s.tickets, inv.tool, inv.args, x)
  }

  /** The entry an event's own columns spell out, for these arguments. */
  function EntryIn(f: Fields, args: Args): Entry {
    Entry(f.sessionId, f.clientId, f.tool, f.action, f.decision, f.reason, args, f.subjectTeam)
  }

  lemma EventTells(gate: Gate, s: System, inv: Invocation, r: Readings)
    requires gate.limits.Valid()
    ensures var (t, outcome) := Invoke(gate, s, inv, r);
            && |t.events| == |s.events| + 1 && t.events[..|s.events|] == s.events
            && Tells(gate, s, inv, r, outcome, t.events[|s.events|])
  {
    InvokeEffect(gate, s, inv, r);
    SubjectTeamExactly(s.tickets, inv.tool, inv.args);
    var (t, outcome) := Invoke(gate, s, inv, r);
    hide Invoke, Authenticate, ToolOf, SubjectTeam, Concerns, Code, SafeArgs, CanonicalText, Says, CreatesRow, SetsStatus,
         Permitted, LeavesTickets, BucketsAfter;
    RecordSays(gate.codec, s.events, EntryOf(gate, s, inv, r, outcome), r.stamp);
    assert t.events[|s.events|] == Recorded(gate.codec, s.events, EntryOf(gate, s, inv, r, outcome), r.stamp);
  }

  /** The event of a call the transport refused. */
  lemma RejectionTells(gate: Gate, s: System, requestId: string, clientId: Option<string>, tool: string, args: Args,
                       stamp: Stamp)
    requires gate.limits.Valid()
    ensures var t := Next(gate, s, Rejected(requestId, clientId, tool, args, stamp));
            && t == s.(events := t.events)
            && |t.events| == |s.events| + 1 && t.events[..|s.events|] == s.events
            && var e := t.events[|s.events|];
               && Says(gate.codec, s.events, EntryIn(e.fields, args), stamp, e)
               && e.fields.sessionId == "mcp-" + requestId && e.fields.clientId == clientId && e.fields.tool == tool
               && e.fields.action ==
                  (if tool in gate.cfg.policy.tools then gate.cfg.policy.tools[tool].action else "unknown")
               && e.fields.decision == "deny" && e.fields.reason == "rejected_before_dispatch"
               && e.fields.subjectTeam == None
  {
    RecordSays(gate.codec, s.events, RejectedEntry(gate, requestId, clientId, tool, args), stamp);
    hide SafeArgs, CanonicalText, Says;
  }

  // ---------- Audit reads stay in scope over a run ----------

  lemma StepGrowsLog(gate: Gate, s: System, step: Step)
    requires gate.limits.Valid()
    ensures s.events <= Next(gate, s, step).events
  {
    if step.Call? {
      InvokeEffect(gate, s, step.inv, step.r);
    }
    hide Invoke, Recorded, Authenticate, CreatesRow, SetsStatus, Permitted, LeavesTickets, BucketsAfter, ToolOf;
  }

  lemma {:induction false} RunGrowsLog(gate: Gate, s: System, steps: seq<Step>, k: nat)
    requires gate.limits.Valid() && k <= |steps|
    ensures Exec(gate, s, steps[..k]).events <= Exec(gate, s, steps).events
  {
    hide Next;
    if k < |steps| {
      var front := steps[..|steps| - 1];
      RunGrowsLog(gate, s, front, k);
      assert front[..k] == steps[..k];
      StepGrowsLog(gate, Exec(gate, s, front), steps[|steps| - 1]);
    } else {
      assert steps[..k] == steps;
    }
  }

  /** The event step `k` appended is still where it was put at the end of the run. */
  lemma EventOfStepStays(gate: Gate, s: System, steps: seq<Step>, k: nat)
    requires gate.limits.Valid() && k < |steps| && steps[k].Call?
    ensures var before := Exec(gate, s, steps[..k]);
            var after := Exec(gate, s, steps);
            && |before.events| < |after.events|
            && Tells(gate, before, steps[k].inv, steps[k].r, Invoke(gate, before, steps[k].inv, steps[k].r).1,
                     after.events[|before.events|])
  {
    hide Tells, Invoke;
    var before := Exec(gate, s, steps[..k]);
    EventTells(gate, before, steps[k].inv, steps[k].r);
    RunGrowsLog(gate, s, steps, k + 1);
    assert steps[..k + 1][..k] == steps[..k];
    assert Exec(gate, s, steps[..k + 1]) == Next(gate, before, steps[k]);
    hide Exec;
  }

  lemma EventOfStepCarries(gate: Gate, s: System, steps: seq<Step>, k: nat, x: string)
    requires gate.limits.Valid() && k < |steps| && steps[k].Call?
    ensures var before := Exec(gate, s, steps[..k]);
            var after := Exec(gate, s, steps);
            && |before.events| < |after.events|
            && (Concerns(before.tickets, steps[k].inv.tool, steps[k].inv.args, x) ==>
                  after.events[|before.events|].fields.subjectTeam == Some(x))
  {
    EventOfStepStays(gate, s, steps, k);
    hide Exec, Invoke, Concerns, Says, Code, Authenticate;
  }

  /** Reading the log under a scope never shows an event of another team. */
  lemma OutOfScopeNotShown(events: seq<Event>, limit: nat, teams: set<string>, rows: seq<Event>, n: nat, x: string)
    requires NewestInScope(events, limit, teams, rows) && Ordered(events)
    requires n < |events| && events[n].fields.subjectTeam == Some(x) && x !in teams
    ensures forall e :: e in rows ==> e.sequence != events[n].sequence
  {
    var inScope: seq<Event> :| HoldsScope(events, teams, inScope) && NewestOf(inScope, limit, rows);
    forall e | e in rows
      ensures e.sequence != events[n].sequence
    {
      assert e in inScope;
      var j :| 0 <= j < |events| && events[j] == e;
    }
  }

  /** The same of an answer of audit_recent. */
  lemma AnswerHides(gate: Gate, s: System, inv: Invocation, r: Readings, outcome: Outcome, n: nat, x: string)
    requires Ordered(s.events) && n < |s.events| && s.events[n].fields.subjectTeam == Some(x)
    requires outcome.Success? && outcome.value.Events? && x !in TeamsOfCaller(gate, s, inv, r)
    requires exists limit: nat :: IsLimit(inv.args, limit) &&
               NewestInScope(s.events, limit, TeamsOfCaller(gate, s, inv, r), outcome.value.events)
    ensures forall e :: e in outcome.value.events ==> e.sequence != s.events[n].sequence
  {
    hide NewestInScope, Ordered, TeamsOfCaller, IsLimit;
    var teams := TeamsOfCaller(gate, s, inv, r);
    var limit: nat :| IsLimit(inv.args, limit) && NewestInScope(s.events, limit, teams, outcome.value.events);
    OutOfScopeNotShown(s.events, limit, teams, outcome.value.events, n, x);
  }

  /**
    Over a run: the event of a call that concerned a team, by naming a stored ticket of it or creating one there, is
    never shown by audit_recent to a caller without that team, whatever the call's outcome was. The event of
    step `k` is the one numbered right after the log that step found.
   */
  lemma EventsOfOtherTeamsStayHidden(gate: Gate, now: real, steps: seq<Step>, k: nat, x: string, inv: Invocation,
                                     r: Readings)
    requires gate.limits.Valid() && k < |steps| && steps[k].Call? && inv.tool == "audit_recent"
    ensures var found := Exec(gate, Seeded(now), steps[..k]);
            var s := Exec(gate, Seeded(now), steps);
            var outcome := Invoke(gate, s, inv, r).1;
            Concerns(found.tickets, steps[k].inv.tool, steps[k].inv.args, x) && outcome.Success? &&
            x !in TeamsOfCaller(gate, s, inv, r) ==>
              outcome.value.Events? &&
              forall e :: e in outcome.value.events ==> e.sequence != |found.events| + 1
  {
    var found := Exec(gate, Seeded(now), steps[..k]);
    var s := Exec(gate, Seeded(now), steps);
    var outcome := Invoke(gate, s, inv, r).1;
    RunKeepsLog(gate, now, steps);
    AuditRecentAnswers(gate, now, steps, inv, r);
    EventOfStepCarries(gate, Seeded(now), steps, k, x);
    hide Exec, Seeded, Invoke, WellChained, Concerns, NewestInScope, TeamsOfCaller, Admitted, ProperArgs, IsLimit,
         LeavesTickets;
    if Concerns(found.tickets, steps[k].inv.tool, steps[k].inv.args, x) && outcome.Success? &&
       x !in TeamsOfCaller(gate, s, inv, r) {
      AnswerHides(gate, s, inv, r, outcome, |found.events|, x);
    }
  }

  lemma ProbeIsUntagged(gate: Gate, s: System, probe: Invocation, r: Readings)
    requires gate.limits.Valid() && s.nextTicketId !in s.tickets
    requires probe.tool == "get_ticket" && probe.args == map["ticket_id" := Value.Integer(s.nextTicketId)]
    ensures var t := Invoke(gate, s, probe, r).0;
            && t.nextTicketId == s.nextTicketId
            && |t.events| == |s.events| + 1 && t.events[|s.events|].fields.subjectTeam == None
  {
    GetTicketAnswers(gate, s, probe, r);
    EventTells(gate, s, probe, r);
    hide Invoke, Authenticate, Says, Code, Admitted, ProperArgs, Readable, TeamsOfCaller;
    var tag := Invoke(gate, s, probe, r).0.events[|s.events|].fields.subjectTeam;
    assert tag.Some? ==> !Concerns(s.tickets, probe.tool, probe.args, tag.value);
  }

  lemma CreationInItsTeam(gate: Gate, t: System, creation: Invocation, r: Readings)
    requires gate.limits.Valid() && creation.tool == "create_ticket"
    ensures var (u, outcome) := Invoke(gate, t, creation, r);
            && |u.events| == |t.events| + 1 && u.events[..|t.events|] == t.events
            && (outcome.Success? ==>
                  && t.nextTicketId in u.tickets
                  && Concerns(t.tickets, creation.tool, creation.args, u.tickets[t.nextTicketId].team))
  {
    CreateTicketAnswers(gate, t, creation, r);
    EventTells(gate, t, creation, r);
    hide Invoke, Authenticate, Tells, Admitted, ProperText, TeamsOfCaller;
  }

  /**
    The tag is of the moment: a ticket asked for before it exists leaves an event without a team, which every
    auditor may read even after the ticket is created in a team.
   */
  lemma EarlyProbeIsUntagged(gate: Gate, s: System, probe: Invocation, r1: Readings, creation: Invocation, r2: Readings)
    requires gate.limits.Valid() && s.nextTicketId !in s.tickets
    requires probe.tool == "get_ticket" && probe.args == map["ticket_id" := Value.Integer(s.nextTicketId)]
    requires creation.tool == "create_ticket"
    ensures var t := Invoke(gate, s, probe, r1).0;
            var (u, outcome) := Invoke(gate, t, creation, r2);
            outcome.Success? ==>
              && s.nextTicketId in u.tickets
              && Concerns(t.tickets, creation.tool, creation.args, u.tickets[s.nextTicketId].team)
              && |u.events| == |s.events| + 2 && u.events[|s.events|].fields.subjectTeam == None
  {
    ProbeIsUntagged(gate, s, probe, r1);
    var t := Invoke(gate, s, probe, r1).0;
    CreationInItsTeam(gate, t, creation, r2);
    hide Invoke, Concerns;
    assert Invoke(gate, t, creation, r2).0.events[..|t.events|][|s.events|] == t.events[|s.events|];
  }
}
