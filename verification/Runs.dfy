/** Runs of the whole server, and what every step of them keeps. */
module Runs {
  import opened Wrappers
  import opened Json
  import opened Policy
  import opened RateLimit
  import opened Store
  import opened Audit
  import opened Auth
  import opened Validation
  import opened Gateway
  import Grants

  const REJECTED := "rejected_before_dispatch"

  /** A guarded call, a grant operation, or a call the transport refused before any guard ran. */
  datatype Step =
    | Call(inv: Invocation, r: Readings)
    | Grant(op: Grants.Op)
    | Rejected(requestId: string, clientId: Option<string>, tool: string, args: Args, stamp: Stamp)

  function SessionName(requestId: string): string {
    "mcp-" + requestId
  }

  function RejectedEntry(gate: Gate, requestId: string, clientId: Option<string>, tool: string, args: Args): Entry {
    Entry(SessionName(requestId), clientId, tool, ActionOf(gate.cfg.policy, tool), DENY, REJECTED, args, None)
  }

  function Next(gate: Gate, s: System, step: Step): System
    requires gate.limits.Valid()
  {
    match step
    case Call(inv, r) => Invoke(gate, s, inv, r).0
    case Grant(op) => s.(auth := Grants.Step(gate.cfg, s.auth, op))
    case Rejected(requestId, clientId, tool, args, stamp) =>
      Record(gate, s, RejectedEntry(gate, requestId, clientId, tool, args), stamp)
  }

  function Exec(gate: Gate, s: System, steps: seq<Step>): System
    requires gate.limits.Valid()
  {
    if steps == [] then s else Next(gate, Exec(gate, s, steps[..|steps| - 1]), steps[|steps| - 1])
  }

  /** The state a new server starts from. */
  function Seeded(now: real): System {
    System(SeedRows(1, now), 4, Grants.NOTHING_ISSUED, [], map[])
  }

  // ---------- What one call does to the tables ----------

  /** The call was let through to its tool by an accepted token whose scopes and teams cover it. */
  ghost predicate Permitted(gate: Gate, s: System, inv: Invocation, r: Readings) {
    var access := Authenticate(gate, s, inv.token, r);
    && access.Some?
    && inv.tool in gate.cfg.policy.tools
    && gate.cfg.policy.tools[inv.tool].scope in access.value.scopes
    && Validate(ToolOf(inv.tool), inv.args).Success?
  }

  /** The only two ways a call changes the ticket table. */
  ghost predicate CreatesRow(gate: Gate, s: System, inv: Invocation, r: Readings, t: System) {
    var access := Authenticate(gate, s, inv.token, r);
    && ToolOf(inv.tool) == CreateTicket
    && access.Some?
    && TextOf(inv.args, TEAM) in access.value.claims.teams
    && t.nextTicketId == s.nextTicketId + 1
    && t.tickets == s.tickets[s.nextTicketId := NewTicket(s.nextTicketId, TextOf(inv.args, TEAM),
                                TextOf(inv.args, TITLE), TextOf(inv.args, BODY), access.value.clientId, r.writeAt)]
  }

  ghost predicate SetsStatus(gate: Gate, s: System, inv: Invocation, r: Readings, t: System) {
    var access := Authenticate(gate, s, inv.token, r);
    var id := IntegerOf(inv.args, TICKET_ID);
    && ToolOf(inv.tool) == UpdateTicketStatus
    && access.Some?
    && id in s.tickets
    && s.tickets[id].team in access.value.claims.teams
    && t.nextTicketId == s.nextTicketId
    && t.tickets == SetStatus(s.tickets, id, TextOf(inv.args, STATUS), r.writeAt)
  }

  ghost predicate LeavesTickets(s: System, t: System) {
    t.tickets == s.tickets && t.nextTicketId == s.nextTicketId
  }

  lemma DispatchEffect(s: System, tool: Tool, args: Args, access: Access, now: real)
    ensures var (t, outcome) := Dispatch(s, tool, args, access, now);
            && t.auth == s.auth && t.events == s.events && t.buckets == s.buckets
            && (outcome.Failure? ==> t == s)
            && (outcome.Success? && tool == CreateTicket ==>
                  && TextOf(args, TEAM) in access.claims.teams
                  && t.nextTicketId == s.nextTicketId + 1
                  && t.tickets == s.tickets[s.nextTicketId := NewTicket(s.nextTicketId, TextOf(args, TEAM),
                                              TextOf(args, TITLE), TextOf(args, BODY), access.clientId, now)])
            && (outcome.Success? && tool == UpdateTicketStatus ==>
                  var id := IntegerOf(args, TICKET_ID);
                  && id in s.tickets && s.tickets[id].team in access.claims.teams
                  && t.nextTicketId == s.nextTicketId
                  && t.tickets == SetStatus(s.tickets, id, TextOf(args, STATUS), now))
            && (tool != CreateTicket && tool != UpdateTicketStatus ==> t == s)
  {
  }

  /** Only the bucket of the accepted identity is charged, and by one. */
  function BucketsAfter(gate: Gate, s: System, inv: Invocation, r: Readings): map<string, BucketState>
    requires gate.limits.Valid()
  {
    var access := Authenticate(gate, s, inv.token, r);
    if access.None? then s.buckets
    else
      var id := access.value.clientId;
      s.buckets[id := Admit(gate.limits, Lookup(s.buckets, id), r.limiterAt, 1.0).0]
  }

  /** One call: one event, one charge, no grant effect, and a ticket change only when permitted and successful. */
  lemma InvokeEffect(gate: Gate, s: System, inv: Invocation, r: Readings)
    requires gate.limits.Valid()
    ensures var (t, outcome) := Invoke(gate, s, inv, r);
            && t.auth == s.auth
            && t.buckets == BucketsAfter(gate, s, inv, r)
            && t.events == s.events + [Recorded(gate.codec, s.events, EntryOf(gate, s, inv, r, outcome), r.stamp)]
            && (outcome.Success? ==> Permitted(gate, s, inv, r))
            && (outcome.Failure? ==> LeavesTickets(s, t))
            && (outcome.Success? && ToolOf(inv.tool) == CreateTicket ==> CreatesRow(gate, s, inv, r, t))
            && (outcome.Success? && ToolOf(inv.tool) == UpdateTicketStatus ==> SetsStatus(gate, s, inv, r, t))
            && (ToolOf(inv.tool) != CreateTicket && ToolOf(inv.tool) != UpdateTicketStatus ==> LeavesTickets(s, t))
  {
    hide Dispatch, Validate, Admit, LoadAccess, ToolOf, EntryOf, Recorded;
    var access := Authenticate(gate, s, inv.token, r);
    if access.Some? {
      var (charged, verdict) := Charge(gate, s, access.value.clientId, r.limiterAt);
      var clean := Validate(ToolOf(inv.tool), inv.args);
      if clean.Success? {
        DispatchEffect(charged, ToolOf(inv.tool), clean.value, access.value, r.writeAt);
        ValidatedArguments(ToolOf(inv.tool), inv.args);
        assert Given(clean.value, TEAM) == Given(inv.args, TEAM) && Given(clean.value, TITLE) == Given(inv.args, TITLE);
        assert Given(clean.value, BODY) == Given(inv.args, BODY) && Given(clean.value, STATUS) == Given(inv.args, STATUS);
        assert Given(clean.value, TICKET_ID) == Given(inv.args, TICKET_ID);
      }
    }
  }

  // ---------- Rows ----------

  ghost predicate WellFormedRow(row: Ticket) {
    && ValidStatus(row.status)
    && (row.id >= 4 ==>
          && !Blank(row.title) && !Blank(row.body)
          && CleanText(row.team) && CleanText(row.title) && CleanText(row.body))
  }

  ghost predicate RowsInv(s: System) {
    && s.nextTicketId >= 4
    && KeyedByIdBelow(s.tickets, s.nextTicketId)
    && forall id :: id in s.tickets ==> WellFormedRow(s.tickets[id])
  }

  lemma SeedRowsAreWellFormed(now: real)
    ensures RowsInv(Seeded(now))
  {
    hide Blank, HasControl;
    assert "open" in {"open", "in_progress", "resolved", "closed", "planned"};
  }

  lemma NewRowKeepsRows(s: System, t: System, row: Ticket)
    requires RowsInv(s) && WellFormedRow(row) && row.id == s.nextTicketId
    requires t.tickets == s.tickets[s.nextTicketId := row] && t.nextTicketId == s.nextTicketId + 1
    ensures RowsInv(t)
  {
    hide WellFormedRow;
  }

  lemma StatusKeepsRows(s: System, t: System, id: int, status: string, now: real)
    requires RowsInv(s) && ValidStatus(status)
    requires t.tickets == SetStatus(s.tickets, id, status, now) && t.nextTicketId == s.nextTicketId
    ensures RowsInv(t)
  {
    hide ValidStatus, Blank, CleanText;
    if id in s.tickets {
      assert WellFormedRow(s.tickets[id]);
    }
  }

  lemma CallKeepsRows(gate: Gate, s: System, inv: Invocation, r: Readings)
    requires gate.limits.Valid() && RowsInv(s)
    ensures RowsInv(Invoke(gate, s, inv, r).0)
  {
    hide Invoke, Blank, CleanText, ValidStatus, Validate, ToolOf, LoadAccess, RowsInv, WellFormedRow;
    var (t, outcome) := Invoke(gate, s, inv, r);
    InvokeEffect(gate, s, inv, r);
    if outcome.Success? {
      ValidatedArguments(ToolOf(inv.tool), inv.args);
      match ToolOf(inv.tool)
      case CreateTicket =>
        var row := t.tickets[s.nextTicketId];
        NewRowIsWellFormed(row);
        NewRowKeepsRows(s, t, row);
      case UpdateTicketStatus =>
        StatusKeepsRows(s, t, IntegerOf(inv.args, TICKET_ID), TextOf(inv.args, STATUS), r.writeAt);
      case _ =>
        SameTicketsKeepRows(s, t);
    } else {
      SameTicketsKeepRows(s, t);
    }
  }

  lemma NewRowIsWellFormed(row: Ticket)
    requires !Blank(row.title) && !Blank(row.body) && row.status == "open"
    requires CleanText(row.team) && CleanText(row.title) && CleanText(row.body)
    ensures WellFormedRow(row)
  {
    hide Blank, CleanText;
  }

  lemma SameTicketsKeepRows(s: System, t: System)
    requires RowsInv(s) && LeavesTickets(s, t)
    ensures RowsInv(t)
  {
  }

  lemma StepKeepsRows(gate: Gate, s: System, step: Step)
    requires gate.limits.Valid() && RowsInv(s)
    ensures RowsInv(Next(gate, s, step))
  {
    hide Invoke, RowsInv;
    match step
    case Call(inv, r) => CallKeepsRows(gate, s, inv, r);
    case Grant(_) => SameTicketsKeepRows(s, Next(gate, s, step));
    case Rejected(_, _, _, _, _) => SameTicketsKeepRows(s, Next(gate, s, step));
  }

  /** After every run from a seeded store, every row has a valid status and every created row is well formed. */
  lemma {:induction false} RunKeepsRows(gate: Gate, now: real, steps: seq<Step>)
    requires gate.limits.Valid()
    ensures RowsInv(Exec(gate, Seeded(now), steps))
  {
    hide RowsInv, Next, Seeded;
    if steps == [] {
      SeedRowsAreWellFormed(now);
    } else {
      RunKeepsRows(gate, now, steps[..|steps| - 1]);
      StepKeepsRows(gate, Exec(gate, Seeded(now), steps[..|steps| - 1]), steps[|steps| - 1]);
    }
  }

  // ---------- Grants ----------

  lemma StepKeepsGrants(gate: Gate, s: System, step: Step)
    requires gate.limits.Valid() && Grants.Inv(gate.cfg, s.auth)
    ensures Grants.Inv(gate.cfg, Next(gate, s, step).auth)
  {
    hide Invoke, Grants.Inv, Grants.Step;
    match step
    case Call(inv, r) => InvokeEffect(gate, s, inv, r);
    case Grant(op) => Grants.StepKeepsInv(gate.cfg, s.auth, op);
    case Rejected(_, _, _, _, _) =>
  }

  /** The grant invariant, and with it lineage and token refinement, holds after every run. */
  lemma {:induction false} RunKeepsGrants(gate: Gate, now: real, steps: seq<Step>)
    requires gate.limits.Valid()
    ensures Grants.Inv(gate.cfg, Exec(gate, Seeded(now), steps).auth)
  {
    hide Next, Grants.Inv, SeedRows;
    if steps == [] {
      NothingIssuedIsFine(gate.cfg);
    } else {
      RunKeepsGrants(gate, now, steps[..|steps| - 1]);
      StepKeepsGrants(gate, Exec(gate, Seeded(now), steps[..|steps| - 1]), steps[|steps| - 1]);
    }
  }

  lemma NothingIssuedIsFine(cfg: Config)
    ensures Grants.Inv(cfg, Grants.NOTHING_ISSUED)
  {
  }

  // ---------- The log ----------

  ghost predicate LogInv(gate: Gate, s: System) {
    WellChained(gate.codec, s.events) && forall k :: 0 <= k < |s.events| ==> s.events[k].sequence == k + 1
  }

  lemma RecordKeepsLog(gate: Gate, s: System, entry: Entry, stamp: Stamp)
    requires LogInv(gate, s)
    ensures LogInv(gate, s.(events := s.events + [Recorded(gate.codec, s.events, entry, stamp)]))
  {
    hide WellChained, FieldsOf, Tag;
    RecordKeepsChain(gate.codec, s.events, entry, stamp);
  }

  lemma StepKeepsLog(gate: Gate, s: System, step: Step)
    requires gate.limits.Valid() && LogInv(gate, s)
    ensures LogInv(gate, Next(gate, s, step))
  {
    hide Invoke, WellChained, Recorded;
    match step
    case Call(inv, r) =>
      InvokeEffect(gate, s, inv, r);
      RecordKeepsLog(gate, s, EntryOf(gate, s, inv, r, Invoke(gate, s, inv, r).1), r.stamp);
    case Grant(op) =>
    case Rejected(requestId, clientId, tool, args, stamp) =>
      RecordKeepsLog(gate, s, RejectedEntry(gate, requestId, clientId, tool, args), stamp);
  }

  /** After every run the log is well chained from genesis and numbered 1, 2, 3 and so on. */
  lemma {:induction false} RunKeepsLog(gate: Gate, now: real, steps: seq<Step>)
    requires gate.limits.Valid()
    ensures LogInv(gate, Exec(gate, Seeded(now), steps))
  {
    hide Next, WellChained, SeedRows;
    if steps == [] {
      NoEventsWellChained(gate.codec);
    } else {
      RunKeepsLog(gate, now, steps[..|steps| - 1]);
      StepKeepsLog(gate, Exec(gate, Seeded(now), steps[..|steps| - 1]), steps[|steps| - 1]);
    }
  }

  lemma NoEventsWellChained(codec: Codec)
    ensures WellChained(codec, [])
  {
  }

  // ---------- Sessions ----------

  ghost predicate SessionsNamed(s: System) {
    forall k :: 0 <= k < |s.events| ==> s.events[k].fields.sessionId != ""
  }

  /** A token that is accepted carries a drawn name, so a call always has a session. */
  lemma CallHasSession(gate: Gate, s: System, inv: Invocation, r: Readings)
    requires Grants.TableInv(gate.cfg, s.auth)
    ensures SessionOf(inv, Authenticate(gate, s, inv.token, r), r.nonce) != ""
  {
    var access := Authenticate(gate, s, inv.token, r);
    if access.Some? {
      Grants.AccessTokenRefinesIssue(gate.cfg, s.auth, inv.token, r.decodeAt, r.readAt);
      hide Grants.TableInv, LoadAccess;
      var i :| 0 <= i < |s.auth.issues| && Grants.Presentable(gate.cfg, s.auth, inv.token, r.decodeAt, r.readAt, i);
      assert access.value.claims.jti == NameText(s.auth.issues[i].serial);
    }
  }

  lemma StepKeepsSessions(gate: Gate, s: System, step: Step)
    requires gate.limits.Valid() && Grants.Inv(gate.cfg, s.auth) && SessionsNamed(s)
    ensures SessionsNamed(Next(gate, s, step))
  {
    hide Invoke, Grants.TableInv, Grants.LineageInv, Authenticate, SessionOf, Tag, SubjectTeam, SafeArgs;
    match step
    case Call(inv, r) =>
      InvokeEffect(gate, s, inv, r);
      CallHasSession(gate, s, inv, r);
    case Grant(_) =>
    case Rejected(_, _, _, _, _) =>
  }

  lemma {:induction false} RunKeepsSessions(gate: Gate, now: real, steps: seq<Step>)
    requires gate.limits.Valid()
    ensures SessionsNamed(Exec(gate, Seeded(now), steps))
  {
    hide Next, SeedRows, Grants.Inv;
    if steps != [] {
      RunKeepsSessions(gate, now, steps[..|steps| - 1]);
      RunKeepsGrants(gate, now, steps[..|steps| - 1]);
      StepKeepsSessions(gate, Exec(gate, Seeded(now), steps[..|steps| - 1]), steps[|steps| - 1]);
    }
  }

  ghost predicate SessionsWithinWindow(events: seq<Event>) {
    forall session: string :: |SessionEvents(events, session)| <= SESSION_WINDOW
  }

  /** An ordered list of exactly the events some session read returns. */
  ghost predicate MergesSessions(events: seq<Event>, merged: seq<Event>) {
    && Ordered(merged)
    && forall e: Event :: e in merged <==>
         exists session: string :: session != "" && e in AuditEvents(events, session, SESSION_WINDOW, None)
  }

  /** After every run, while no session outgrows its window, merging the sessions gives back the log. */
  lemma RunRemergesFromSessions(gate: Gate, now: real, steps: seq<Step>, merged: seq<Event>)
    requires gate.limits.Valid()
    ensures var s := Exec(gate, Seeded(now), steps);
            SessionsWithinWindow(s.events) && MergesSessions(s.events, merged) ==> merged == s.events
  {
    RunKeepsLog(gate, now, steps);
    RunKeepsSessions(gate, now, steps);
    hide Exec, Seeded, WellChained, AuditEvents, SessionEvents;
    var s := Exec(gate, Seeded(now), steps);
    if SessionsWithinWindow(s.events) && MergesSessions(s.events, merged) {
      SessionsRemerge(s.events, merged);
    }
  }

  // ---------- Complete mediation ----------

  /**
    The call that changed row `id` presented a token issued to a client whose policy teams hold the row's
    team and whose policy scopes hold the tool's required scope, and was recorded as allowed.
   */
  ghost predicate MediatedChange(gate: Gate, s: System, step: Step, t: System, id: int)
    requires id in t.tickets
  {
    && step.Call?
    && (ToolOf(step.inv.tool) == CreateTicket || ToolOf(step.inv.tool) == UpdateTicketStatus)
    && step.inv.tool in gate.cfg.policy.tools
    && t.events != [] && t.events[|t.events| - 1].fields.decision == ALLOW
    && exists i :: 0 <= i < |s.auth.issues| && IssuedFor(gate, s, step, t, id, i)
  }

  ghost predicate IssuedFor(gate: Gate, s: System, step: Step, t: System, id: int, i: nat)
    requires id in t.tickets && step.Call? && step.inv.tool in gate.cfg.policy.tools && i < |s.auth.issues|
  {
    var clientId := s.auth.issues[i].clientId;
    && Grants.Presentable(gate.cfg, s.auth, step.inv.token, step.r.decodeAt, step.r.readAt, i)
    && clientId in gate.cfg.policy.clients
    && t.tickets[id].team in gate.cfg.policy.clients[clientId].teams
    && gate.cfg.policy.tools[step.inv.tool].scope in gate.cfg.policy.clients[clientId].scopes
  }

  /** An accepted token was issued, to a client whose policy teams it carries and whose scopes bound its own. */
  lemma AcceptedTokenWasIssued(gate: Gate, s: System, token: Token, r: Readings) returns (i: nat)
    requires Grants.Inv(gate.cfg, s.auth) && Authenticate(gate, s, token, r).Some?
    ensures i < |s.auth.issues| && Grants.Presentable(gate.cfg, s.auth, token, r.decodeAt, r.readAt, i)
    ensures var access := Authenticate(gate, s, token, r).value;
            var clientId := s.auth.issues[i].clientId;
            && clientId in gate.cfg.policy.clients
            && access.clientId == clientId
            && access.claims.teams == gate.cfg.policy.clients[clientId].teams
            && access.scopes <= gate.cfg.policy.clients[clientId].scopes
  {
    hide Grants.TableInv, Grants.LineageInv, LoadAccess, Grants.Presentable;
    Grants.AccessTokenRefinesIssue(gate.cfg, s.auth, token, r.decodeAt, r.readAt);
    i :| 0 <= i < |s.auth.issues| && Grants.Presentable(gate.cfg, s.auth, token, r.decodeAt, r.readAt, i);
    Grants.AcceptedTokenIsWithinPolicy(gate.cfg, s.auth, token, r.decodeAt, r.readAt);
  }

  /** Row `id` is new or different after the step. */
  predicate RowChanged(s: System, t: System, id: int) {
    id in t.tickets && (id !in s.tickets || t.tickets[id] != s.tickets[id])
  }

  predicate TeamKept(s: System, t: System, id: int) {
    id in s.tickets ==> id in t.tickets && t.tickets[id].team == s.tickets[id].team
  }

  /** What a call may do to one row: insert it in a carried team, or change it within one. */
  lemma CallChangesOwnRows(gate: Gate, s: System, inv: Invocation, r: Readings, id: int)
    requires gate.limits.Valid() && KeyedByIdBelow(s.tickets, s.nextTicketId)
    ensures var (t, outcome) := Invoke(gate, s, inv, r);
            && TeamKept(s, t, id)
            && (RowChanged(s, t, id) ==>
                  && outcome.Success?
                  && Permitted(gate, s, inv, r)
                  && (ToolOf(inv.tool) == CreateTicket || ToolOf(inv.tool) == UpdateTicketStatus)
                  && Authenticate(gate, s, inv.token, r).Some?
                  && t.tickets[id].team in Authenticate(gate, s, inv.token, r).value.claims.teams)
  {
    hide Invoke, ToolOf, Authenticate, Validate, CreatesRow, SetsStatus, Permitted, TeamKept, RowChanged;
    var (t, outcome) := Invoke(gate, s, inv, r);
    InvokeEffect(gate, s, inv, r);
    if LeavesTickets(s, t) {
      SameTicketsKeepRow(s, t, id);
    } else if ToolOf(inv.tool) == CreateTicket {
      CreationTouchesOneRow(gate, s, inv, r, t, id);
    } else {
      StatusTouchesOneRow(gate, s, inv, r, t, id);
    }
  }

  lemma SameTicketsKeepRow(s: System, t: System, id: int)
    requires LeavesTickets(s, t)
    ensures TeamKept(s, t, id) && !RowChanged(s, t, id)
  {
  }

  lemma CreationTouchesOneRow(gate: Gate, s: System, inv: Invocation, r: Readings, t: System, id: int)
    requires KeyedByIdBelow(s.tickets, s.nextTicketId) && CreatesRow(gate, s, inv, r, t)
    ensures TeamKept(s, t, id) && Authenticate(gate, s, inv.token, r).Some?
    ensures RowChanged(s, t, id) ==> t.tickets[id].team in Authenticate(gate, s, inv.token, r).value.claims.teams
  {
    hide ToolOf, Authenticate;
  }

  lemma StatusTouchesOneRow(gate: Gate, s: System, inv: Invocation, r: Readings, t: System, id: int)
    requires SetsStatus(gate, s, inv, r, t)
    ensures TeamKept(s, t, id) && Authenticate(gate, s, inv.token, r).Some?
    ensures RowChanged(s, t, id) ==> t.tickets[id].team in Authenticate(gate, s, inv.token, r).value.claims.teams
  {
    hide ToolOf, Authenticate;
  }

  lemma CallIsMediated(gate: Gate, s: System, inv: Invocation, r: Readings, id: int)
    requires gate.limits.Valid() && KeyedByIdBelow(s.tickets, s.nextTicketId) && Grants.Inv(gate.cfg, s.auth)
    ensures var t := Invoke(gate, s, inv, r).0;
            TeamKept(s, t, id) && (RowChanged(s, t, id) ==> MediatedChange(gate, s, Step.Call(inv, r), t, id))
  {
    hide Invoke, ToolOf, Authenticate, Validate, Grants.Inv, Grants.Presentable, RowChanged, TeamKept;
    var (t, outcome) := Invoke(gate, s, inv, r);
    CallChangesOwnRows(gate, s, inv, r, id);
    if RowChanged(s, t, id) {
      InvokeEffect(gate, s, inv, r);
      assert id in t.tickets by {
        ChangedRowExists(s, t, id);
      }
      var i := AcceptedTokenWasIssued(gate, s, inv.token, r);
      assert IssuedFor(gate, s, Step.Call(inv, r), t, id, i);
    }
  }

  lemma ChangedRowExists(s: System, t: System, id: int)
    requires RowChanged(s, t, id)
    ensures id in t.tickets
  {
  }

  /** After every run, whatever next inserts or changes a row is mediated, and a row keeps its team for life. */
  lemma EveryRowChangeIsMediated(gate: Gate, now: real, steps: seq<Step>, step: Step, id: int)
    requires gate.limits.Valid()
    ensures var s := Exec(gate, Seeded(now), steps);
            var t := Next(gate, s, step);
            TeamKept(s, t, id) && (RowChanged(s, t, id) ==> MediatedChange(gate, s, step, t, id))
  {
    hide Invoke, MediatedChange, Exec, Seeded, WellFormedRow, Grants.Inv;
    RunKeepsRows(gate, now, steps);
    RunKeepsGrants(gate, now, steps);
    if step.Call? {
      CallIsMediated(gate, Exec(gate, Seeded(now), steps), step.inv, step.r, id);
    }
  }

  // ---------- Unknown tools ----------

  /**
    A tool the policy does not list is refused as forbidden; the code unknown_tool is left for a tool the
    policy lists, and the caller may use, but that declares no arguments.
   */
  lemma UnknownToolCode(gate: Gate, s: System, inv: Invocation, access: Access, now: real)
    ensures var outcome := Guarded(gate, s, inv, access, now).1;
            && (inv.tool !in gate.cfg.policy.tools ==> outcome == Failure(Forbidden(PermissionError.UnknownTool)))
            && (outcome == Failure(Refusal.UnknownTool) <==>
                  && inv.tool in gate.cfg.policy.tools
                  && gate.cfg.policy.tools[inv.tool].scope in access.scopes
                  && ToolOf(inv.tool) == Undeclared)
  {
    hide ToolOf, Validate, Dispatch;
    UndeclaredExactly(ToolOf(inv.tool), inv.args);
    var clean := Validate(ToolOf(inv.tool), inv.args);
    if clean.Success? {
      DispatchIsTotalOnValidArguments(s, ToolOf(inv.tool), inv.args, access, now);
    }
  }

  lemma UndeclaredExactly(tool: Tool, args: Args)
    ensures Validate(tool, args) == Failure(Refusal.UnknownTool) <==> tool == Undeclared
  {
    hide Declared, ToolRule;
    if Clean(Declared(tool), args, |Declared(tool)|).Failure? {
      CleanNeverUnknown(Declared(tool), args, |Declared(tool)|);
    }
    RuleNeverUnknown(tool);
  }

  lemma {:induction false} CleanNeverUnknown(declared: Declaration, args: Args, n: nat)
    requires n <= |declared| && Clean(declared, args, n).Failure?
    ensures Clean(declared, args, n).error != Refusal.UnknownTool
  {
    if n > 0 && Clean(declared, args, n - 1).Failure? {
      CleanNeverUnknown(declared, args, n - 1);
    }
  }

  lemma RuleNeverUnknown(tool: Tool)
    ensures forall args :: ToolRule(tool, args) != Some(Refusal.UnknownTool)
  {
    hide Blank, ValidStatus;
  }

  // ---------- Dispatch after validation ----------

  /** The id a tool binds, when it binds one. */
  predicate BindsId(tool: Tool, args: Args) {
    tool in {GetTicket, UpdateTicketStatus} ==> Bindable(IntegerOf(args, TICKET_ID))
  }

  /**
    On validated arguments the dispatcher ends in a result, not_found or row_scope_violation, and in
    internal_error exactly when the id does not fit the driver's 64 bits.
   */
  lemma DispatchIsTotalOnValidArguments(s: System, tool: Tool, args: Args, access: Access, now: real)
    requires Validate(tool, args).Success?
    ensures var outcome := Dispatch(s, tool, Validate(tool, args).value, access, now).1;
            && (outcome.Success? || outcome.error in {NotFound, RowScopeViolation, InternalError})
            && (outcome == Failure(InternalError) <==> !BindsId(tool, args))
            && (outcome == Failure(RowScopeViolation) <==>
                  tool == CreateTicket && TextOf(args, TEAM) !in access.claims.teams)
  {
    ValidatedArguments(tool, args);
    hide Validate;
    var clean := Validate(tool, args).value;
    assert Given(clean, TICKET_ID) == Given(args, TICKET_ID) && Given(clean, TEAM) == Given(args, TEAM);
  }

  const HUGE_ID := 0x8000_0000_0000_0000

  /** The condition is met: an id of 2 to the 63rd passes validation and faults in the driver. */
  lemma HugeIdFaults(s: System, access: Access, now: real)
    ensures var args: Args := map[TICKET_ID := Value.Integer(HUGE_ID)];
            && Validate(GetTicket, args).Success?
            && Dispatch(s, GetTicket, Validate(GetTicket, args).value, access, now).1 == Failure(InternalError)
  {
    var args: Args := map[TICKET_ID := Value.Integer(HUGE_ID)];
    HugeIdValidates();
    hide Validate, Dispatch;
    DispatchIsTotalOnValidArguments(s, GetTicket, args, access, now);
  }

  lemma HugeIdValidates()
    ensures Validate(GetTicket, map[TICKET_ID := Value.Integer(HUGE_ID)]).Success?
  {
    var args: Args := map[TICKET_ID := Value.Integer(HUGE_ID)];
    ValidatesExactly(GetTicket, args);
    hide Validate;
    assert Declared(GetTicket)[0].0 == TICKET_ID;
    assert args.Keys == {TICKET_ID};
  }
}
