/** The guard pipeline of gateway.py: authenticate, charge, authorise, validate, dispatch, record. */
module Gateway {
  import opened Wrappers
  import opened Json
  import opened Policy
  import opened RateLimit
  import opened Store
  import opened Audit
  import opened Auth
  import opened Validation

  datatype Gate = Gate(cfg: Config, limits: Limits, codec: Codec)

  datatype Invocation = Invocation(tool: string, args: Args, token: Token, sessionId: Option<string>)

  /** The clock readings of one call, in the order they are taken, and the name drawn when there is no session. */
  datatype Readings = Readings(
    decodeAt: real,
    readAt: real,
    limiterAt: real,
    writeAt: real,
    nonce: string,
    stamp: Stamp)

  datatype ToolResult = Tickets(rows: seq<Ticket>) | OneTicket(row: Ticket) | NoTicket | Events(events: seq<Event>)

  type Outcome = Result<ToolResult, Refusal>

  /** The whole server state: the three tables, the random supply, and the limiter's buckets. */
  datatype System = System(
    tickets: map<int, Ticket>,
    nextTicketId: nat,
    auth: AuthState,
    events: seq<Event>,
    buckets: map<string, BucketState>)

  function Code(e: Refusal): string {
    match e
    case InvalidToken => "invalid_token"
    case RateLimited(_) => "rate_limited"
    case Forbidden(_) => "forbidden"
    case UnknownTool => "unknown_tool"
    case UnexpectedArgument => "unexpected_argument"
    case MissingArgument => "missing_argument"
    case InvalidArgumentType => "invalid_argument_type"
    case InputTooLong => "input_too_long"
    case ControlCharacter => "control_character"
    case InvalidInput => "invalid_input"
    case InvalidStatus => "invalid_status"
    case NotFound => "not_found"
    case RowScopeViolation => "row_scope_violation"
    case InternalError => "internal_error"
  }

  const ALLOW := "allow"
  const DENY := "deny"
  const SATISFIED := "policy_satisfied"
  const UNKNOWN := "unknown"

  // ---------- Pieces that only compute or read ----------

  /** Whose data a call concerns; it runs before validation, and a storage fault leaves it unknown. */
  function SubjectTeam(tickets: map<int, Ticket>, tool: Tool, args: Args): Option<string> {
    match tool
    case CreateTicket => if Given(args, TEAM).Text? then Some(Given(args, TEAM).s) else None
    case GetTicket => TeamOfTicket(tickets, Given(args, TICKET_ID))
    case UpdateTicketStatus => TeamOfTicket(tickets, Given(args, TICKET_ID))
    case _ => None
  }

  function TeamOfTicket(tickets: map<int, Ticket>, id: Value): Option<string> {
    if !id.Integer? then None
    else
      match FindTicket(tickets, id.i)
      case Success(Some(row)) => Some(row.team)
      case _ => None
  }

  function SessionOf(inv: Invocation, access: Option<Access>, nonce: string): string {
    if inv.sessionId.Some? && inv.sessionId.value != "" then inv.sessionId.value
    else if access.Some? then access.value.claims.jti
    else "unauth-" + nonce
  }

  function ActionOf(policy: Policy, tool: string): string {
    if tool in policy.tools then policy.tools[tool].action else UNKNOWN
  }

  /** A row outside the caller's teams is refused as if it were absent. */
  function VisibleTicket(tickets: map<int, Ticket>, id: int, teams: set<string>): Result<Ticket, Refusal> {
    match FindTicket(tickets, id)
    case Failure(_) => Failure(InternalError)
    case Success(None) => Failure(NotFound)
    case Success(Some(row)) => if row.team in teams then Success(row) else Failure(NotFound)
  }

  function OptionalStatus(args: Args): Option<string> {
    if Given(args, STATUS).Text? then Some(Given(args, STATUS).s) else None
  }

  /** `or 20`, then clamped to 1..100. */
  function AuditLimit(args: Args): (limit: nat)
    ensures 1 <= limit <= 100
  {
    var asked := if IntegerOf(args, LIMIT) != 0 then IntegerOf(args, LIMIT) else 20;
    if asked < 1 then 1 else if asked > 100 then 100 else asked
  }

  // ---------- One call as a state function ----------

  /** The validated call on the tables. */
  function Dispatch(s: System, tool: Tool, args: Args, access: Access, now: real): (System, Outcome) {
    var teams := access.claims.teams;
    match tool
    case ListTickets =>
      (s, Success(Tickets(SelectTickets(s.tickets, s.nextTicketId, teams, OptionalStatus(args)))))
    case GetTicket =>
      (match VisibleTicket(s.tickets, IntegerOf(args, TICKET_ID), teams)
       case Failure(e) => (s, Failure(e))
       case Success(row) => (s, Success(OneTicket(row))))
    case CreateTicket =>
      if TextOf(args, TEAM) !in teams then (s, Failure(RowScopeViolation))
      else
        var row := NewTicket(s.nextTicketId, TextOf(args, TEAM), TextOf(args, TITLE), TextOf(args, BODY),
                             access.clientId, now);
        (s.(tickets := s.tickets[s.nextTicketId := row], nextTicketId := s.nextTicketId + 1), Success(OneTicket(row)))
    case UpdateTicketStatus =>
      var id := IntegerOf(args, TICKET_ID);
      (match VisibleTicket(s.tickets, id, teams)
       case Failure(e) => (s, Failure(e))
       case Success(_) =>
         var tickets := SetStatus(s.tickets, id, TextOf(args, STATUS), now);
         (s.(tickets := tickets), Success(if id in tickets then OneTicket(tickets[id]) else NoTicket)))
    case AuditRecent =>
      (s, Success(Events(AuditEvents(s.events, "", AuditLimit(args), Some(teams)))))
    case Undeclared => (s, Failure(Refusal.UnknownTool))
  }

  function Charge(gate: Gate, s: System, clientId: string, now: real): (System, Verdict)
    requires gate.limits.Valid()
  {
    var (bucket, verdict) := Admit(gate.limits, Lookup(s.buckets, clientId), now, 1.0);
    (s.(buckets := s.buckets[clientId := bucket]), verdict)
  }

  function Authenticate(gate: Gate, s: System, token: Token, r: Readings): Option<Access> {
    LoadAccess(gate.cfg.settings, s.auth.artifacts, token, r.decodeAt, r.readAt)
  }

  /** Everything after the limiter let the call through. */
  function Guarded(gate: Gate, s: System, inv: Invocation, access: Access, now: real): (System, Outcome) {
    match gate.cfg.policy.RequireTool(inv.tool, access.scopes)
    case Failure(cause) => (s, Failure(Forbidden(cause)))
    case Success(_) =>
      match Validate(ToolOf(inv.tool), inv.args)
      case Failure(e) => (s, Failure(e))
      case Success(clean) => Dispatch(s, ToolOf(inv.tool), clean, access, now)
  }

  /** The decision and its effect, before the record. */
  function Decide(gate: Gate, s: System, inv: Invocation, r: Readings): (System, Outcome)
    requires gate.limits.Valid()
  {
    match Authenticate(gate, s, inv.token, r)
    case None => (s, Failure(InvalidToken))
    case Some(access) =>
      var (charged, verdict) := Charge(gate, s, access.clientId, r.limiterAt);
      if !verdict.allowed then (charged, Failure(RateLimited(verdict.retryAfter)))
      else Guarded(gate, charged, inv, access, r.writeAt)
  }

  /** What the audit row of this call says. */
  function EntryOf(gate: Gate, s: System, inv: Invocation, r: Readings, outcome: Outcome): Entry {
    var access := Authenticate(gate, s, inv.token, r);
    Entry(SessionOf(inv, access, r.nonce),
          if access.Some? then Some(access.value.clientId) else None,
          inv.tool,
          ActionOf(gate.cfg.policy, inv.tool),
          if outcome.Success? then ALLOW else DENY,
          if outcome.Success? then SATISFIED else Code(outcome.error),
          inv.args,
          SubjectTeam(s.tickets, ToolOf(inv.tool), inv.args))
  }

  function Record(gate: Gate, s: System, entry: Entry, stamp: Stamp): System {
    s.(events := s.events + [Recorded(gate.codec, s.events, entry, stamp)])
  }

  function Invoke(gate: Gate, s: System, inv: Invocation, r: Readings): (System, Outcome)
    requires gate.limits.Valid()
  {
    var (decided, outcome) := Decide(gate, s, inv, r);
    (Record(gate, decided, EntryOf(gate, s, inv, r, outcome), r.stamp), outcome)
  }

  // ---------- The gateway ----------

  class Gateway {
    const gate: Gate
    const store: Store
    const provider: OAuthProvider
    const limiter: TokenBucketLimiter
    const audit: AuditLog

    ghost predicate Valid()
      reads limiter
    {
      && gate.limits.Valid()
      && provider.store == store && provider.cfg == gate.cfg
      && audit.store == store && audit.codec == gate.codec
      && limiter.limits == gate.limits && limiter.Valid()
    }

    ghost function State(): System
      requires Valid()
      reads store, provider, limiter, limiter.owned
    {
      System(store.tickets, store.nextTicketId, provider.State(), store.events, limiter.Contents())
    }

    constructor (gate: Gate, store: Store, provider: OAuthProvider, limiter: TokenBucketLimiter, audit: AuditLog)
      requires gate.limits.Valid() && limiter.Valid()
      requires provider.store == store && provider.cfg == gate.cfg && limiter.limits == gate.limits
      requires audit.store == store && audit.codec == gate.codec
      ensures Valid()
      ensures this.store == store && this.provider == provider && this.limiter == limiter && this.audit == audit
      ensures this.gate == gate
    {
      this.gate := gate;
      this.store, this.provider, this.limiter, this.audit := store, provider, limiter, audit;
    }

    /** The row's team, read through the store before any guard runs. */
    method FindSubjectTeam(tool: Tool, args: Args) returns (team: Option<string>)
      ensures team == SubjectTeam(store.tickets, tool, args)
    {
      if tool == CreateTicket {
        var given := Given(args, TEAM);
        return if given.Text? then Some(given.s) else None;
      }
      if tool == GetTicket || tool == UpdateTicketStatus {
        var id := Given(args, TICKET_ID);
        if !id.Integer? {
          return None;
        }
        var row := store.GetTicket(id.i);
        if row.Success? && row.value.Some? {
          return Some(row.value.value.team);
        }
      }
      return None;
    }

    method FindVisibleTicket(id: int, teams: set<string>) returns (row: Result<Ticket, Refusal>)
      ensures row == VisibleTicket(store.tickets, id, teams)
    {
      var found := store.GetTicket(id);
      if found.Failure? {
        return Failure(InternalError);
      }
      if found.value.None? || found.value.value.team !in teams {
        return Failure(NotFound);
      }
      return Success(found.value.value);
    }

    method RunTool(tool: Tool, args: Args, access: Access, now: real) returns (outcome: Outcome)
      requires Valid()
      modifies store`tickets, store`nextTicketId
      ensures Valid() && (State(), outcome) == Dispatch(old(State()), tool, args, access, now)
    {
      hide SelectTickets, AuditEvents, VisibleTicket, OptionalStatus, AuditLimit, TextOf, IntegerOf, NewTicket;
      var teams := access.claims.teams;
      match tool {
        case ListTickets =>
          var rows := store.ListTickets(teams, OptionalStatus(args));
          outcome := Success(Tickets(rows));
        case GetTicket =>
          var row := FindVisibleTicket(IntegerOf(args, TICKET_ID), teams);
          outcome := if row.Success? then Success(OneTicket(row.value)) else Failure(row.error);
        case CreateTicket =>
          if TextOf(args, TEAM) !in teams {
            return Failure(RowScopeViolation);
          }
          var row := store.CreateTicket(TextOf(args, TEAM), TextOf(args, TITLE), TextOf(args, BODY), access.clientId, now);
          outcome := Success(OneTicket(row));
        case UpdateTicketStatus =>
          var id := IntegerOf(args, TICKET_ID);
          var visible := FindVisibleTicket(id, teams);
          if visible.Failure? {
            return Failure(visible.error);
          }
          var row := store.UpdateStatus(id, TextOf(args, STATUS), now);
          outcome := Success(if row.Some? then OneTicket(row.value) else NoTicket);
        case AuditRecent =>
          var events := store.ReadAudit("", AuditLimit(args), Some(teams));
          outcome := Success(Events(events));
        case Undeclared =>
          outcome := Failure(Refusal.UnknownTool);
      }
    }

    /** The guards in order, each refusing before the next runs. */
    method Guard(inv: Invocation, access: Option<Access>, r: Readings) returns (outcome: Outcome)
      requires Valid() && access == Authenticate(gate, State(), inv.token, r)
      modifies store`tickets, store`nextTicketId, limiter, limiter.owned
      ensures Valid() && fresh(limiter.owned - old(limiter.owned))
      ensures (State(), outcome) == Decide(gate, old(State()), inv, r)
    {
      hide Admit, Dispatch, Validate;
      if access.None? {
        return Failure(InvalidToken);
      }
      var allowed, retryAfter := limiter.Allow(access.value.clientId, r.limiterAt, 1.0);
      assert State() == Charge(gate, old(State()), access.value.clientId, r.limiterAt).0;
      if !allowed {
        return Failure(RateLimited(retryAfter));
      }
      var rule := gate.cfg.policy.RequireTool(inv.tool, access.value.scopes);
      if rule.Failure? {
        return Failure(Forbidden(rule.error));
      }
      var clean := ValidateInputs(ToolOf(inv.tool), inv.args);
      if clean.Failure? {
        return Failure(clean.error);
      }
      outcome := RunTool(ToolOf(inv.tool), clean.value, access.value, r.writeAt);
    }

    method Call(inv: Invocation, r: Readings) returns (outcome: Outcome)
      requires Valid()
      modifies store, limiter, limiter.owned
      ensures Valid() && fresh(limiter.owned - old(limiter.owned))
      ensures (State(), outcome) == Invoke(gate, old(State()), inv, r)
    {
      hide Decide, LoadAccess, SubjectTeam, Recorded;
      var access := provider.LoadAccessToken(inv.token, r.decodeAt, r.readAt);
      var clientId := if access.Some? then Some(access.value.clientId) else None;
      var session := SessionOf(inv, access, r.nonce);
      var action := ActionOf(gate.cfg.policy, inv.tool);
      var team := FindSubjectTeam(ToolOf(inv.tool), inv.args);
      assert State() == old(State());
      outcome := Guard(inv, access, r);
      ghost var decided := State();
      var decision := if outcome.Success? then ALLOW else DENY;
      var reason := if outcome.Success? then SATISFIED else Code(outcome.error);
      var row := audit.Record(Entry(session, clientId, inv.tool, action, decision, reason, inv.args, team), r.stamp);
      assert State() == decided.(events := decided.events + [row]);
    }
  }
}
