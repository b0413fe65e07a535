/** Argument validation of gateway.py: positive, typed, and before anything reaches the store. */
module Validation {
  import opened Wrappers
  import opened Json
  import opened Policy

  /** Every code a gateway error carries. */
  datatype Refusal =
    | InvalidToken
    | RateLimited(retryAfter: real)
    | Forbidden(cause: PermissionError)
    | UnknownTool
    | UnexpectedArgument
    | MissingArgument
    | InvalidArgumentType
    | InputTooLong
    | ControlCharacter
    | InvalidInput
    | InvalidStatus
    | NotFound
    | RowScopeViolation
    | InternalError

  datatype Tool = ListTickets | GetTicket | CreateTicket | UpdateTicketStatus | AuditRecent | Undeclared

  function ToolOf(name: string): Tool {
    if name == "list_tickets" then ListTickets
    else if name == "get_ticket" then GetTicket
    else if name == "create_ticket" then CreateTicket
    else if name == "update_ticket_status" then UpdateTicketStatus
    else if name == "audit_recent" then AuditRecent
    else Undeclared
  }

  const STATUS := "status"
  const TICKET_ID := "ticket_id"
  const TEAM := "team"
  const TITLE := "title"
  const BODY := "body"
  const LIMIT := "limit"

  datatype ArgumentKind = ArgumentKind(integer: bool, optional: bool)

  type Declaration = seq<(string, ArgumentKind)>

  function Declared(tool: Tool): Declaration {
    match tool
    case ListTickets => [(STATUS, ArgumentKind(false, true))]
    case GetTicket => [(TICKET_ID, ArgumentKind(true, false))]
    case CreateTicket =>
      [(TEAM, ArgumentKind(false, false)), (TITLE, ArgumentKind(false, false)), (BODY, ArgumentKind(false, false))]
    case UpdateTicketStatus => [(TICKET_ID, ArgumentKind(true, false)), (STATUS, ArgumentKind(false, false))]
    case AuditRecent => [(LIMIT, ArgumentKind(true, true))]
    case Undeclared => []
  }

  const MAX_TEXT := 4_000

  predicate IsControl(c: char) {
    var n := c as int;
    n <= 0x08 || n == 0x0B || n == 0x0C || 0x0E <= n <= 0x1F || n == 0x7F
  }

  predicate HasControl(s: string) {
    exists k :: 0 <= k < |s| && IsControl(s[k])
  }

  /** The characters Python's strip() removes. */
  predicate IsSpace(c: char) {
    var n := c as int;
    || 0x09 <= n <= 0x0D
    || 0x1C <= n <= 0x20
    || n in {0x85, 0xA0, 0x1680, 0x2028, 0x2029, 0x202F, 0x205F, 0x3000}
    || 0x2000 <= n <= 0x200A
  }

  predicate Blank(s: string) {
    forall k :: 0 <= k < |s| ==> IsSpace(s[k])
  }

  predicate ValidStatus(s: string) {
    s in {"open", "in_progress", "resolved", "closed", "planned"}
  }

  function Coerce(kind: ArgumentKind, value: Value): Result<Value, Refusal> {
    if kind.integer then
      if value.Integer? then Success(value) else Failure(InvalidArgumentType)
    else if !value.Text? then Failure(InvalidArgumentType)
    else if |value.s| > MAX_TEXT then Failure(InputTooLong)
    else if HasControl(value.s) then Failure(ControlCharacter)
    else Success(value)
  }

  function Names(declared: Declaration): set<string> {
    set k | 0 <= k < |declared| :: declared[k].0
  }

  /** An absent argument and a null one are the same. */
  function Given(args: Args, name: string): Value {
    if name in args then args[name] else Null
  }

  function CleanOne(declared: (string, ArgumentKind), args: Args): Result<Value, Refusal> {
    var value := Given(args, declared.0);
    if value.Null? then
      if declared.1.optional then Success(Null) else Failure(MissingArgument)
    else Coerce(declared.1, value)
  }

  /** The typed copy after the first `n` declared arguments, or the refusal of the first that fails. */
  function Clean(declared: Declaration, args: Args, n: nat): Result<Args, Refusal>
    requires n <= |declared|
  {
    if n == 0 then Success(map[])
    else
      match Clean(declared, args, n - 1)
      case Failure(e) => Failure(e)
      case Success(clean) =>
        match CleanOne(declared[n - 1], args)
        case Failure(e) => Failure(e)
        case Success(value) => Success(clean[declared[n - 1].0 := value])
  }

  function TextOf(args: Args, name: string): string {
    if Given(args, name).Text? then Given(args, name).s else ""
  }

  function IntegerOf(args: Args, name: string): int {
    if Given(args, name).Integer? then Given(args, name).i else 0
  }

  /** The last checks, on the typed copy. */
  function ToolRule(tool: Tool, clean: Args): Option<Refusal> {
    match tool
    case CreateTicket => if Blank(TextOf(clean, TITLE)) || Blank(TextOf(clean, BODY)) then Some(InvalidInput) else None
    case UpdateTicketStatus => if !ValidStatus(TextOf(clean, STATUS)) then Some(InvalidStatus) else None
    case GetTicket => if IntegerOf(clean, TICKET_ID) < 1 then Some(InvalidArgumentType) else None
    case _ => None
  }

  function Validate(tool: Tool, args: Args): Result<Args, Refusal> {
    var declared := Declared(tool);
    if tool == Undeclared then Failure(Refusal.UnknownTool)
    else if !(args.Keys <= Names(declared)) then Failure(UnexpectedArgument)
    else
      match Clean(declared, args, |declared|)
      case Failure(e) => Failure(e)
      case Success(clean) => if ToolRule(tool, clean).Some? then Failure(ToolRule(tool, clean).value) else Success(clean)
  }

  /** The validator as the source runs it: one pass over the declaration, filling the copy. */
  method ValidateInputs(tool: Tool, args: Args) returns (r: Result<Args, Refusal>)
    ensures r == Validate(tool, args)
  {
    if tool == Undeclared {
      return Failure(Refusal.UnknownTool);
    }
    var declared := Declared(tool);
    if !(args.Keys <= Names(declared)) {
      return Failure(UnexpectedArgument);
    }
    var clean: Args := map[];
    for k := 0 to |declared|
      invariant Clean(declared, args, k) == Success(clean)
    {
      var (name, kind) := declared[k];
      var value: Result<Value, Refusal>;
      if name !in args || args[name].Null? {
        value := if kind.optional then Success(Null) else Failure(MissingArgument);
      } else {
        value := Coerce(kind, args[name]);
      }
      if value.Failure? {
        FirstFailureStands(declared, args, k + 1, |declared|);
        return Failure(value.error);
      }
      clean := clean[name := value.value];
    }
    var rule := ToolRule(tool, clean);
    if rule.Some? {
      return Failure(rule.value);
    }
    return Success(clean);
  }

  lemma {:induction false} FirstFailureStands(declared: Declaration, args: Args, n: nat, m: nat)
    requires n <= m <= |declared| && Clean(declared, args, n).Failure?
    ensures Clean(declared, args, m) == Clean(declared, args, n)
  {
    if n < m {
      FirstFailureStands(declared, args, n, m - 1);
    }
  }

  // ---------- What validation guarantees ----------

  predicate DistinctNames(declared: Declaration) {
    forall j, k :: 0 <= j < k < |declared| ==> declared[j].0 != declared[k].0
  }

  lemma DeclaredNamesAreDistinct(tool: Tool)
    ensures DistinctNames(Declared(tool))
  {
    assert |STATUS| == 6 && |TICKET_ID| == 9 && |TEAM| == 4 && |TITLE| == 5 && |BODY| == 4;
    assert TEAM[0] != BODY[0];
  }

  lemma CleanOneCopies(declared: (string, ArgumentKind), args: Args)
    ensures CleanOne(declared, args).Success? ==> CleanOne(declared, args).value == Given(args, declared.0)
  {
  }

  lemma {:induction false} CleanSucceeds(declared: Declaration, args: Args, n: nat)
    requires n <= |declared|
    ensures Clean(declared, args, n).Success? <==> forall k :: 0 <= k < n ==> CleanOne(declared[k], args).Success?
  {
    hide CleanOne;
    if n > 0 {
      CleanSucceeds(declared, args, n - 1);
    }
  }

  /** Cleaning copies each declared argument unchanged, and nothing else. */
  lemma {:induction false} CleanCopies(declared: Declaration, args: Args, n: nat)
    requires n <= |declared| && DistinctNames(declared) && Clean(declared, args, n).Success?
    ensures var clean := Clean(declared, args, n).value;
            && (forall name :: name in clean <==> exists k :: 0 <= k < n && declared[k].0 == name)
            && (forall k :: 0 <= k < n ==> declared[k].0 in clean && clean[declared[k].0] == Given(args, declared[k].0))
  {
    hide CleanOne, Given;
    if n > 0 {
      CleanCopies(declared, args, n - 1);
      CleanOneCopies(declared[n - 1], args);
    }
  }

  /** When only declared arguments were given, the copy gives the same value under every name. */
  lemma CleanAgrees(declared: Declaration, args: Args)
    requires DistinctNames(declared) && Clean(declared, args, |declared|).Success? && args.Keys <= Names(declared)
    ensures var clean := Clean(declared, args, |declared|).value;
            clean.Keys == Names(declared) && forall name :: Given(clean, name) == Given(args, name)
  {
    CleanCopies(declared, args, |declared|);
    hide Clean, DistinctNames;
    var clean := Clean(declared, args, |declared|).value;
    forall name
      ensures Given(clean, name) == Given(args, name)
    {
      if name in clean {
        var k :| 0 <= k < |declared| && declared[k].0 == name;
      }
    }
  }

  /** Every declared argument is present or optional, of its type, short enough and free of controls. */
  ghost predicate WellTyped(tool: Tool, args: Args) {
    forall k :: 0 <= k < |Declared(tool)| ==> CleanOne(Declared(tool)[k], args).Success?
  }

  /** Validation accepts exactly the well-typed argument maps of a declared tool that pass its own rule. */
  lemma ValidatesExactly(tool: Tool, args: Args)
    ensures Validate(tool, args).Success? <==>
              && tool != Undeclared
              && args.Keys <= Names(Declared(tool))
              && WellTyped(tool, args)
              && ToolRule(tool, args).None?
    ensures Validate(tool, args).Success? ==>
              var clean := Validate(tool, args).value;
              && clean.Keys == Names(Declared(tool))
              && forall name :: Given(clean, name) == Given(args, name)
  {
    var declared := Declared(tool);
    DeclaredNamesAreDistinct(tool);
    CleanSucceeds(declared, args, |declared|);
    hide Declared, DistinctNames, Clean, CleanOne, ToolRule, Given;
    if Clean(declared, args, |declared|).Success? && args.Keys <= Names(declared) {
      CleanAgrees(declared, args);
      TypingIsPointwise(tool, Clean(declared, args, |declared|).value, args);
    }
  }

  lemma TypingIsPointwise(tool: Tool, a: Args, b: Args)
    requires forall name :: Given(a, name) == Given(b, name)
    ensures WellTyped(tool, a) == WellTyped(tool, b) && ToolRule(tool, a) == ToolRule(tool, b)
  {
    forall k | 0 <= k < |Declared(tool)|
      ensures CleanOne(Declared(tool)[k], a) == CleanOne(Declared(tool)[k], b)
    {
    }
  }

  /** Validating a validated map changes nothing. */
  lemma ValidationIsIdempotent(tool: Tool, args: Args)
    requires Validate(tool, args).Success?
    ensures Validate(tool, Validate(tool, args).value) == Validate(tool, args)
  {
    hide Validate, WellTyped, ToolRule, Declared;
    var clean := Validate(tool, args).value;
    ValidatesExactly(tool, args);
    TypingIsPointwise(tool, clean, args);
    ValidatesExactly(tool, clean);
    var again := Validate(tool, clean).value;
    forall name | name in clean
      ensures again[name] == clean[name]
    {
      assert Given(again, name) == Given(clean, name);
    }
    assert again == clean;
  }

  ghost predicate CleanText(s: string) {
    |s| <= MAX_TEXT && !HasControl(s)
  }

  /** What the dispatcher may rely on, tool by tool. */
  lemma ValidatedArguments(tool: Tool, args: Args)
    requires Validate(tool, args).Success?
    ensures tool != Undeclared
    ensures tool == ListTickets ==> Given(args, STATUS).Null? || Given(args, STATUS).Text?
    ensures tool == GetTicket ==> Given(args, TICKET_ID).Integer? && IntegerOf(args, TICKET_ID) >= 1
    ensures tool == CreateTicket ==>
              && Given(args, TEAM).Text? && Given(args, TITLE).Text? && Given(args, BODY).Text?
              && CleanText(TextOf(args, TEAM)) && CleanText(TextOf(args, TITLE)) && CleanText(TextOf(args, BODY))
              && !Blank(TextOf(args, TITLE)) && !Blank(TextOf(args, BODY))
    ensures tool == UpdateTicketStatus ==>
              Given(args, TICKET_ID).Integer? && Given(args, STATUS).Text? && ValidStatus(TextOf(args, STATUS))
    ensures tool == AuditRecent ==> Given(args, LIMIT).Null? || Given(args, LIMIT).Integer?
    ensures forall name :: Given(Validate(tool, args).value, name) == Given(args, name)
  {
    ValidatesExactly(tool, args);
    hide Validate, HasControl, Blank, ValidStatus;
    var declared := Declared(tool);
    assert forall k :: 0 <= k < |declared| ==> CleanOne(declared[k], args).Success?;
    assert CleanOne(declared[0], args).Success?;
    assert |declared| > 1 ==> CleanOne(declared[1], args).Success?;
    assert |declared| > 2 ==> CleanOne(declared[2], args).Success?;
  }

  // ---------- The same, tool by tool and refusal by refusal ----------

  /** Text of at most 4,000 characters, with no control character but tab, line feed and carriage return. */
  ghost predicate ProperText(v: Value) {
    v.Text? && |v.s| <= 4_000 && forall c :: c in v.s ==> ' ' <= c != '\U{007F}' || c in {'\t', '\n', '\r'}
  }

  ghost predicate ProperArgs(tool: Tool, args: Args) {
    match tool
    case ListTickets =>
      args.Keys <= {"status"} && ("status" in args ==> args["status"].Null? || ProperText(args["status"]))
    case GetTicket => args.Keys == {"ticket_id"} && args["ticket_id"].Integer? && args["ticket_id"].i >= 1
    case CreateTicket =>
      && args.Keys == {"team", "title", "body"}
      && ProperText(args["team"]) && ProperText(args["title"]) && ProperText(args["body"])
      && !Blank(args["title"].s) && !Blank(args["body"].s)
    case UpdateTicketStatus =>
      && args.Keys == {"ticket_id", "status"}
      && args["ticket_id"].Integer? && args["status"].Text?
      && args["status"].s in {"open", "in_progress", "resolved", "closed", "planned"}
    case AuditRecent => args.Keys <= {"limit"} && ("limit" in args ==> args["limit"].Null? || args["limit"].Integer?)
    case Undeclared => false
  }

  /** The refusal one argument earns on its own. */
  ghost predicate BadArgument(args: Args, name: string, integer: bool, optional: bool, e: Refusal) {
    if name !in args || args[name].Null? then !optional && e == MissingArgument
    else if integer then !args[name].Integer? && e == InvalidArgumentType
    else if !args[name].Text? then e == InvalidArgumentType
    else if |args[name].s| > 4_000 then e == InputTooLong
    else !ProperText(args[name]) && e == ControlCharacter
  }

  ghost predicate IsText(args: Args, name: string) {
    name in args && ProperText(args[name])
  }

  ghost predicate IsInteger(args: Args, name: string) {
    name in args && args[name].Integer?
  }

  /** The refusal a call earns: unexpected arguments first, then the declared ones in order, then the tool's rule. */
  ghost predicate RefusedFor(tool: Tool, args: Args, e: Refusal) {
    match tool
    case Undeclared => e == Refusal.UnknownTool
    case ListTickets =>
      if !(args.Keys <= {"status"}) then e == UnexpectedArgument else BadArgument(args, "status", false, true, e)
    case GetTicket =>
      if !(args.Keys <= {"ticket_id"}) then e == UnexpectedArgument
      else if !IsInteger(args, "ticket_id") then BadArgument(args, "ticket_id", true, false, e)
      else args["ticket_id"].i < 1 && e == InvalidArgumentType
    case CreateTicket =>
      if !(args.Keys <= {"team", "title", "body"}) then e == UnexpectedArgument
      else if !IsText(args, "team") then BadArgument(args, "team", false, false, e)
      else if !IsText(args, "title") then BadArgument(args, "title", false, false, e)
      else if !IsText(args, "body") then BadArgument(args, "body", false, false, e)
      else (Blank(args["title"].s) || Blank(args["body"].s)) && e == InvalidInput
    case UpdateTicketStatus =>
      if !(args.Keys <= {"ticket_id", "status"}) then e == UnexpectedArgument
      else if !IsInteger(args, "ticket_id") then BadArgument(args, "ticket_id", true, false, e)
      else if !IsText(args, "status") then BadArgument(args, "status", false, false, e)
      else args["status"].s !in {"open", "in_progress", "resolved", "closed", "planned"} && e == InvalidStatus
    case AuditRecent =>
      if !(args.Keys <= {"limit"}) then e == UnexpectedArgument else BadArgument(args, "limit", true, true, e)
  }

  /** A visible ASCII character makes a text non-blank; spaces, tabs and line ends alone do not. */
  lemma BlankExactlyInAscii(s: string)
    requires forall c :: c in s ==> '\t' <= c <= '\r' || ' ' <= c <= '~'
    ensures Blank(s) <==> forall c :: c in s ==> c <= ' '
  {
    assert forall k :: 0 <= k < |s| ==> s[k] in s;
  }

  lemma ControlsAreTheUnprintables(c: char)
    ensures IsControl(c) <==> !(' ' <= c != '\U{007F}' || c in {'\t', '\n', '\r'})
  {
  }

  lemma ProperTextCoerces(v: Value)
    requires v.Text? && |v.s| <= MAX_TEXT
    ensures ProperText(v) <==> !HasControl(v.s)
  {
    forall c
      ensures IsControl(c) <==> !(' ' <= c != '\U{007F}' || c in {'\t', '\n', '\r'})
    {
      ControlsAreTheUnprintables(c);
    }
    hide IsControl;
    assert forall k :: 0 <= k < |v.s| ==> v.s[k] in v.s;
  }

  /** One declared argument: it is accepted as proper, or refused as the table says. */
  lemma OneArgument(args: Args, name: string, kind: ArgumentKind)
    ensures var one := CleanOne((name, kind), args);
            && (forall e :: one == Failure(e) <==> BadArgument(args, name, kind.integer, kind.optional, e))
            && (one.Success? <==>
                  if name !in args || args[name].Null? then kind.optional
                  else if kind.integer then IsInteger(args, name)
                  else IsText(args, name))
  {
    if name in args && args[name].Text? && |args[name].s| <= MAX_TEXT {
      ProperTextCoerces(args[name]);
    }
    hide HasControl, ProperText;
  }

  lemma KeysOf(tool: Tool)
    ensures Names(Declared(tool)) ==
            match tool
            case ListTickets => {"status"}
            case GetTicket => {"ticket_id"}
            case CreateTicket => {"team", "title", "body"}
            case UpdateTicketStatus => {"ticket_id", "status"}
            case AuditRecent => {"limit"}
            case Undeclared => {}
  {
    var declared := Declared(tool);
    assert |declared| > 0 ==> declared[0].0 in Names(declared);
    assert |declared| > 1 ==> declared[1].0 in Names(declared);
    assert |declared| > 2 ==> declared[2].0 in Names(declared);
  }

  lemma FirstBadArgument(tool: Tool, args: Args, k: nat)
    requires tool != Undeclared && args.Keys <= Names(Declared(tool)) && k < |Declared(tool)|
    requires forall j :: 0 <= j < k ==> CleanOne(Declared(tool)[j], args).Success?
    requires CleanOne(Declared(tool)[k], args).Failure?
    ensures Validate(tool, args) == Failure(CleanOne(Declared(tool)[k], args).error)
  {
    hide Declared, CleanOne, Names;
    CleanSucceeds(Declared(tool), args, k);
    FirstFailureStands(Declared(tool), args, k + 1, |Declared(tool)|);
  }

  /** With every declared argument in order, the tool's own rule decides. */
  lemma RuleDecides(tool: Tool, args: Args)
    requires tool != Undeclared && args.Keys <= Names(Declared(tool)) && WellTyped(tool, args)
    ensures Validate(tool, args).Success? <==> ToolRule(tool, args).None?
    ensures ToolRule(tool, args).Some? ==> Validate(tool, args) == Failure(ToolRule(tool, args).value)
  {
    var declared := Declared(tool);
    DeclaredNamesAreDistinct(tool);
    CleanSucceeds(declared, args, |declared|);
    hide Declared, DistinctNames, CleanOne, Given, Names, ToolRule, Clean;
    CleanAgrees(declared, args);
    TypingIsPointwise(tool, Clean(declared, args, |declared|).value, args);
  }

  ghost predicate Table(tool: Tool, args: Args) {
    && (forall e :: Validate(tool, args) == Failure(e) <==> RefusedFor(tool, args, e))
    && (Validate(tool, args).Success? <==> ProperArgs(tool, args))
  }

  lemma UnexpectedIsRefused(tool: Tool, args: Args)
    requires tool == Undeclared || !(args.Keys <= Names(Declared(tool)))
    ensures Table(tool, args)
  {
    KeysOf(tool);
    hide Names, Declared, Clean, ProperText, Blank, BadArgument;
  }

  /** The tools with one argument. */
  lemma OneArgumentTable(tool: Tool, args: Args)
    requires |Declared(tool)| == 1 && args.Keys <= Names(Declared(tool))
    ensures Table(tool, args)
  {
    KeysOf(tool);
    var (name, kind) := Declared(tool)[0];
    OneArgument(args, name, kind);
    if CleanOne((name, kind), args).Failure? {
      FirstBadArgument(tool, args, 0);
    } else {
      RuleDecides(tool, args);
    }
    hide Names, Validate, CleanOne, ProperText, Blank;
  }

  lemma StatusIsProper(s: string)
    requires ValidStatus(s)
    ensures ProperText(Value.Text(s))
  {
    assert |s| <= 11 && forall k :: 0 <= k < |s| ==> 'a' <= s[k] <= 'z' || s[k] == '_';
  }

  lemma UpdateTable(args: Args)
    requires args.Keys <= Names(Declared(UpdateTicketStatus))
    ensures Table(UpdateTicketStatus, args)
  {
    KeysOf(UpdateTicketStatus);
    OneArgument(args, TICKET_ID, ArgumentKind(true, false));
    OneArgument(args, STATUS, ArgumentKind(false, false));
    assert Declared(UpdateTicketStatus) ==
           [(TICKET_ID, ArgumentKind(true, false)), (STATUS, ArgumentKind(false, false))];
    if CleanOne((TICKET_ID, ArgumentKind(true, false)), args).Failure? {
      FirstBadArgument(UpdateTicketStatus, args, 0);
    } else if CleanOne((STATUS, ArgumentKind(false, false)), args).Failure? {
      FirstBadArgument(UpdateTicketStatus, args, 1);
    } else {
      RuleDecides(UpdateTicketStatus, args);
    }
    if STATUS in args && args[STATUS].Text? && ValidStatus(args[STATUS].s) {
      StatusIsProper(args[STATUS].s);
    }
    hide Names, Validate, CleanOne, ProperText, Declared, Blank;
  }

  lemma CreateTable(args: Args)
    requires args.Keys <= Names(Declared(CreateTicket))
    ensures Table(CreateTicket, args)
  {
    var text := ArgumentKind(false, false);
    KeysOf(CreateTicket);
    OneArgument(args, TEAM, text);
    OneArgument(args, TITLE, text);
    OneArgument(args, BODY, text);
    assert Declared(CreateTicket) == [(TEAM, text), (TITLE, text), (BODY, text)];
    if CleanOne((TEAM, text), args).Failure? {
      FirstBadArgument(CreateTicket, args, 0);
    } else if CleanOne((TITLE, text), args).Failure? {
      FirstBadArgument(CreateTicket, args, 1);
    } else if CleanOne((BODY, text), args).Failure? {
      FirstBadArgument(CreateTicket, args, 2);
    } else {
      RuleDecides(CreateTicket, args);
    }
    hide Names, Validate, CleanOne, ProperText, Declared, Blank;
  }

  /**
    Validation accepts exactly the proper arguments of each tool, and refuses each other call for exactly
    the reason the table gives.
   */
  lemma RefusesExactly(tool: Tool, args: Args)
    ensures forall e :: Validate(tool, args) == Failure(e) <==> RefusedFor(tool, args, e)
    ensures Validate(tool, args).Success? <==> ProperArgs(tool, args)
  {
    if tool == Undeclared || !(args.Keys <= Names(Declared(tool))) {
      UnexpectedIsRefused(tool, args);
    } else if tool == CreateTicket {
      CreateTable(args);
    } else if tool == UpdateTicketStatus {
      UpdateTable(args);
    } else {
      OneArgumentTable(tool, args);
    }
    hide Validate, RefusedFor, ProperArgs;
  }
}
