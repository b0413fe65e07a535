/** Row non-interference: what a caller sees depends only on its own rows, bucket, token and clock. */
module NonInterference {
  import opened Wrappers
  import opened Json
  import opened RateLimit
  import opened Store
  import opened Auth
  import opened Validation
  import opened Gateway
  import opened Runs
  import opened Audit
  import Grants
  import Policy

  function TeamsIn(token: Token): set<string> {
    if token.Signed? then token.claims.teams else {}
  }

  function ClientIn(token: Token): string {
    if token.Signed? then token.claims.clientId else ""
  }

  /** Everything of the server a holder of `token` may depend on. */
  datatype View = View(rows: map<int, Ticket>, bucket: Option<BucketState>, artifact: Option<Artifact>)

  function ViewOf(s: System, token: Token): View {
    View(Visible(s.tickets, TeamsIn(token)),
         Lookup(s.buckets, ClientIn(token)),
         if Sha256(token) in s.auth.artifacts then Some(s.auth.artifacts[Sha256(token)]) else None)
  }

  ghost predicate Sound(gate: Gate, s: System) {
    KeyedByIdBelow(s.tickets, s.nextTicketId) && s.nextTicketId >= 1 && Grants.Inv(gate.cfg, s.auth)
  }

  /** A step of the caller: any call with its token except creating a ticket or reading the audit log. */
  predicate IsCaller(step: Step, token: Token) {
    step.Call? && step.inv.token == token && ToolOf(step.inv.tool) != CreateTicket && ToolOf(step.inv.tool) != AuditRecent
  }

  /**
    A step of anyone else: a call on another identity's token that does not succeed in creating a ticket in
    one of the caller's teams or setting the status of one of its rows, a grant operation that does not name
    the caller's token, or a call the transport refused. Refused attempts on the caller's rows are outside.
   */
  ghost predicate Outside(gate: Gate, s: System, step: Step, token: Token)
    requires gate.limits.Valid()
  {
    match step
    case Rejected(_, _, _, _, _) => true
    case Grant(op) => Grants.Named(op) != Some(Sha256(token))
    case Call(inv, r) =>
      var access := Authenticate(gate, s, inv.token, r);
      && (access.Some? ==> access.value.clientId != ClientIn(token))
      && (Invoke(gate, s, inv, r).1.Success? && ToolOf(inv.tool) == CreateTicket ==>
            TextOf(inv.args, TEAM) !in TeamsIn(token))
      && (Invoke(gate, s, inv, r).1.Success? && ToolOf(inv.tool) == UpdateTicketStatus ==>
            IntegerOf(inv.args, TICKET_ID) !in Visible(s.tickets, TeamsIn(token)))
  }

  /** Whatever a client with none of the caller's teams calls, with whatever arguments, is outside. */
  lemma DisjointTeamsAreOutside(gate: Gate, s: System, inv: Invocation, r: Readings, token: Token)
    requires gate.limits.Valid()
    requires var access := Authenticate(gate, s, inv.token, r);
             access.Some? ==> access.value.clientId != ClientIn(token) && access.value.claims.teams !! TeamsIn(token)
    ensures Outside(gate, s, Step.Call(inv, r), token)
  {
    hide Invoke, Authenticate, ToolOf, SetStatus, Permitted, BucketsAfter, Recorded, EntryOf, LeavesTickets;
    InvokeEffect(gate, s, inv, r);
  }

  lemma EveryRunIsSound(gate: Gate, now: real, steps: seq<Step>)
    requires gate.limits.Valid()
    ensures Sound(gate, Exec(gate, Seeded(now), steps))
  {
    hide Exec, Seeded, Grants.Inv, WellFormedRow;
    RunKeepsRows(gate, now, steps);
    RunKeepsGrants(gate, now, steps);
  }

  // ---------- Steps of others ----------

  lemma NewRowUnseen(s: System, t: System, row: Ticket, teams: set<string>)
    requires KeyedByIdBelow(s.tickets, s.nextTicketId) && row.team !in teams
    requires t.tickets == s.tickets[s.nextTicketId := row]
    ensures Visible(t.tickets, teams) == Visible(s.tickets, teams)
  {
    assert s.nextTicketId !in s.tickets;
  }

  lemma StatusUnseen(tickets: map<int, Ticket>, id: int, status: string, now: real, teams: set<string>)
    requires id !in Visible(tickets, teams)
    ensures Visible(SetStatus(tickets, id, status, now), teams) == Visible(tickets, teams)
  {
  }

  lemma OtherCallKeepsRows(gate: Gate, s: System, inv: Invocation, r: Readings, token: Token)
    requires gate.limits.Valid() && KeyedByIdBelow(s.tickets, s.nextTicketId)
    requires Outside(gate, s, Step.Call(inv, r), token)
    ensures Visible(Invoke(gate, s, inv, r).0.tickets, TeamsIn(token)) == Visible(s.tickets, TeamsIn(token))
  {
    hide Invoke, Authenticate, ToolOf, Visible, KeyedByIdBelow, SetStatus, Permitted, BucketsAfter, Recorded, EntryOf;
    var (t, outcome) := Invoke(gate, s, inv, r);
    InvokeEffect(gate, s, inv, r);
    if outcome.Success? && ToolOf(inv.tool) == CreateTicket {
      NewRowUnseen(s, t, t.tickets[s.nextTicketId], TeamsIn(token));
    } else if outcome.Success? && ToolOf(inv.tool) == UpdateTicketStatus {
      StatusUnseen(s.tickets, IntegerOf(inv.args, TICKET_ID), TextOf(inv.args, STATUS), r.writeAt, TeamsIn(token));
    }
  }

  lemma OtherCallKeepsBucket(gate: Gate, s: System, inv: Invocation, r: Readings, token: Token)
    requires gate.limits.Valid()
    requires var access := Authenticate(gate, s, inv.token, r);
             access.Some? ==> access.value.clientId != ClientIn(token)
    ensures Lookup(BucketsAfter(gate, s, inv, r), ClientIn(token)) == Lookup(s.buckets, ClientIn(token))
  {
    hide Authenticate, ToolOf, Visible, Admit, ClientIn;
  }

  lemma OtherCallKeepsView(gate: Gate, s: System, inv: Invocation, r: Readings, token: Token)
    requires gate.limits.Valid() && KeyedByIdBelow(s.tickets, s.nextTicketId)
    requires Outside(gate, s, Step.Call(inv, r), token)
    ensures ViewOf(Invoke(gate, s, inv, r).0, token) == ViewOf(s, token)
  {
    InvokeEffect(gate, s, inv, r);
    OtherCallKeepsRows(gate, s, inv, r, token);
    OtherCallKeepsBucket(gate, s, inv, r, token);
    hide *;
    ViewIsItsParts(s, Invoke(gate, s, inv, r).0, token);
  }

  lemma ViewIsItsParts(s: System, t: System, token: Token)
    requires Visible(s.tickets, TeamsIn(token)) == Visible(t.tickets, TeamsIn(token))
    requires Lookup(s.buckets, ClientIn(token)) == Lookup(t.buckets, ClientIn(token))
    requires s.auth == t.auth
    ensures ViewOf(s, token) == ViewOf(t, token)
  {
  }

  lemma OutsideKeepsView(gate: Gate, s: System, step: Step, token: Token)
    requires gate.limits.Valid() && Sound(gate, s) && Sha256(token) in s.auth.artifacts
    ensures Outside(gate, s, step, token) ==> ViewOf(Next(gate, s, step), token) == ViewOf(s, token)
  {
    hide Invoke, Visible, Grants.Step, Sound;
    SoundTable(gate, s);
    match step
    case Call(inv, r) =>
      if Outside(gate, s, step, token) {
        OtherCallKeepsView(gate, s, inv, r, token);
      }
    case Rejected(_, _, _, _, _) =>
    case Grant(op) => Grants.StepTouchesOnlyNamed(gate.cfg, s.auth, op);
  }

  lemma SoundTable(gate: Gate, s: System)
    requires Sound(gate, s)
    ensures Grants.TableInv(gate.cfg, s.auth) && KeyedByIdBelow(s.tickets, s.nextTicketId)
  {
    hide Grants.TableInv, Grants.LineageInv;
  }

  lemma CallKeepsKeys(gate: Gate, s: System, inv: Invocation, r: Readings)
    requires gate.limits.Valid() && KeyedByIdBelow(s.tickets, s.nextTicketId) && s.nextTicketId >= 1
    ensures var t := Invoke(gate, s, inv, r).0;
            KeyedByIdBelow(t.tickets, t.nextTicketId) && t.nextTicketId >= 1
  {
    hide Invoke, Authenticate, ToolOf, Permitted, BucketsAfter, Recorded, EntryOf;
    InvokeEffect(gate, s, inv, r);
  }

  lemma StepKeepsSound(gate: Gate, s: System, step: Step)
    requires gate.limits.Valid() && Sound(gate, s)
    ensures Sound(gate, Next(gate, s, step))
  {
    hide Invoke, Grants.Inv, Grants.Step, KeyedByIdBelow, CreatesRow, SetsStatus, Permitted, BucketsAfter, Recorded,
         EntryOf;
    match step
    case Call(inv, r) =>
      InvokeEffect(gate, s, inv, r);
      CallKeepsKeys(gate, s, inv, r);
    case Rejected(_, _, _, _, _) =>
    case Grant(op) => Grants.StepKeepsInv(gate.cfg, s.auth, op);
  }

  // ---------- Steps of the caller ----------

  /** Authentication reads only the artifact of the presented token. */
  lemma AccessDependsOnArtifact(gate: Gate, s1: System, s2: System, token: Token, r: Readings)
    requires ViewOf(s1, token).artifact == ViewOf(s2, token).artifact
    ensures Authenticate(gate, s1, token, r) == Authenticate(gate, s2, token, r)
    ensures var access := Authenticate(gate, s1, token, r);
            access.Some? ==> access.value.clientId == ClientIn(token) && access.value.claims.teams == TeamsIn(token)
  {
    assert Sha256(token) in s1.auth.artifacts <==> Sha256(token) in s2.auth.artifacts;
  }

  lemma VisibleTicketDependsOnView(t1: map<int, Ticket>, t2: map<int, Ticket>, id: int, teams: set<string>)
    requires Visible(t1, teams) == Visible(t2, teams)
    ensures VisibleTicket(t1, id, teams) == VisibleTicket(t2, id, teams)
    ensures VisibleTicket(t1, id, teams).Success? ==> id in Visible(t1, teams)
  {
    SameVisibleRow(t1, t2, id, teams);
  }

  lemma StatusOfVisible(tickets: map<int, Ticket>, id: int, status: string, now: real, teams: set<string>)
    requires id in Visible(tickets, teams)
    ensures var row := Visible(tickets, teams)[id].(status := status, updatedAt := now);
            && Visible(SetStatus(tickets, id, status, now), teams) == Visible(tickets, teams)[id := row]
            && id in SetStatus(tickets, id, status, now) && SetStatus(tickets, id, status, now)[id] == row
  {
  }

  /** The dispatched call answers the same, and leaves the visible rows the same, on both servers. */
  lemma DispatchDependsOnView(s1: System, s2: System, tool: Tool, args: Args, access: Access, now: real)
    requires KeyedByIdBelow(s1.tickets, s1.nextTicketId) && KeyedByIdBelow(s2.tickets, s2.nextTicketId)
    requires tool != CreateTicket && tool != AuditRecent
    requires Visible(s1.tickets, access.claims.teams) == Visible(s2.tickets, access.claims.teams)
    ensures var (t1, o1) := Dispatch(s1, tool, args, access, now);
            var (t2, o2) := Dispatch(s2, tool, args, access, now);
            o1 == o2 && Visible(t1.tickets, access.claims.teams) == Visible(t2.tickets, access.claims.teams)
  {
    hide Visible, VisibleTicket, KeyedByIdBelow, SetStatus;
    var teams := access.claims.teams;
    var id := IntegerOf(args, TICKET_ID);
    ListingDependsOnVisibleRows(s1.tickets, s1.nextTicketId, s2.tickets, s2.nextTicketId, teams, OptionalStatus(args));
    VisibleTicketDependsOnView(s1.tickets, s2.tickets, id, teams);
    VisibleTicketDependsOnView(s2.tickets, s1.tickets, id, teams);
    if VisibleTicket(s1.tickets, id, teams).Success? {
      StatusOfVisible(s1.tickets, id, TextOf(args, STATUS), now, teams);
      StatusOfVisible(s2.tickets, id, TextOf(args, STATUS), now, teams);
    }
  }

  lemma GuardedDependsOnView(gate: Gate, s1: System, s2: System, inv: Invocation, access: Access, now: real)
    requires KeyedByIdBelow(s1.tickets, s1.nextTicketId) && KeyedByIdBelow(s2.tickets, s2.nextTicketId)
    requires ToolOf(inv.tool) != CreateTicket && ToolOf(inv.tool) != AuditRecent
    requires Visible(s1.tickets, access.claims.teams) == Visible(s2.tickets, access.claims.teams)
    ensures var (t1, o1) := Guarded(gate, s1, inv, access, now);
            var (t2, o2) := Guarded(gate, s2, inv, access, now);
            o1 == o2 && Visible(t1.tickets, access.claims.teams) == Visible(t2.tickets, access.claims.teams)
  {
    hide Visible, Dispatch, Validate, ToolOf, KeyedByIdBelow;
    var clean := Validate(ToolOf(inv.tool), inv.args);
    if clean.Success? {
      DispatchDependsOnView(s1, s2, ToolOf(inv.tool), clean.value, access, now);
    }
  }

  lemma CallOutcomeAndRows(gate: Gate, s1: System, s2: System, inv: Invocation, r: Readings)
    requires gate.limits.Valid()
    requires KeyedByIdBelow(s1.tickets, s1.nextTicketId) && KeyedByIdBelow(s2.tickets, s2.nextTicketId)
    requires ToolOf(inv.tool) != CreateTicket && ToolOf(inv.tool) != AuditRecent
    requires ViewOf(s1, inv.token) == ViewOf(s2, inv.token)
    ensures Decide(gate, s1, inv, r).1 == Decide(gate, s2, inv, r).1
    ensures Visible(Decide(gate, s1, inv, r).0.tickets, TeamsIn(inv.token)) ==
            Visible(Decide(gate, s2, inv, r).0.tickets, TeamsIn(inv.token))
  {
    AccessDependsOnArtifact(gate, s1, s2, inv.token, r);
    hide Authenticate, Guarded, Visible, Admit, ToolOf, KeyedByIdBelow;
    var access := Authenticate(gate, s1, inv.token, r);
    if access.Some? {
      var c1 := Charge(gate, s1, access.value.clientId, r.limiterAt).0;
      var c2 := Charge(gate, s2, access.value.clientId, r.limiterAt).0;
      GuardedDependsOnView(gate, c1, c2, inv, access.value, r.writeAt);
    }
  }

  lemma CallBuckets(gate: Gate, s1: System, s2: System, inv: Invocation, r: Readings)
    requires gate.limits.Valid() && ViewOf(s1, inv.token) == ViewOf(s2, inv.token)
    ensures Lookup(BucketsAfter(gate, s1, inv, r), ClientIn(inv.token)) ==
            Lookup(BucketsAfter(gate, s2, inv, r), ClientIn(inv.token))
  {
    AccessDependsOnArtifact(gate, s1, s2, inv.token, r);
    hide Authenticate, Visible, Admit;
  }

  /** One call of the caller on two servers that look the same to it. */
  lemma CallDependsOnView(gate: Gate, s1: System, s2: System, inv: Invocation, r: Readings)
    requires gate.limits.Valid() && Sound(gate, s1) && Sound(gate, s2)
    requires IsCaller(Step.Call(inv, r), inv.token) && ViewOf(s1, inv.token) == ViewOf(s2, inv.token)
    ensures Invoke(gate, s1, inv, r).1 == Invoke(gate, s2, inv, r).1
    ensures ViewOf(Invoke(gate, s1, inv, r).0, inv.token) == ViewOf(Invoke(gate, s2, inv, r).0, inv.token)
  {
    InvokeEffect(gate, s1, inv, r);
    InvokeEffect(gate, s2, inv, r);
    CallOutcomeAndRows(gate, s1, s2, inv, r);
    CallBuckets(gate, s1, s2, inv, r);
    hide Decide, Visible, BucketsAfter, Lookup, Recorded, EntryOf, Grants.Inv, KeyedByIdBelow, ToolOf, CreatesRow,
         SetsStatus, Permitted, LeavesTickets;
  }

  // ---------- Two runs ----------

  /** Every step is the caller's, or stays outside what the caller may see. */
  ghost predicate OthersStayOutside(gate: Gate, s: System, steps: seq<Step>, token: Token)
    requires gate.limits.Valid()
  {
    forall k :: 0 <= k < |steps| ==> StaysOutside(gate, s, steps, token, k)
  }

  ghost predicate StaysOutside(gate: Gate, s: System, steps: seq<Step>, token: Token, k: nat)
    requires gate.limits.Valid() && k < |steps|
  {
    IsCaller(steps[k], token) || Outside(gate, Exec(gate, s, steps[..k]), steps[k], token)
  }

  /** The caller's own steps, in order, with their arguments and clock readings. */
  function CallsOf(steps: seq<Step>, token: Token): seq<Step> {
    if steps == [] then []
    else
      var last := steps[|steps| - 1];
      CallsOf(steps[..|steps| - 1], token) + if IsCaller(last, token) then [last] else []
  }

  /** The results and errors the caller gets, in order. */
  function Replies(gate: Gate, s: System, steps: seq<Step>, token: Token): seq<Outcome>
    requires gate.limits.Valid()
  {
    if steps == [] then []
    else
      var front, last := steps[..|steps| - 1], steps[|steps| - 1];
      Replies(gate, s, front, token) +
      if IsCaller(last, token) then [Invoke(gate, Exec(gate, s, front), last.inv, last.r).1] else []
  }

  lemma {:induction false} ExecKeepsSound(gate: Gate, s: System, steps: seq<Step>)
    requires gate.limits.Valid() && Sound(gate, s)
    ensures Sound(gate, Exec(gate, s, steps))
  {
    hide Sound, Next;
    if steps != [] {
      ExecKeepsSound(gate, s, steps[..|steps| - 1]);
      StepKeepsSound(gate, Exec(gate, s, steps[..|steps| - 1]), steps[|steps| - 1]);
    }
  }

  lemma StepKeepsArtifact(gate: Gate, s: System, step: Step, token: Token)
    requires gate.limits.Valid() && Sound(gate, s) && Sha256(token) in s.auth.artifacts
    ensures Sha256(token) in Next(gate, s, step).auth.artifacts
  {
    hide Invoke, Grants.Step, Sound, Authenticate, Permitted, ToolOf;
    match step
    case Call(inv, r) => InvokeEffect(gate, s, inv, r);
    case Rejected(_, _, _, _, _) =>
    case Grant(op) =>
      SoundTable(gate, s);
      Grants.StepTouchesOnlyNamed(gate.cfg, s.auth, op);
  }

  lemma {:induction false} ExecKeepsArtifact(gate: Gate, s: System, steps: seq<Step>, token: Token)
    requires gate.limits.Valid() && Sound(gate, s) && Sha256(token) in s.auth.artifacts
    ensures Sha256(token) in Exec(gate, s, steps).auth.artifacts
  {
    hide Sound, Next;
    if steps != [] {
      ExecKeepsArtifact(gate, s, steps[..|steps| - 1], token);
      ExecKeepsSound(gate, s, steps[..|steps| - 1]);
      StepKeepsArtifact(gate, Exec(gate, s, steps[..|steps| - 1]), steps[|steps| - 1], token);
    }
  }

  lemma FrontStaysOutside(gate: Gate, s: System, steps: seq<Step>, token: Token)
    requires gate.limits.Valid() && steps != [] && OthersStayOutside(gate, s, steps, token)
    ensures OthersStayOutside(gate, s, steps[..|steps| - 1], token)
  {
    hide Outside, Exec;
    var front := steps[..|steps| - 1];
    forall k | 0 <= k < |front|
      ensures StaysOutside(gate, s, front, token, k)
    {
      assert StaysOutside(gate, s, steps, token, k);
      assert front[..k] == steps[..k];
    }
  }

  /** A last step of someone else adds nothing to the caller's run and leaves its view. */
  lemma DropOutsideStep(gate: Gate, s: System, steps: seq<Step>, token: Token)
    requires gate.limits.Valid() && Sound(gate, s) && Sha256(token) in s.auth.artifacts
    requires steps != [] && OthersStayOutside(gate, s, steps, token) && !IsCaller(steps[|steps| - 1], token)
    ensures var front := steps[..|steps| - 1];
            && OthersStayOutside(gate, s, front, token)
            && CallsOf(steps, token) == CallsOf(front, token)
            && Replies(gate, s, steps, token) == Replies(gate, s, front, token)
            && ViewOf(Exec(gate, s, steps), token) == ViewOf(Exec(gate, s, front), token)
  {
    hide Outside, Next, ViewOf, Sound, IsCaller;
    var front := steps[..|steps| - 1];
    FrontStaysOutside(gate, s, steps, token);
    assert StaysOutside(gate, s, steps, token, |steps| - 1);
    ExecKeepsSound(gate, s, front);
    ExecKeepsArtifact(gate, s, front, token);
    OutsideKeepsView(gate, Exec(gate, s, front), steps[|steps| - 1], token);
  }

  /** The same last call of the caller on two views that agree: same reply, and the views still agree. */
  lemma SameCallSameReply(gate: Gate, s1: System, s2: System, step: Step, token: Token)
    requires gate.limits.Valid() && Sound(gate, s1) && Sound(gate, s2) && IsCaller(step, token)
    requires ViewOf(s1, token) == ViewOf(s2, token)
    ensures Invoke(gate, s1, step.inv, step.r).1 == Invoke(gate, s2, step.inv, step.r).1
    ensures ViewOf(Next(gate, s1, step), token) == ViewOf(Next(gate, s2, step), token)
  {
    hide Invoke, ViewOf, Sound, ToolOf;
    CallDependsOnView(gate, s1, s2, step.inv, step.r);
  }

  /**
    Two runs that start in agreement on the caller's rows, bucket and token, and in which the caller makes
    the same calls at the same readings, give it the same results and errors at every call and end in
    agreement, whatever other rows hold and whatever others do outside its teams, in either run.
   */
  lemma {:induction false} RowNonInterference(gate: Gate, s1: System, steps1: seq<Step>, s2: System,
                                              steps2: seq<Step>, token: Token)
    requires gate.limits.Valid() && Sound(gate, s1) && Sound(gate, s2)
    requires Sha256(token) in s1.auth.artifacts && ViewOf(s1, token) == ViewOf(s2, token)
    requires OthersStayOutside(gate, s1, steps1, token) && OthersStayOutside(gate, s2, steps2, token)
    requires CallsOf(steps1, token) == CallsOf(steps2, token)
    ensures Replies(gate, s1, steps1, token) == Replies(gate, s2, steps2, token)
    ensures ViewOf(Exec(gate, s1, steps1), token) == ViewOf(Exec(gate, s2, steps2), token)
    decreases |steps1| + |steps2|
  {
    assert Sha256(token) in s2.auth.artifacts;
    hide ViewOf, Sound, IsCaller, Next, Invoke, OthersStayOutside;
    if steps1 != [] && !IsCaller(steps1[|steps1| - 1], token) {
      DropOutsideStep(gate, s1, steps1, token);
      RowNonInterference(gate, s1, steps1[..|steps1| - 1], s2, steps2, token);
    } else if steps2 != [] && !IsCaller(steps2[|steps2| - 1], token) {
      DropOutsideStep(gate, s2, steps2, token);
      RowNonInterference(gate, s1, steps1, s2, steps2[..|steps2| - 1], token);
    } else if steps1 != [] && steps2 != [] {
      BothEndWithTheCaller(gate, s1, steps1, s2, steps2, token);
      var front1, front2 := steps1[..|steps1| - 1], steps2[..|steps2| - 1];
      FrontStaysOutside(gate, s1, steps1, token);
      FrontStaysOutside(gate, s2, steps2, token);
      RowNonInterference(gate, s1, front1, s2, front2, token);
      ExecKeepsSound(gate, s1, front1);
      ExecKeepsSound(gate, s2, front2);
      SameCallSameReply(gate, Exec(gate, s1, front1), Exec(gate, s2, front2), steps1[|steps1| - 1], token);
    }
  }

  lemma BothEndWithTheCaller(gate: Gate, s1: System, steps1: seq<Step>, s2: System, steps2: seq<Step>, token: Token)
    requires steps1 != [] && steps2 != [] && CallsOf(steps1, token) == CallsOf(steps2, token)
    requires IsCaller(steps1[|steps1| - 1], token) && IsCaller(steps2[|steps2| - 1], token)
    ensures steps1[|steps1| - 1] == steps2[|steps2| - 1]
    ensures CallsOf(steps1[..|steps1| - 1], token) == CallsOf(steps2[..|steps2| - 1], token)
  {
    hide IsCaller;
    var c1, c2 := CallsOf(steps1, token), CallsOf(steps2, token);
    assert c1[|c1| - 1] == c2[|c2| - 1];
    assert c1[..|c1| - 1] == c2[..|c2| - 1];
    assert c1[..|c1| - 1] == CallsOf(steps1[..|steps1| - 1], token);
    assert c2[..|c2| - 1] == CallsOf(steps2[..|steps2| - 1], token);
  }

  // ---------- Clients that share no team ----------

  /** A step on somebody else's behalf, told from the step alone. */
  predicate Foreign(step: Step, token: Token) {
    match step
    case Call(inv, _) => ClientIn(inv.token) != ClientIn(token)
    case Grant(op) => Grants.Named(op) != Some(Sha256(token))
    case Rejected(_, _, _, _, _) => true
  }

  /** No other client of the policy has any of the token's teams. */
  ghost predicate SharesNoTeam(policy: Policy.Policy, token: Token) {
    forall clientId :: clientId in policy.clients && clientId != ClientIn(token) ==>
      policy.clients[clientId].teams !! TeamsIn(token)
  }

  ghost predicate OthersAreForeign(steps: seq<Step>, token: Token) {
    forall k :: 0 <= k < |steps| ==> IsCaller(steps[k], token) || Foreign(steps[k], token)
  }

  lemma ForeignStepIsOutside(gate: Gate, s: System, step: Step, token: Token)
    requires gate.limits.Valid() && Sound(gate, s)
    requires SharesNoTeam(gate.cfg.policy, token) && Foreign(step, token)
    ensures Outside(gate, s, step, token)
  {
    hide Invoke, Authenticate, Grants.Inv, Grants.Presentable, TeamsIn, ClientIn, KeyedByIdBelow, Visible, ToolOf;
    if step.Call? {
      var inv, r := step.inv, step.r;
      var access := Authenticate(gate, s, inv.token, r);
      if access.Some? {
        var i := AcceptedTokenWasIssued(gate, s, inv.token, r);
        AccessDependsOnArtifact(gate, s, s, inv.token, r);
      }
      DisjointTeamsAreOutside(gate, s, inv, r, token);
    }
  }

  lemma ForeignRunStaysOutside(gate: Gate, s: System, steps: seq<Step>, token: Token)
    requires gate.limits.Valid() && Sound(gate, s)
    requires SharesNoTeam(gate.cfg.policy, token) && OthersAreForeign(steps, token)
    ensures OthersStayOutside(gate, s, steps, token)
  {
    hide Sound, SharesNoTeam, Foreign, IsCaller, Outside, Exec;
    forall k | 0 <= k < |steps|
      ensures StaysOutside(gate, s, steps, token, k)
    {
      ExecKeepsSound(gate, s, steps[..k]);
      if !IsCaller(steps[k], token) {
        ForeignStepIsOutside(gate, Exec(gate, s, steps[..k]), steps[k], token);
      }
    }
  }

  /**
    When the policy gives no other client any of the caller's teams, nothing the others do with their own
    tokens, allowed or refused, reaches the caller: in two runs that start in agreement on its view, and in
    which it makes the same calls, it gets the same answers and the views end in agreement.
   */
  lemma ClientsWithoutSharedTeamsAreIsolated(gate: Gate, s1: System, steps1: seq<Step>, s2: System, steps2: seq<Step>,
                                             token: Token)
    requires gate.limits.Valid() && Sound(gate, s1) && Sound(gate, s2)
    requires Sha256(token) in s1.auth.artifacts && ViewOf(s1, token) == ViewOf(s2, token)
    requires SharesNoTeam(gate.cfg.policy, token)
    requires OthersAreForeign(steps1, token) && OthersAreForeign(steps2, token)
    requires CallsOf(steps1, token) == CallsOf(steps2, token)
    ensures Replies(gate, s1, steps1, token) == Replies(gate, s2, steps2, token)
    ensures ViewOf(Exec(gate, s1, steps1), token) == ViewOf(Exec(gate, s2, steps2), token)
  {
    hide Sound, ViewOf, SharesNoTeam, OthersAreForeign, OthersStayOutside, CallsOf, Exec, Replies;
    ForeignRunStaysOutside(gate, s1, steps1, token);
    ForeignRunStaysOutside(gate, s2, steps2, token);
    RowNonInterference(gate, s1, steps1, s2, steps2, token);
  }
}
