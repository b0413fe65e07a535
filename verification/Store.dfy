/** The three tables of store.py: tickets, OAuth artifacts and audit events. */
module Store {
  import opened Wrappers
  import opened Canonical
  import opened Sequences

  // ---------- Tickets ----------

  datatype Ticket = Ticket(
    id: int,
    team: string,
    title: string,
    body: string,
    status: string,
    createdBy: string,
    createdAt: real,
    updatedAt: real)

  /** The driver refuses an integer it cannot bind. */
  datatype Fault = OverflowError

  predicate Bindable(id: int) {
    -0x8000_0000_0000_0000 <= id < 0x8000_0000_0000_0000
  }

  function FindTicket(tickets: map<int, Ticket>, id: int): Result<Option<Ticket>, Fault> {
    if !Bindable(id) then Failure(OverflowError)
    else if id in tickets then Success(Some(tickets[id]))
    else Success(None)
  }

  predicate Selected(t: Ticket, teams: set<string>, status: Option<string>) {
    t.team in teams && (status.Some? ==> t.status == status.value)
  }

  /** The selected rows with ids below `end`, in id order. */
  function SelectTickets(tickets: map<int, Ticket>, end: nat, teams: set<string>, status: Option<string>): seq<Ticket> {
    if end == 0 then []
    else
      SelectTickets(tickets, end - 1, teams, status) +
      if end - 1 in tickets && Selected(tickets[end - 1], teams, status) then [tickets[end - 1]] else []
  }

  function NewTicket(id: int, team: string, title: string, body: string, clientId: string, now: real): Ticket {
    Ticket(id, team, title, body, "open", clientId, now, now)
  }

  function SetStatus(tickets: map<int, Ticket>, id: int, status: string, now: real): map<int, Ticket> {
    if id in tickets then tickets[id := tickets[id].(status := status, updatedAt := now)] else tickets
  }

  const SEED_AUTHOR := "seed"

  /** The demonstration rows, for an empty table whose next key is `id`. */
  function SeedRows(id: int, now: real): map<int, Ticket> {
    map[
      id := Ticket(id, "alpha", "Login timeout", "Customers see a timeout after SSO.", "open", SEED_AUTHOR, now, now),
      id + 1 := Ticket(id + 1, "beta", "Export is slow", "CSV export exceeds the latency SLO.", "open", SEED_AUTHOR,
                       now, now),
      id + 2 := Ticket(id + 2, "security", "Rotate signing key", "Quarterly key rotation is due.", "planned",
                       SEED_AUTHOR, now, now) ]
  }

  ghost predicate IsSeedRow(row: Ticket, team: string, title: string, status: string, now: real) {
    && row.team == team && row.title == title && row.status == status && row.createdBy == "seed"
    && row.createdAt == now == row.updatedAt
  }

  /** One open row for alpha, one open row for beta, one planned row for security. */
  lemma SeedRowsByTeam(id: int, now: real)
    ensures var rows := SeedRows(id, now);
            && rows.Keys == {id, id + 1, id + 2}
            && (forall k :: k in rows ==> rows[k].id == k)
            && IsSeedRow(rows[id], "alpha", "Login timeout", "open", now)
            && IsSeedRow(rows[id + 1], "beta", "Export is slow", "open", now)
            && IsSeedRow(rows[id + 2], "security", "Rotate signing key", "planned", now)
            && rows[id].body == "Customers see a timeout after SSO."
            && rows[id + 1].body == "CSV export exceeds the latency SLO."
            && rows[id + 2].body == "Quarterly key rotation is due."
  {
  }

  // ---------- OAuth artifacts ----------

  datatype Claims = Claims(
    issuer: string,
    audience: string,
    subject: string,
    clientId: string,
    scopes: set<string>,
    teams: set<string>,
    issuedAt: int,
    expires: int,
    jti: string)

  /** A bearer string: a JWT under some key, a random name, or anything else. */
  datatype Token = Signed(secret: string, claims: Claims) | Opaque(name: string) | Garbage(text: string)

  /** The stored digest; distinct tokens have distinct digests. */
  datatype Digest = Sha256(token: Token)

  datatype Kind = AuthorizationCode | AccessToken | RefreshToken

  /** The stored payload; its shape tells the `kind` column, since every writer stores the two together. */
  datatype Payload =
    | CodePayload(scopes: set<string>, codeChallenge: string, redirectUri: string, explicitUri: bool, resource: string)
    | AccessPayload(jti: string, scopes: set<string>)
    | RefreshPayload(scopes: set<string>)
  {
    function Kind(): Kind {
      match this
      case CodePayload(_, _, _, _, _) => AuthorizationCode
      case AccessPayload(_, _) => AccessToken
      case RefreshPayload(_) => RefreshToken
    }
  }

  datatype Artifact = Artifact(clientId: string, payload: Payload, expiresAt: real, consumed: bool, revoked: bool) {
    predicate Live(kind: Kind, now: real) {
      payload.Kind() == kind && !revoked && !consumed && expiresAt > now
    }
  }

  type Artifacts = map<Digest, Artifact>

  function PutArtifact(table: Artifacts, token: Token, clientId: string, payload: Payload, expiresAt: real): Artifacts {
    table[Sha256(token) := Artifact(clientId, payload, expiresAt, false, false)]
  }

  function GetArtifact(table: Artifacts, token: Token, kind: Kind, now: real): Option<Artifact> {
    var digest := Sha256(token);
    if digest in table && table[digest].Live(kind, now) then Some(table[digest]) else None
  }

  /** The table after a consuming read: only a row that was returned is marked. */
  function ConsumeArtifact(table: Artifacts, token: Token, kind: Kind, now: real): Artifacts {
    var digest := Sha256(token);
    if digest in table && table[digest].Live(kind, now) then table[digest := table[digest].(consumed := true)] else table
  }

  function RevokeArtifact(table: Artifacts, token: Token): Artifacts {
    var digest := Sha256(token);
    if digest in table then table[digest := table[digest].(revoked := true)] else table
  }

  // ---------- Audit events ----------

  datatype Event = Event(sequence: int, fields: Fields, eventHash: string)

  function Zeros(n: nat): string {
    seq(n, _ => '0')
  }

  const GENESIS: string := Zeros(64)

  function LastAuditHash(events: seq<Event>): string {
    if events == [] then GENESIS else events[|events| - 1].eventHash
  }

  function NextSequence(events: seq<Event>): int {
    if events == [] then 1 else events[|events| - 1].sequence + 1
  }

  predicate InTeams(e: Event, teams: Option<set<string>>) {
    teams.Some? && e.fields.subjectTeam.Some? ==> e.fields.subjectTeam.value in teams.value
  }

  predicate InSession(e: Event, session: string) {
    session != "" ==> e.fields.sessionId == session
  }

  /** The WHERE clause; an empty session name and absent teams put no restriction. */
  function Where(session: string, teams: Option<set<string>>): Event -> bool {
    e => InSession(e, session) && InTeams(e, teams)
  }

  /** Oldest first for one session, newest first otherwise. */
  function AuditEvents(events: seq<Event>, session: string, limit: int, teams: Option<set<string>>): seq<Event> {
    var rows := Filter(events, Where(session, teams));
    Limit(if session != "" then rows else Reverse(rows), limit)
  }

  // ---------- The store ----------

  class Store {
    var tickets: map<int, Ticket>
    var nextTicketId: nat
    var artifacts: Artifacts
    var events: seq<Event>

    constructor ()
      ensures tickets == map[] && nextTicketId == 1 && artifacts == map[] && events == []
    {
      tickets, nextTicketId, artifacts, events := map[], 1, map[], [];
    }

    method Seed(now: real)
      modifies this`tickets, this`nextTicketId
      ensures old(tickets) == map[] ==>
                tickets == SeedRows(old(nextTicketId), now) && nextTicketId == old(nextTicketId) + 3
      ensures old(tickets) != map[] ==> tickets == old(tickets) && nextTicketId == old(nextTicketId)
    {
      if |tickets| != 0 {
        return;
      }
      tickets := SeedRows(nextTicketId, now);
      nextTicketId := nextTicketId + 3;
    }

    method GetTicket(id: int) returns (row: Result<Option<Ticket>, Fault>)
      ensures row == FindTicket(tickets, id)
    {
      row := FindTicket(tickets, id);
    }

    method ListTickets(teams: set<string>, status: Option<string>) returns (rows: seq<Ticket>)
      ensures rows == SelectTickets(tickets, nextTicketId, teams, status)
    {
      rows := SelectTickets(tickets, nextTicketId, teams, status);
    }

    method CreateTicket(team: string, title: string, body: string, clientId: string, now: real) returns (row: Ticket)
      modifies this`tickets, this`nextTicketId
      ensures row == NewTicket(old(nextTicketId), team, title, body, clientId, now)
      ensures tickets == old(tickets)[old(nextTicketId) := row]
      ensures nextTicketId == old(nextTicketId) + 1
    {
      row := NewTicket(nextTicketId, team, title, body, clientId, now);
      tickets := tickets[nextTicketId := row];
      nextTicketId := nextTicketId + 1;
    }

    method UpdateStatus(id: int, status: string, now: real) returns (row: Option<Ticket>)
      modifies this`tickets
      ensures tickets == SetStatus(old(tickets), id, status, now)
      ensures row == if id in tickets then Some(tickets[id]) else None
    {
      if id in tickets {
        tickets := tickets[id := tickets[id].(status := status, updatedAt := now)];
        row := Some(tickets[id]);
      } else {
        row := None;
      }
    }

    method Put(token: Token, clientId: string, payload: Payload, expiresAt: real)
      modifies this`artifacts
      ensures artifacts == PutArtifact(old(artifacts), token, clientId, payload, expiresAt)
    {
      artifacts := artifacts[Sha256(token) := Artifact(clientId, payload, expiresAt, false, false)];
    }

    method Get(token: Token, kind: Kind, consume: bool, now: real) returns (row: Option<Artifact>)
      modifies this`artifacts
      ensures row == GetArtifact(old(artifacts), token, kind, now)
      ensures artifacts == if consume then ConsumeArtifact(old(artifacts), token, kind, now) else old(artifacts)
    {
      var digest := Sha256(token);
      if digest !in artifacts || !artifacts[digest].Live(kind, now) {
        return None;
      }
      row := Some(artifacts[digest]);
      if consume {
        artifacts := artifacts[digest := artifacts[digest].(consumed := true)];
      }
    }

    method Revoke(token: Token)
      modifies this`artifacts
      ensures artifacts == RevokeArtifact(old(artifacts), token)
    {
      var digest := Sha256(token);
      if digest in artifacts {
        artifacts := artifacts[digest := artifacts[digest].(revoked := true)];
      }
    }

    method ReadAudit(session: string, limit: int, teams: Option<set<string>>) returns (rows: seq<Event>)
      ensures rows == AuditEvents(events, session, limit, teams)
    {
      rows := AuditEvents(events, session, limit, teams);
    }

    method AppendAudit(fields: Fields, eventHash: string) returns (row: Event)
      modifies this`events
      ensures row == Event(NextSequence(old(events)), fields, eventHash)
      ensures events == old(events) + [row]
    {
      row := Event(NextSequence(events), fields, eventHash);
      events := events + [row];
    }
  }

  // ---------- What the queries return ----------

  ghost predicate KeyedByIdBelow(tickets: map<int, Ticket>, end: nat) {
    forall id :: id in tickets ==> 1 <= id < end && tickets[id].id == id
  }

  /** A listing holds exactly the selected rows, by strictly increasing id. */
  lemma {:induction false} ListingIsTheSelection(tickets: map<int, Ticket>, end: nat, teams: set<string>,
                                                 status: Option<string>)
    requires forall id :: id in tickets ==> tickets[id].id == id
    ensures var rows := SelectTickets(tickets, end, teams, status);
            && (forall t :: t in rows <==>
                  && t.id in tickets && 0 <= t.id < end && tickets[t.id] == t
                  && t.team in teams && (status.Some? ==> t.status == status.value))
            && (forall j, k :: 0 <= j < k < |rows| ==> rows[j].id < rows[k].id)
  {
    if end > 0 {
      ListingIsTheSelection(tickets, end - 1, teams, status);
      var front := SelectTickets(tickets, end - 1, teams, status);
      assert forall k :: 0 <= k < |front| ==> front[k] in front;
    }
  }

  /** The rows a caller restricted to `teams` may see. */
  function Visible(tickets: map<int, Ticket>, teams: set<string>): map<int, Ticket> {
    map id | id in tickets && tickets[id].team in teams :: tickets[id]
  }

  /** A listing depends only on the visible rows, not on how many others were ever created. */
  lemma ListingDependsOnVisibleRows(t1: map<int, Ticket>, end1: nat, t2: map<int, Ticket>, end2: nat, teams: set<string>,
                                    status: Option<string>)
    requires KeyedByIdBelow(t1, end1) && KeyedByIdBelow(t2, end2)
    requires Visible(t1, teams) == Visible(t2, teams)
    ensures SelectTickets(t1, end1, teams, status) == SelectTickets(t2, end2, teams, status)
  {
    var end := if end1 <= end2 then end2 else end1;
    ListingPastTheLastKey(t1, end1, end, teams, status);
    ListingPastTheLastKey(t2, end2, end, teams, status);
    ListingsAgree(t1, t2, end, teams, status);
  }

  lemma {:induction false} ListingPastTheLastKey(tickets: map<int, Ticket>, end: nat, past: nat, teams: set<string>,
                                                 status: Option<string>)
    requires KeyedByIdBelow(tickets, end) && end <= past
    ensures SelectTickets(tickets, end, teams, status) == SelectTickets(tickets, past, teams, status)
  {
    if end < past {
      ListingPastTheLastKey(tickets, end, past - 1, teams, status);
    }
  }

  lemma {:induction false} ListingsAgree(t1: map<int, Ticket>, t2: map<int, Ticket>, end: nat, teams: set<string>,
                                         status: Option<string>)
    requires Visible(t1, teams) == Visible(t2, teams)
    ensures SelectTickets(t1, end, teams, status) == SelectTickets(t2, end, teams, status)
  {
    if end > 0 {
      ListingsAgree(t1, t2, end - 1, teams, status);
      SameVisibleRow(t1, t2, end - 1, teams);
    }
  }

  lemma SameVisibleRow(t1: map<int, Ticket>, t2: map<int, Ticket>, id: int, teams: set<string>)
    requires Visible(t1, teams) == Visible(t2, teams)
    ensures (id in t1 && t1[id].team in teams) <==> (id in t2 && t2[id].team in teams)
    ensures id in t1 && t1[id].team in teams ==> t1[id] == t2[id]
  {
    assert id in Visible(t1, teams) <==> id in Visible(t2, teams);
    assert id in Visible(t1, teams) ==> Visible(t1, teams)[id] == Visible(t2, teams)[id];
  }

  ghost predicate Ordered(events: seq<Event>) {
    forall j, k :: 0 <= j < k < |events| ==> events[j].sequence < events[k].sequence
  }

  lemma {:induction false} FilterKeepsOrder(events: seq<Event>, keep: Event -> bool)
    requires Ordered(events)
    ensures Ordered(Filter(events, keep))
  {
    if events != [] {
      var front := events[..|events| - 1];
      FilterKeepsOrder(front, keep);
      assert forall e :: e in Filter(front, keep) ==> e in front && e.sequence < events[|events| - 1].sequence;
    }
  }

  /** The newest `limit` of `xs`, newest first; one is left out only for newer ones. */
  ghost predicate NewestOf(xs: seq<Event>, limit: nat, rows: seq<Event>) {
    && |rows| <= limit
    && (forall e :: e in rows ==> e in xs)
    && (forall j, k :: 0 <= j < k < |rows| ==> rows[j].sequence > rows[k].sequence)
    && (forall e :: e in xs && e !in rows ==> |rows| == limit && forall r :: r in rows ==> r.sequence > e.sequence)
  }

  lemma NewestByIndex(xs: seq<Event>, limit: nat, rows: seq<Event>)
    requires Ordered(xs) && |rows| == (if limit < |xs| then limit else |xs|)
    requires forall k :: 0 <= k < |rows| ==> rows[k] == xs[|xs| - 1 - k]
    ensures NewestOf(xs, limit, rows)
  {
    var n := |xs|;
    forall j | 0 <= j < n && n - 1 - j < |rows|
      ensures xs[j] in rows
    {
      assert rows[n - 1 - j] == xs[j];
    }
    forall e, r | e in xs && e !in rows && r in rows
      ensures r.sequence > e.sequence
    {
      var j :| 0 <= j < n && xs[j] == e;
      var k :| 0 <= k < |rows| && rows[k] == r;
      assert j < n - 1 - k;
    }
  }

  /** The same of the events that carry no team or one of `teams`. */
  ghost predicate NewestInScope(events: seq<Event>, limit: nat, teams: set<string>, rows: seq<Event>) {
    exists inScope: seq<Event> :: HoldsScope(events, teams, inScope) && NewestOf(inScope, limit, rows)
  }

  ghost predicate HoldsScope(events: seq<Event>, teams: set<string>, inScope: seq<Event>) {
    && Ordered(inScope)
    && forall e: Event :: e in inScope <==>
         e in events && (e.fields.subjectTeam.Some? ==> e.fields.subjectTeam.value in teams)
  }

  lemma ScopeGives(events: seq<Event>, limit: nat, teams: set<string>, inScope: seq<Event>, rows: seq<Event>)
    requires HoldsScope(events, teams, inScope) && NewestOf(inScope, limit, rows)
    ensures NewestInScope(events, limit, teams, rows)
  {
  }

  /**
    A team-scoped read of a log in sequence order returns the newest events that carry no team or one of
    the teams, newest first, up to the limit.
   */
  lemma ScopedReadIsNewestInScope(events: seq<Event>, limit: nat, teams: set<string>)
    requires Ordered(events)
    ensures NewestInScope(events, limit, teams, AuditEvents(events, "", limit, Some(teams)))
  {
    var inScope := Filter(events, Where("", Some(teams)));
    FilterKeepsOrder(events, Where("", Some(teams)));
    var rows := Limit(Reverse(inScope), limit);
    assert |rows| == (if limit < |inScope| then limit else |inScope|);
    assert forall k :: 0 <= k < |rows| ==> rows[k] == inScope[|inScope| - 1 - k];
    assert rows == AuditEvents(events, "", limit, Some(teams));
    assert HoldsScope(events, teams, inScope);
    hide *;
    NewestByIndex(inScope, limit, rows);
    ScopeGives(events, limit, teams, inScope, rows);
  }

  /** An event about another team, anywhere in the log, changes nothing a scoped reader is shown. */
  lemma ScopedReadIgnoresOtherTeams(before: seq<Event>, e: Event, after: seq<Event>, limit: int, teams: set<string>)
    requires e.fields.subjectTeam.Some? && e.fields.subjectTeam.value !in teams
    ensures AuditEvents(before + [e] + after, "", limit, Some(teams)) ==
            AuditEvents(before + after, "", limit, Some(teams))
  {
    FilterSkips(before, e, after, Where("", Some(teams)));
  }
}
