/** What every run of grant operations keeps: the artifact table, token lineage and access tokens. */
module Grants {
  import opened Wrappers
  import opened Policy
  import opened Store
  import opened Auth

  datatype Op =
    | OpAuthorize(client: ClientInfo, params: AuthorizationParams, now: real)
    | OpExchangeCode(clientId: string, code: Token, readAt: real, issueAt: real)
    | OpExchangeRefresh(clientId: string, token: Token, scopes: seq<string>, readAt: real, issueAt: real)
    | OpRevoke(token: Token)
    | OpIssue(clientId: string, secret: string, requested: Option<seq<string>>, now: real)

  function Step(cfg: Config, s: AuthState, op: Op): AuthState {
    match op
    case OpAuthorize(client, params, now) => Authorize(cfg, s, client, params, now).0
    case OpExchangeCode(clientId, code, readAt, issueAt) => ExchangeCode(cfg, s, clientId, code, readAt, issueAt).0
    case OpExchangeRefresh(clientId, token, scopes, readAt, issueAt) =>
      ExchangeRefresh(cfg, s, clientId, token, scopes, readAt, issueAt).0
    case OpRevoke(token) => s.(artifacts := RevokeArtifact(s.artifacts, token))
    case OpIssue(clientId, secret, requested, now) => IssueForClient(cfg, s, clientId, secret, requested, now).0
  }

  const NOTHING_ISSUED := AuthState(map[], 0, [])

  function Run(cfg: Config, s: AuthState, ops: seq<Op>): AuthState {
    if ops == [] then s else Step(cfg, Run(cfg, s, ops[..|ops| - 1]), ops[|ops| - 1])
  }

  // ---------- The table invariant ----------

  /** The random name inside a token this server made was drawn before `n`. */
  ghost predicate NamedBelow(token: Token, n: nat) {
    match token
    case Signed(_, claims) => |claims.jti| <= n
    case Opaque(name) => |name| <= n
    case Garbage(_) => false
  }

  function AccessOf(cfg: Config, issue: Issue): Token {
    AccessTokenOf(cfg, issue, cfg.settings.resourceUrl)
  }

  ghost predicate MayHold(cfg: Config, clientId: string, scopes: set<string>) {
    clientId in cfg.policy.clients && scopes <= cfg.policy.clients[clientId].scopes
  }

  /** Each row is a code within policy for this audience, or belongs to an issued pair. */
  ghost predicate RowOk(cfg: Config, s: AuthState, d: Digest)
    requires d in s.artifacts
  {
    var row := s.artifacts[d];
    && NamedBelow(d.token, s.supply)
    && match row.payload
       case CodePayload(scopes, _, _, _, resource) =>
         d.token.Opaque? && resource == cfg.settings.resourceUrl && MayHold(cfg, row.clientId, scopes)
       case AccessPayload(_, _) => exists i :: 0 <= i < |s.issues| && AccessOf(cfg, s.issues[i]) == d.token
       case RefreshPayload(_) => exists i :: 0 <= i < |s.issues| && RefreshTokenOf(s.issues[i]) == d.token
  }

  function AccessRow(cfg: Config, issue: Issue, revoked: bool): Artifact {
    Artifact(issue.clientId, AccessPayload(NameText(issue.serial), issue.scopes),
             (issue.issuedAt + cfg.settings.accessTtl) as real, false, revoked)
  }

  function RefreshRow(cfg: Config, issue: Issue, consumed: bool, revoked: bool): Artifact {
    Artifact(issue.clientId, RefreshPayload(issue.scopes), (issue.issuedAt + cfg.settings.refreshTtl) as real, consumed,
             revoked)
  }

  /** Both rows of an issued pair are in the table as they were put there, up to their flags. */
  ghost predicate IssueOk(cfg: Config, s: AuthState, issue: Issue) {
    var a, r := Sha256(AccessOf(cfg, issue)), Sha256(RefreshTokenOf(issue));
    && issue.serial + 2 <= s.supply
    && MayHold(cfg, issue.clientId, issue.scopes)
    && a in s.artifacts && s.artifacts[a] == AccessRow(cfg, issue, s.artifacts[a].revoked)
    && r in s.artifacts && s.artifacts[r] == RefreshRow(cfg, issue, s.artifacts[r].consumed, s.artifacts[r].revoked)
  }

  ghost predicate TableInv(cfg: Config, s: AuthState) {
    && (forall d :: d in s.artifacts ==> RowOk(cfg, s, d))
    && (forall i :: 0 <= i < |s.issues| ==> IssueOk(cfg, s, s.issues[i]))
    && (forall i, j :: 0 <= i < j < |s.issues| ==> s.issues[i].serial + 2 <= s.issues[j].serial)
  }

  /** Rows are the same up to flags, and flags are only ever set; access rows are never consumed. */
  ghost predicate FlagsGrow(before: Artifacts, after: Artifacts) {
    && before.Keys == after.Keys
    && forall d :: d in before ==> RowGrows(before[d], after[d])
  }

  ghost predicate RowGrows(before: Artifact, after: Artifact) {
    && after == before.(consumed := after.consumed, revoked := after.revoked)
    && (before.consumed ==> after.consumed)
    && (before.revoked ==> after.revoked)
    && (before.payload.AccessPayload? ==> after.consumed == before.consumed)
  }

  lemma FlagsKeepTable(cfg: Config, s: AuthState, after: Artifacts)
    requires TableInv(cfg, s) && FlagsGrow(s.artifacts, after)
    ensures TableInv(cfg, s.(artifacts := after))
  {
    var t := s.(artifacts := after);
    forall d | d in t.artifacts
      ensures RowOk(cfg, t, d)
    {
      assert RowOk(cfg, s, d) && RowGrows(s.artifacts[d], after[d]);
    }
    forall i | 0 <= i < |t.issues|
      ensures IssueOk(cfg, t, t.issues[i])
    {
      assert IssueOk(cfg, s, s.issues[i]);
    }
  }

  /** A name not yet drawn is in no row. */
  lemma NextNamesAreFresh(cfg: Config, s: AuthState, token: Token)
    requires TableInv(cfg, s) && !NamedBelow(token, s.supply)
    ensures Sha256(token) !in s.artifacts
  {
  }

  lemma PutCodeKeepsTable(cfg: Config, s: AuthState, row: Artifact)
    requires TableInv(cfg, s) && row.payload.CodePayload?
    requires row.payload.resource == cfg.settings.resourceUrl && MayHold(cfg, row.clientId, row.payload.scopes)
    ensures var d := Sha256(Opaque(NameText(s.supply)));
            d !in s.artifacts && TableInv(cfg, s.(artifacts := s.artifacts[d := row], supply := s.supply + 1))
  {
    var code := Opaque(NameText(s.supply));
    NextNamesAreFresh(cfg, s, code);
    var t := s.(artifacts := s.artifacts[Sha256(code) := row], supply := s.supply + 1);
    forall d | d in t.artifacts
      ensures RowOk(cfg, t, d)
    {
      if d in s.artifacts {
        assert RowOk(cfg, s, d);
      }
    }
    forall i | 0 <= i < |t.issues|
      ensures IssueOk(cfg, t, t.issues[i])
    {
      assert IssueOk(cfg, s, s.issues[i]);
    }
  }

  lemma NewPairIsFresh(cfg: Config, s: AuthState, issue: Issue)
    requires TableInv(cfg, s) && issue.serial == s.supply
    ensures Sha256(AccessOf(cfg, issue)) !in s.artifacts && Sha256(RefreshTokenOf(issue)) !in s.artifacts
  {
    NextNamesAreFresh(cfg, s, AccessOf(cfg, issue));
    NextNamesAreFresh(cfg, s, RefreshTokenOf(issue));
  }

  lemma IssueKeepsRows(cfg: Config, s: AuthState, issue: Issue, t: AuthState, d: Digest)
    requires TableInv(cfg, s) && issue.serial == s.supply && t.issues == s.issues + [issue] && t.supply == s.supply + 2
    requires t.artifacts == PutPair(cfg, s.artifacts, issue, cfg.settings.resourceUrl) && d in t.artifacts
    ensures RowOk(cfg, t, d)
  {
    assert t.issues[|s.issues|] == issue;
    assert forall i :: 0 <= i < |s.issues| ==> t.issues[i] == s.issues[i];
    if d in s.artifacts {
      assert RowOk(cfg, s, d);
      NewPairIsFresh(cfg, s, issue);
    }
  }

  lemma IssueKeepsTable(cfg: Config, s: AuthState, source: Source, clientId: string, scopes: set<string>, now: real)
    requires TableInv(cfg, s) && MayHold(cfg, clientId, scopes)
    ensures TableInv(cfg, IssuePair(cfg, s, source, clientId, scopes, cfg.settings.resourceUrl, now).0)
    ensures Sha256(AccessOf(cfg, NewIssue(s, source, clientId, scopes, now))) !in s.artifacts
    ensures Sha256(RefreshTokenOf(NewIssue(s, source, clientId, scopes, now))) !in s.artifacts
  {
    hide RowOk;
    var issue := NewIssue(s, source, clientId, scopes, now);
    var t := IssuePair(cfg, s, source, clientId, scopes, cfg.settings.resourceUrl, now).0;
    NewPairIsFresh(cfg, s, issue);
    forall d | d in t.artifacts
      ensures RowOk(cfg, t, d)
    {
      IssueKeepsRows(cfg, s, issue, t, d);
    }
    forall i | 0 <= i < |t.issues|
      ensures IssueOk(cfg, t, t.issues[i])
    {
      if i < |s.issues| {
        assert IssueOk(cfg, s, s.issues[i]);
      }
    }
    forall i, j | 0 <= i < j < |t.issues|
      ensures t.issues[i].serial + 2 <= t.issues[j].serial
    {
      assert IssueOk(cfg, s, s.issues[i]);
    }
  }

  function NewIssue(s: AuthState, source: Source, clientId: string, scopes: set<string>, now: real): Issue {
    Issue(source, s.supply, clientId, scopes, Truncate(now))
  }

  lemma ConsumeGrowsFlags(table: Artifacts, token: Token, kind: Kind, now: real)
    requires kind != Kind.AccessToken
    ensures FlagsGrow(table, ConsumeArtifact(table, token, kind, now))
  {
  }

  lemma RevokeGrowsFlags(table: Artifacts, token: Token)
    ensures FlagsGrow(table, RevokeArtifact(table, token))
  {
  }

  // ---------- Lineage ----------

  /** What the pairs of one rotation chain go back to: a code, or the bootstrap issue itself. */
  datatype Root = RootCode(code: Token) | RootIssue(index: nat)

  /** The newest pair below `end` whose refresh token this is. */
  function FindRefresh(issues: seq<Issue>, token: Token, end: nat): (found: Option<nat>)
    requires end <= |issues|
    ensures found.Some? ==> found.value < end && RefreshTokenOf(issues[found.value]) == token
    ensures found.None? ==> forall i :: 0 <= i < end ==> RefreshTokenOf(issues[i]) != token
  {
    if end == 0 then None
    else if RefreshTokenOf(issues[end - 1]) == token then Some(end - 1)
    else FindRefresh(issues, token, end - 1)
  }

  function RootOf(issues: seq<Issue>, i: nat): Root
    requires i < |issues|
  {
    match issues[i].source
    case FromCode(code) => RootCode(code)
    case Bootstrap => RootIssue(i)
    case FromRefresh(token) =>
      var parent := FindRefresh(issues, token, i);
      if parent.Some? then RootOf(issues, parent.value) else RootIssue(i)
  }

  /** One unfolding of the root. */
  lemma RootByCase(issues: seq<Issue>, i: nat)
    requires i < |issues|
    ensures issues[i].source.FromCode? ==> RootOf(issues, i) == RootCode(issues[i].source.code)
    ensures issues[i].source.Bootstrap? ==> RootOf(issues, i) == RootIssue(i)
    ensures issues[i].source.FromRefresh? && FindRefresh(issues, issues[i].source.token, i).Some? ==>
              RootOf(issues, i) == RootOf(issues, FindRefresh(issues, issues[i].source.token, i).value)
  {
  }

  lemma {:induction false} FindIsStable(issues: seq<Issue>, x: Issue, token: Token, end: nat)
    requires end <= |issues|
    ensures FindRefresh(issues + [x], token, end) == FindRefresh(issues, token, end)
  {
    if end > 0 {
      FindIsStable(issues, x, token, end - 1);
    }
  }

  lemma {:induction false} RootIsStable(issues: seq<Issue>, x: Issue, i: nat)
    requires i < |issues|
    ensures RootOf(issues + [x], i) == RootOf(issues, i)
  {
    if issues[i].source.FromRefresh? {
      FindIsStable(issues, x, issues[i].source.token, i);
      var parent := FindRefresh(issues, issues[i].source.token, i);
      if parent.Some? {
        RootIsStable(issues, x, parent.value);
      }
    }
  }

  ghost predicate Consumed(table: Artifacts, token: Token) {
    Sha256(token) in table && table[Sha256(token)].consumed
  }

  /** No pair strictly between `p` and `end` has this root. */
  ghost predicate NoneBetween(issues: seq<Issue>, root: Root, p: int, end: int)
    requires end <= |issues|
  {
    forall i :: 0 <= i && p < i < end ==> RootOf(issues, i) != root
  }

  /**
    A pair's source is spent. A code was spent on it alone, with its own scopes; a refresh token was the
    newest of its chain, and passed on no more than its scopes to the same client.
   */
  ghost predicate SourceOk(s: AuthState, j: nat)
    requires j < |s.issues|
  {
    var issue := s.issues[j];
    match issue.source
    case Bootstrap => true
    case FromCode(code) =>
      && Consumed(s.artifacts, code)
      && CodeRowFor(s.artifacts[Sha256(code)], issue)
      && NoneBetween(s.issues, RootCode(code), -1, j)
    case FromRefresh(token) =>
      var parent := FindRefresh(s.issues, token, j);
      && parent.Some?
      && PassesOn(s.issues[parent.value], issue)
      && NoneBetween(s.issues, RootOf(s.issues, parent.value), parent.value, j)
  }

  ghost predicate CodeRowFor(row: Artifact, issue: Issue) {
    row.payload.CodePayload? && row.clientId == issue.clientId && row.payload.scopes == issue.scopes
  }

  ghost predicate PassesOn(parent: Issue, child: Issue) {
    child.clientId == parent.clientId && child.scopes <= parent.scopes
  }

  /** Of the pairs with one root, all but the newest have a spent refresh token. */
  ghost predicate Rotated(s: AuthState) {
    forall i, j :: 0 <= i < j < |s.issues| && RootOf(s.issues, i) == RootOf(s.issues, j) ==>
      Consumed(s.artifacts, RefreshTokenOf(s.issues[i]))
  }

  ghost predicate LineageInv(s: AuthState) {
    && (forall j :: 0 <= j < |s.issues| ==> SourceOk(s, j))
    && Rotated(s)
  }

  ghost predicate Inv(cfg: Config, s: AuthState) {
    TableInv(cfg, s) && LineageInv(s)
  }

  lemma {:induction false} RootCodeIsConsumed(s: AuthState, i: nat)
    requires LineageInv(s) && i < |s.issues| && RootOf(s.issues, i).RootCode?
    ensures Consumed(s.artifacts, RootOf(s.issues, i).code)
  {
    assert SourceOk(s, i);
    if s.issues[i].source.FromRefresh? {
      RootCodeIsConsumed(s, FindRefresh(s.issues, s.issues[i].source.token, i).value);
    }
  }

  lemma {:induction false} RootIssueIsEarliest(issues: seq<Issue>, i: nat)
    requires i < |issues| && RootOf(issues, i).RootIssue?
    ensures RootOf(issues, i).index <= i
  {
    if issues[i].source.FromRefresh? {
      var parent := FindRefresh(issues, issues[i].source.token, i);
      if parent.Some? {
        RootIssueIsEarliest(issues, parent.value);
      }
    }
  }

  /** Steps that issue nothing keep lineage as long as old rows only gain flags. */
  lemma QuietStepKeepsLineage(s: AuthState, t: AuthState)
    requires LineageInv(s) && t.issues == s.issues
    requires forall d :: d in s.artifacts ==> d in t.artifacts && RowGrows(s.artifacts[d], t.artifacts[d])
    ensures LineageInv(t)
  {
    hide RootOf;
    forall j | 0 <= j < |t.issues|
      ensures SourceOk(t, j)
    {
      assert SourceOk(s, j);
    }
  }

  /** What must hold when a pair is issued from a source. */
  ghost predicate Ready(s: AuthState, issue: Issue) {
    match issue.source
    case Bootstrap => true
    case FromCode(code) =>
      && Consumed(s.artifacts, code)
      && CodeRowFor(s.artifacts[Sha256(code)], issue)
      && NoneBetween(s.issues, RootCode(code), -1, |s.issues|)
    case FromRefresh(token) =>
      var parent := FindRefresh(s.issues, token, |s.issues|);
      && Consumed(s.artifacts, token)
      && parent.Some?
      && PassesOn(s.issues[parent.value], issue)
      && NoneBetween(s.issues, RootOf(s.issues, parent.value), parent.value, |s.issues|)
  }

  lemma NoneBetweenIsStable(issues: seq<Issue>, x: Issue, root: Root, p: int, end: int)
    requires end <= |issues| && NoneBetween(issues, root, p, end)
    ensures NoneBetween(issues + [x], root, p, end)
  {
    forall i | 0 <= i && p < i < end
      ensures RootOf(issues + [x], i) != root
    {
      RootIsStable(issues, x, i);
    }
  }

  lemma SourceStaysOk(s: AuthState, t: AuthState, x: Issue, j: nat)
    requires j < |s.issues| && SourceOk(s, j) && t.issues == s.issues + [x]
    requires forall d :: d in s.artifacts ==> d in t.artifacts && t.artifacts[d] == s.artifacts[d]
    ensures SourceOk(t, j)
  {
    hide RootOf, NoneBetween;
    match s.issues[j].source
    case Bootstrap =>
    case FromCode(code) =>
      NoneBetweenIsStable(s.issues, x, RootCode(code), -1, j);
    case FromRefresh(token) =>
      FindIsStable(s.issues, x, token, j);
      var p := FindRefresh(s.issues, token, j).value;
      RootIsStable(s.issues, x, p);
      NoneBetweenIsStable(s.issues, x, RootOf(s.issues, p), p, j);
  }

  lemma NewSourceIsOk(s: AuthState, t: AuthState, x: Issue)
    requires Ready(s, x) && t.issues == s.issues + [x]
    requires forall d :: d in s.artifacts ==> d in t.artifacts && t.artifacts[d] == s.artifacts[d]
    ensures SourceOk(t, |s.issues|)
  {
    hide RootOf, NoneBetween;
    match x.source
    case Bootstrap =>
    case FromCode(code) =>
      NoneBetweenIsStable(s.issues, x, RootCode(code), -1, |s.issues|);
    case FromRefresh(token) =>
      FindIsStable(s.issues, x, token, |s.issues|);
      var p := FindRefresh(s.issues, token, |s.issues|).value;
      RootIsStable(s.issues, x, p);
      NoneBetweenIsStable(s.issues, x, RootOf(s.issues, p), p, |s.issues|);
  }

  /** Every older pair of the new pair's chain is spent. */
  lemma NewPairFindsChainSpent(s: AuthState, x: Issue, i: nat)
    requires LineageInv(s) && Ready(s, x) && i < |s.issues|
    requires RootOf(s.issues + [x], i) == RootOf(s.issues + [x], |s.issues|)
    ensures Consumed(s.artifacts, RefreshTokenOf(s.issues[i]))
  {
    hide RootOf, FindRefresh;
    RootIsStable(s.issues, x, i);
    RootByCase(s.issues + [x], |s.issues|);
    match x.source
    case Bootstrap =>
      RootIssueIsEarliest(s.issues, i);
    case FromCode(code) =>
    case FromRefresh(token) =>
      FindIsStable(s.issues, x, token, |s.issues|);
      var p := FindRefresh(s.issues, token, |s.issues|).value;
      RootIsStable(s.issues, x, p);
      assert RootOf(s.issues, i) == RootOf(s.issues, p);
      assert i <= p;
  }

  lemma IssueKeepsLineage(s: AuthState, t: AuthState, x: Issue)
    requires LineageInv(s) && Ready(s, x) && t.issues == s.issues + [x]
    requires forall d :: d in s.artifacts ==> d in t.artifacts && t.artifacts[d] == s.artifacts[d]
    ensures LineageInv(t)
  {
    hide RootOf, NoneBetween, Ready;
    var n := |s.issues|;
    forall j | 0 <= j < |t.issues|
      ensures SourceOk(t, j)
    {
      if j < n {
        SourceStaysOk(s, t, x, j);
      } else {
        NewSourceIsOk(s, t, x);
      }
    }
    forall i, j | 0 <= i < j < |t.issues| && RootOf(t.issues, i) == RootOf(t.issues, j)
      ensures Consumed(t.artifacts, RefreshTokenOf(t.issues[i]))
    {
      if j < n {
        RootIsStable(s.issues, x, i);
        RootIsStable(s.issues, x, j);
      } else {
        NewPairFindsChainSpent(s, x, i);
      }
    }
  }

  // ---------- Every operation keeps the invariant ----------

  lemma FlagsKeepInv(cfg: Config, s: AuthState, after: Artifacts)
    requires Inv(cfg, s) && FlagsGrow(s.artifacts, after)
    ensures Inv(cfg, s.(artifacts := after))
  {
    FlagsKeepTable(cfg, s, after);
    QuietStepKeepsLineage(s, s.(artifacts := after));
  }

  lemma IssueKeepsInv(cfg: Config, s: AuthState, source: Source, clientId: string, scopes: set<string>, now: real)
    requires Inv(cfg, s) && MayHold(cfg, clientId, scopes) && Ready(s, NewIssue(s, source, clientId, scopes, now))
    ensures Inv(cfg, IssuePair(cfg, s, source, clientId, scopes, cfg.settings.resourceUrl, now).0)
  {
    hide TableInv, LineageInv, Ready;
    IssueKeepsTable(cfg, s, source, clientId, scopes, now);
    var t := IssuePair(cfg, s, source, clientId, scopes, cfg.settings.resourceUrl, now).0;
    IssueKeepsLineage(s, t, NewIssue(s, source, clientId, scopes, now));
  }

  /** A code that still loads has never produced a pair, so spending it readies one. */
  lemma LiveCodeIsReady(cfg: Config, s: AuthState, code: Token, readAt: real, issueAt: real)
    requires Inv(cfg, s) && GetArtifact(s.artifacts, code, AuthorizationCode, readAt).Some?
    ensures var row := s.artifacts[Sha256(code)];
            var spent := s.(artifacts := ConsumeArtifact(s.artifacts, code, AuthorizationCode, readAt));
            && MayHold(cfg, row.clientId, row.payload.scopes)
            && row.payload.CodePayload? && row.payload.resource == cfg.settings.resourceUrl
            && Ready(spent, NewIssue(spent, FromCode(code), row.clientId, row.payload.scopes, issueAt))
  {
    assert RowOk(cfg, s, Sha256(code));
    forall i | 0 <= i < |s.issues|
      ensures RootOf(s.issues, i) != RootCode(code)
    {
      if RootOf(s.issues, i) == RootCode(code) {
        RootCodeIsConsumed(s, i);
      }
    }
  }

  /** A refresh row is the one its pair put there. */
  lemma RefreshRowWasIssued(cfg: Config, s: AuthState, token: Token) returns (p: nat)
    requires TableInv(cfg, s) && Sha256(token) in s.artifacts && s.artifacts[Sha256(token)].payload.RefreshPayload?
    ensures FindRefresh(s.issues, token, |s.issues|) == Some(p)
    ensures p < |s.issues| && RefreshTokenOf(s.issues[p]) == token
    ensures var row := s.artifacts[Sha256(token)];
            row == RefreshRow(cfg, s.issues[p], row.consumed, row.revoked)
  {
    assert RowOk(cfg, s, Sha256(token));
    p := FindRefresh(s.issues, token, |s.issues|).value;
    assert IssueOk(cfg, s, s.issues[p]);
    hide TableInv, FindRefresh;
  }

  lemma LiveRefreshIsNewest(s: AuthState, p: nat)
    requires LineageInv(s) && p < |s.issues| && !Consumed(s.artifacts, RefreshTokenOf(s.issues[p]))
    ensures NoneBetween(s.issues, RootOf(s.issues, p), p, |s.issues|)
  {
    hide RootOf, FindRefresh, SourceOk, Consumed;
  }

  lemma NewestIsReady(s: AuthState, issue: Issue, p: nat)
    requires issue.source.FromRefresh? && Consumed(s.artifacts, issue.source.token)
    requires FindRefresh(s.issues, issue.source.token, |s.issues|) == Some(p) && p < |s.issues|
    requires PassesOn(s.issues[p], issue) && NoneBetween(s.issues, RootOf(s.issues, p), p, |s.issues|)
    ensures Ready(s, issue)
  {
    hide RootOf, FindRefresh, NoneBetween;
  }

  /** A refresh token that still loads is the newest of its chain, so spending it readies its successor. */
  lemma LiveRefreshIsReady(cfg: Config, s: AuthState, token: Token, scopes: set<string>, readAt: real, issueAt: real)
    requires Inv(cfg, s) && GetArtifact(s.artifacts, token, Kind.RefreshToken, readAt).Some?
    requires scopes <= s.artifacts[Sha256(token)].payload.scopes
    ensures var row := s.artifacts[Sha256(token)];
            var spent := s.(artifacts := ConsumeArtifact(s.artifacts, token, Kind.RefreshToken, readAt));
            Ready(spent, NewIssue(spent, FromRefresh(token), row.clientId, scopes, issueAt))
  {
    InvTable(cfg, s);
    hide Inv, TableInv, LineageInv, RootOf, FindRefresh, NoneBetween, Ready;
    var p := RefreshRowWasIssued(cfg, s, token);
    LiveRefreshIsNewest(s, p);
    var spent := s.(artifacts := ConsumeArtifact(s.artifacts, token, Kind.RefreshToken, readAt));
    NewestIsReady(spent, NewIssue(spent, FromRefresh(token), s.artifacts[Sha256(token)].clientId, scopes, issueAt), p);
  }

  lemma ConsumeKeepsInv(cfg: Config, s: AuthState, token: Token, kind: Kind, now: real)
    requires Inv(cfg, s) && kind != Kind.AccessToken
    ensures Inv(cfg, s.(artifacts := ConsumeArtifact(s.artifacts, token, kind, now)))
  {
    hide Inv, FlagsGrow;
    ConsumeGrowsFlags(s.artifacts, token, kind, now);
    FlagsKeepInv(cfg, s, ConsumeArtifact(s.artifacts, token, kind, now));
  }

  lemma AuthorizeKeepsInv(cfg: Config, s: AuthState, client: ClientInfo, params: AuthorizationParams, now: real)
    requires Inv(cfg, s)
    ensures Inv(cfg, Authorize(cfg, s, client, params, now).0)
  {
    hide TableInv, LineageInv;
    var t := Authorize(cfg, s, client, params, now).0;
    if t != s {
      var row := t.artifacts[Sha256(Opaque(NameText(s.supply)))];
      PutCodeKeepsTable(cfg, s, row);
      QuietStepKeepsLineage(s, t);
    }
  }

  lemma ExchangeCodeKeepsInv(cfg: Config, s: AuthState, clientId: string, code: Token, readAt: real, issueAt: real)
    requires Inv(cfg, s)
    ensures Inv(cfg, ExchangeCode(cfg, s, clientId, code, readAt, issueAt).0)
  {
    hide Inv, Ready, IssuePair;
    ConsumeKeepsInv(cfg, s, code, AuthorizationCode, readAt);
    var spent := s.(artifacts := ConsumeArtifact(s.artifacts, code, AuthorizationCode, readAt));
    var found := GetArtifact(s.artifacts, code, AuthorizationCode, readAt);
    if found.Some? && found.value.clientId == clientId {
      LiveCodeIsReady(cfg, s, code, readAt, issueAt);
      IssueKeepsInv(cfg, spent, FromCode(code), clientId, found.value.payload.scopes, issueAt);
    }
  }

  lemma ExchangeRefreshKeepsInv(cfg: Config, s: AuthState, clientId: string, token: Token, scopes: seq<string>,
                                readAt: real, issueAt: real)
    requires Inv(cfg, s)
    ensures Inv(cfg, ExchangeRefresh(cfg, s, clientId, token, scopes, readAt, issueAt).0)
  {
    hide Inv, Ready, IssuePair;
    ConsumeKeepsInv(cfg, s, token, Kind.RefreshToken, readAt);
    var spent := s.(artifacts := ConsumeArtifact(s.artifacts, token, Kind.RefreshToken, readAt));
    var found := GetArtifact(s.artifacts, token, Kind.RefreshToken, readAt);
    if found.Some? && found.value.clientId == clientId {
      var requested := OrElse(Some(scopes), found.value.payload.scopes);
      if requested <= found.value.payload.scopes && cfg.policy.AuthorizeScopes(clientId, requested).Success? {
        LiveRefreshIsReady(cfg, s, token, requested, readAt, issueAt);
        IssueKeepsInv(cfg, spent, FromRefresh(token), clientId, requested, issueAt);
      }
    }
  }

  lemma StepKeepsInv(cfg: Config, s: AuthState, op: Op)
    requires Inv(cfg, s)
    ensures Inv(cfg, Step(cfg, s, op))
  {
    hide Inv, FlagsGrow, Ready, IssuePair, Authorize, ExchangeCode, ExchangeRefresh;
    match op
    case OpAuthorize(client, params, now) =>
      AuthorizeKeepsInv(cfg, s, client, params, now);
    case OpExchangeCode(clientId, code, readAt, issueAt) =>
      ExchangeCodeKeepsInv(cfg, s, clientId, code, readAt, issueAt);
    case OpExchangeRefresh(clientId, token, scopes, readAt, issueAt) =>
      ExchangeRefreshKeepsInv(cfg, s, clientId, token, scopes, readAt, issueAt);
    case OpRevoke(token) =>
      RevokeGrowsFlags(s.artifacts, token);
      FlagsKeepInv(cfg, s, RevokeArtifact(s.artifacts, token));
    case OpIssue(clientId, secret, requested, now) =>
      if clientId in cfg.policy.clients {
        var granted := OrElse(requested, cfg.policy.clients[clientId].scopes);
        if MayHold(cfg, clientId, granted) {
          BootstrapIsReady(s, NewIssue(s, Bootstrap, clientId, granted, now));
          IssueKeepsInv(cfg, s, Bootstrap, clientId, granted, now);
        }
      }
  }

  lemma BootstrapIsReady(s: AuthState, issue: Issue)
    requires issue.source == Bootstrap
    ensures Ready(s, issue)
  {
  }

  /** Every reachable state of the provider satisfies the invariant. */
  lemma {:induction false} RunKeepsInv(cfg: Config, s: AuthState, ops: seq<Op>)
    requires Inv(cfg, s)
    ensures Inv(cfg, Run(cfg, s, ops))
  {
    hide Inv;
    if ops != [] {
      RunKeepsInv(cfg, s, ops[..|ops| - 1]);
      StepKeepsInv(cfg, Run(cfg, s, ops[..|ops| - 1]), ops[|ops| - 1]);
    }
  }

  // ---------- Lineage of a chain ----------

  /** The pairs with this root, oldest first. */
  function Lineage(issues: seq<Issue>, root: Root, end: nat): seq<nat>
    requires end <= |issues|
  {
    if end == 0 then []
    else Lineage(issues, root, end - 1) + if RootOf(issues, end - 1) == root then [end - 1] else []
  }

  ghost predicate Ascends(chain: seq<nat>, end: nat) {
    && (forall k :: 0 <= k < |chain| ==> chain[k] < end)
    && (forall j, k :: 0 <= j < k < |chain| ==> chain[j] < chain[k])
  }

  /** `chain` holds exactly the pairs below `end` with this root. */
  ghost predicate ListsRoot(issues: seq<Issue>, root: Root, chain: seq<nat>, end: nat)
    requires end <= |issues| && Ascends(chain, end)
  {
    && (forall k :: 0 <= k < |chain| ==> RootOf(issues, chain[k]) == root)
    && (forall i :: 0 <= i < end && RootOf(issues, i) == root ==> i in chain)
  }

  lemma NoMembers(issues: seq<Issue>, root: Root)
    ensures Ascends([], 0) && ListsRoot(issues, root, [], 0)
  {
    hide RootOf;
  }

  lemma AppendMember(issues: seq<Issue>, root: Root, front: seq<nat>, end: nat)
    requires end < |issues| && Ascends(front, end) && ListsRoot(issues, root, front, end)
    ensures var chain := front + if RootOf(issues, end) == root then [end] else [];
            Ascends(chain, end + 1) && ListsRoot(issues, root, chain, end + 1)
  {
    hide RootOf;
    var chain := front + if RootOf(issues, end) == root then [end] else [];
    forall i | 0 <= i < end + 1 && RootOf(issues, i) == root
      ensures i in chain
    {
      if i == end {
        assert chain[|front|] == end;
      } else {
        assert i in front;
      }
    }
  }

  lemma {:induction false} LineageHoldsTheRoot(issues: seq<Issue>, root: Root, end: nat)
    requires end <= |issues|
    ensures var chain := Lineage(issues, root, end);
            Ascends(chain, end) && ListsRoot(issues, root, chain, end)
  {
    hide RootOf, FindRefresh, Ascends, ListsRoot;
    if end == 0 {
      NoMembers(issues, root);
    } else {
      LineageHoldsTheRoot(issues, root, end - 1);
      AppendMember(issues, root, Lineage(issues, root, end - 1), end - 1);
    }
  }

  /** Of two pairs with one root and none in between, the later was issued for the earlier's refresh token. */
  lemma NextWithSameRoot(s: AuthState, i: nat, j: nat)
    requires LineageInv(s) && i < j < |s.issues| && RootOf(s.issues, i) == RootOf(s.issues, j)
    requires NoneBetween(s.issues, RootOf(s.issues, i), i, j)
    ensures s.issues[j].source == FromRefresh(RefreshTokenOf(s.issues[i])) && PassesOn(s.issues[i], s.issues[j])
    ensures Consumed(s.artifacts, RefreshTokenOf(s.issues[i]))
  {
    RootByCase(s.issues, j);
    assert SourceOk(s, j);
    hide RootOf, FindRefresh, LineageInv;
    match s.issues[j].source
    case Bootstrap =>
      RootIssueIsEarliest(s.issues, i);
    case FromCode(code) =>
    case FromRefresh(token) =>
      assert FindRefresh(s.issues, token, j).value == i;
  }

  lemma NotAMember(chain: seq<nat>, end: nat, k: nat, m: nat)
    requires Ascends(chain, end) && 0 < k < |chain| && chain[k - 1] < m < chain[k]
    ensures m !in chain
  {
    assert forall at :: 0 <= at < |chain| ==> chain[at] <= chain[k - 1] || chain[k] <= chain[at];
  }

  lemma NoneBetweenMembers(issues: seq<Issue>, root: Root, k: nat)
    requires 0 < k < |Lineage(issues, root, |issues|)|
    ensures var chain := Lineage(issues, root, |issues|);
            && Ascends(chain, |issues|)
            && RootOf(issues, chain[k - 1]) == RootOf(issues, chain[k]) == root
            && NoneBetween(issues, root, chain[k - 1], chain[k])
  {
    LineageHoldsTheRoot(issues, root, |issues|);
    hide Lineage, RootOf;
    var chain := Lineage(issues, root, |issues|);
    forall m | 0 <= m && chain[k - 1] < m < chain[k]
      ensures RootOf(issues, m) != root
    {
      NotAMember(chain, |issues|, k, m);
    }
  }

  /** The parent of a later member of a chain is the member right before it. */
  lemma ParentIsPredecessor(s: AuthState, root: Root, k: nat)
    requires LineageInv(s)
    requires 0 < k < |Lineage(s.issues, root, |s.issues|)|
    ensures var chain := Lineage(s.issues, root, |s.issues|);
            && Ascends(chain, |s.issues|)
            && s.issues[chain[k]].source == FromRefresh(RefreshTokenOf(s.issues[chain[k - 1]]))
            && PassesOn(s.issues[chain[k - 1]], s.issues[chain[k]])
            && Consumed(s.artifacts, RefreshTokenOf(s.issues[chain[k - 1]]))
  {
    NoneBetweenMembers(s.issues, root, k);
    hide Lineage, RootOf, LineageInv, NoneBetween;
    var chain := Lineage(s.issues, root, |s.issues|);
    NextWithSameRoot(s, chain[k - 1], chain[k]);
  }

  /** The oldest member comes from the root itself. */
  lemma ChainStartsAtRoot(s: AuthState, root: Root)
    requires LineageInv(s)
    requires Lineage(s.issues, root, |s.issues|) != []
    ensures var chain := Lineage(s.issues, root, |s.issues|);
            && Ascends(chain, |s.issues|)
            && s.issues[chain[0]].source == (if root.RootCode? then FromCode(root.code) else Bootstrap)
            && (root.RootIssue? ==> chain[0] == root.index)
  {
    var chain := Lineage(s.issues, root, |s.issues|);
    LineageHoldsTheRoot(s.issues, root, |s.issues|);
    hide Lineage, RootOf, FindRefresh;
    var i := chain[0];
    RootByCase(s.issues, i);
    assert SourceOk(s, i);
  }

  ghost predicate DeadForGood(table: Artifacts, token: Token, kind: Kind) {
    forall now: real :: GetArtifact(table, token, kind, now).None?
  }

  /** From one member of a chain to the next: issued for its refresh token, which is spent, and no wider. */
  ghost predicate Rotates(s: AuthState, i: nat, j: nat)
    requires i < |s.issues| && j < |s.issues|
  {
    && s.issues[j].source == FromRefresh(RefreshTokenOf(s.issues[i]))
    && PassesOn(s.issues[i], s.issues[j])
    && DeadForGood(s.artifacts, RefreshTokenOf(s.issues[i]), Kind.RefreshToken)
  }

  /** A rotation chain from its root: in order, linked member to member, and within policy throughout. */
  ghost predicate IsRotationChain(cfg: Config, s: AuthState, root: Root, chain: seq<nat>) {
    && Ascends(chain, |s.issues|)
    && (forall k :: 0 < k < |chain| ==> FollowsInChain(s, chain, k))
    && (forall k :: 0 <= k < |chain| ==> MayHold(cfg, s.issues[chain[k]].clientId, s.issues[chain[k]].scopes))
    && (chain != [] ==> s.issues[chain[0]].source == (if root.RootCode? then FromCode(root.code) else Bootstrap))
  }

  ghost predicate FollowsInChain(s: AuthState, chain: seq<nat>, k: nat)
    requires Ascends(chain, |s.issues|) && 0 < k < |chain|
  {
    Rotates(s, chain[k - 1], chain[k])
  }

  lemma MemberFollows(s: AuthState, root: Root, k: nat)
    requires LineageInv(s) && 0 < k < |Lineage(s.issues, root, |s.issues|)|
    requires Ascends(Lineage(s.issues, root, |s.issues|), |s.issues|)
    ensures FollowsInChain(s, Lineage(s.issues, root, |s.issues|), k)
  {
    hide Lineage, LineageInv, GetArtifact;
    ParentIsPredecessor(s, root, k);
    var chain := Lineage(s.issues, root, |s.issues|);
    ConsumedIsDead(s.artifacts, RefreshTokenOf(s.issues[chain[k - 1]]), Kind.RefreshToken);
  }

  lemma IssueMayHold(cfg: Config, s: AuthState, i: nat)
    requires TableInv(cfg, s) && i < |s.issues|
    ensures MayHold(cfg, s.issues[i].clientId, s.issues[i].scopes)
  {
    assert IssueOk(cfg, s, s.issues[i]);
  }

  lemma MembersFollow(s: AuthState, root: Root)
    requires LineageInv(s)
    ensures var chain := Lineage(s.issues, root, |s.issues|);
            Ascends(chain, |s.issues|) && forall k :: 0 < k < |chain| ==> FollowsInChain(s, chain, k)
  {
    LineageHoldsTheRoot(s.issues, root, |s.issues|);
    var chain := Lineage(s.issues, root, |s.issues|);
    hide *;
    forall k | 0 < k < |chain|
      ensures FollowsInChain(s, chain, k)
    {
      MemberFollows(s, root, k);
    }
  }

  lemma MembersMayHold(cfg: Config, s: AuthState, chain: seq<nat>)
    requires TableInv(cfg, s) && Ascends(chain, |s.issues|)
    ensures forall k :: 0 <= k < |chain| ==> MayHold(cfg, s.issues[chain[k]].clientId, s.issues[chain[k]].scopes)
  {
    hide TableInv, MayHold;
    forall k | 0 <= k < |chain|
      ensures MayHold(cfg, s.issues[chain[k]].clientId, s.issues[chain[k]].scopes)
    {
      IssueMayHold(cfg, s, chain[k]);
    }
  }

  lemma ChainOfInvariant(cfg: Config, s: AuthState, root: Root)
    requires Inv(cfg, s)
    ensures IsRotationChain(cfg, s, root, Lineage(s.issues, root, |s.issues|))
  {
    InvTable(cfg, s);
    hide Inv, Lineage, LineageInv, TableInv, FollowsInChain, MayHold, Ascends;
    var chain := Lineage(s.issues, root, |s.issues|);
    MembersFollow(s, root);
    MembersMayHold(cfg, s, chain);
    if chain != [] {
      ChainStartsAtRoot(s, root);
    }
  }

  lemma ConsumedIsDead(table: Artifacts, token: Token, kind: Kind)
    requires Consumed(table, token)
    ensures DeadForGood(table, token, kind)
  {
  }

  /**
    In every reachable state the pairs of one root form a single rotation chain: each member was issued
    for its predecessor's refresh token, to the same client and with no wider scopes; every refresh token
    but the newest is dead for good; and while a code still loads it has no pairs at all.
   */
  lemma LineageIsALinearChain(cfg: Config, ops: seq<Op>, root: Root)
    ensures var s := Run(cfg, NOTHING_ISSUED, ops);
            var chain := Lineage(s.issues, root, |s.issues|);
            && IsRotationChain(cfg, s, root, chain)
            && (root.RootCode? && !DeadForGood(s.artifacts, root.code, AuthorizationCode) ==> chain == [])
  {
    var s := Run(cfg, NOTHING_ISSUED, ops);
    RunKeepsInv(cfg, NOTHING_ISSUED, ops);
    ChainOfInvariant(cfg, s, root);
    LineageHoldsTheRoot(s.issues, root, |s.issues|);
    hide Lineage, RootOf, TableInv, LineageInv, IsRotationChain, GetArtifact;
    var chain := Lineage(s.issues, root, |s.issues|);
    if chain != [] && root.RootCode? {
      RootCodeIsConsumed(s, chain[0]);
      ConsumedIsDead(s.artifacts, root.code, AuthorizationCode);
    }
  }

  /** Two pairs never share a code or a refresh token as their source. */
  lemma SourceYieldsOnePair(cfg: Config, ops: seq<Op>, i: nat, j: nat)
    requires i < j < |Run(cfg, NOTHING_ISSUED, ops).issues|
    ensures var s := Run(cfg, NOTHING_ISSUED, ops);
            s.issues[i].source == s.issues[j].source ==> s.issues[i].source == Bootstrap
  {
    RunKeepsInv(cfg, NOTHING_ISSUED, ops);
    SourcesDiffer(cfg, Run(cfg, NOTHING_ISSUED, ops), i, j);
  }

  lemma SourcesDiffer(cfg: Config, s: AuthState, i: nat, j: nat)
    requires Inv(cfg, s) && i < j < |s.issues|
    ensures s.issues[i].source == s.issues[j].source ==> s.issues[i].source == Bootstrap
  {
    assert SourceOk(s, i) && SourceOk(s, j);
    hide LineageInv, SourceOk, RowOk, IssueOk;
    var source := s.issues[i].source;
    if source == s.issues[j].source && source.FromRefresh? {
      SpentOnTheSameParent(cfg, s, i, j);
    } else if source == s.issues[j].source && source.FromCode? {
      SpentOnTheSameCode(s, i, j);
    }
  }

  lemma SpentOnTheSameCode(s: AuthState, i: nat, j: nat)
    requires i < j < |s.issues| && SourceOk(s, j) && s.issues[j].source.FromCode?
    ensures s.issues[i].source != s.issues[j].source
  {
    RootByCase(s.issues, i);
    hide RootOf;
    assert RootOf(s.issues, i) != RootCode(s.issues[j].source.code);
  }

  lemma SpentOnTheSameParent(cfg: Config, s: AuthState, i: nat, j: nat)
    requires TableInv(cfg, s) && i < j < |s.issues| && SourceOk(s, i) && SourceOk(s, j)
    requires s.issues[j].source.FromRefresh?
    ensures s.issues[i].source != s.issues[j].source
  {
    hide RootOf, FindRefresh, TableInv;
    RootByCase(s.issues, i);
    if s.issues[i].source == s.issues[j].source {
      var token := s.issues[i].source.token;
      SameRefreshSameIssue(cfg, s, FindRefresh(s.issues, token, i).value, FindRefresh(s.issues, token, j).value);
    }
  }

  lemma SameRefreshSameIssue(cfg: Config, s: AuthState, p: nat, q: nat)
    requires TableInv(cfg, s) && p < |s.issues| && q < |s.issues|
    requires RefreshTokenOf(s.issues[p]) == RefreshTokenOf(s.issues[q])
    ensures p == q
  {
    assert |NameText(s.issues[p].serial + 1)| == |NameText(s.issues[q].serial + 1)|;
  }

  // ---------- Access tokens ----------

  ghost predicate Revoked(table: Artifacts, token: Token) {
    Sha256(token) in table && table[Sha256(token)].revoked
  }

  /** The caller described by an issued access token. */
  function AccessFor(cfg: Config, issue: Issue): Access {
    var claims := ClaimsOf(cfg, issue, cfg.settings.resourceUrl);
    Access(AccessOf(cfg, issue), issue.clientId, issue.scopes, claims.expires, claims)
  }

  /** Issued as pair `i`, not yet revoked, and presented within its lifetime. */
  ghost predicate Presentable(cfg: Config, s: AuthState, token: Token, decodeAt: real, readAt: real, i: nat)
    requires i < |s.issues|
  {
    var expires := (s.issues[i].issuedAt + cfg.settings.accessTtl) as real;
    && AccessOf(cfg, s.issues[i]) == token
    && s.issues[i].issuedAt as real <= decodeAt < expires
    && readAt < expires
    && !Revoked(s.artifacts, token)
  }

  lemma IssuedRowIsThere(cfg: Config, s: AuthState, i: nat)
    requires TableInv(cfg, s) && i < |s.issues|
    ensures var d := Sha256(AccessOf(cfg, s.issues[i]));
            d in s.artifacts && s.artifacts[d] == AccessRow(cfg, s.issues[i], s.artifacts[d].revoked)
  {
    assert IssueOk(cfg, s, s.issues[i]);
    hide TableInv, AccessOf, AccessRow, RefreshRow, RefreshTokenOf;
  }

  lemma PresentableIsAccepted(cfg: Config, s: AuthState, token: Token, decodeAt: real, readAt: real, i: nat)
    requires TableInv(cfg, s) && i < |s.issues| && Presentable(cfg, s, token, decodeAt, readAt, i)
    ensures LoadAccess(cfg.settings, s.artifacts, token, decodeAt, readAt) == Some(AccessFor(cfg, s.issues[i]))
  {
    hide TableInv;
    IssuedRowIsThere(cfg, s, i);
  }

  lemma AccessRowWasIssued(cfg: Config, s: AuthState, token: Token) returns (i: nat)
    requires TableInv(cfg, s) && Sha256(token) in s.artifacts && s.artifacts[Sha256(token)].payload.AccessPayload?
    ensures i < |s.issues| && AccessOf(cfg, s.issues[i]) == token
    ensures s.artifacts[Sha256(token)] == AccessRow(cfg, s.issues[i], s.artifacts[Sha256(token)].revoked)
  {
    assert RowOk(cfg, s, Sha256(token));
    i :| 0 <= i < |s.issues| && AccessOf(cfg, s.issues[i]) == token;
    IssuedRowIsThere(cfg, s, i);
  }

  lemma AcceptedIsPresentable(cfg: Config, s: AuthState, token: Token, decodeAt: real, readAt: real) returns (i: nat)
    requires TableInv(cfg, s) && LoadAccess(cfg.settings, s.artifacts, token, decodeAt, readAt).Some?
    ensures i < |s.issues| && Presentable(cfg, s, token, decodeAt, readAt, i)
  {
    hide TableInv;
    i := AccessRowWasIssued(cfg, s, token);
  }

  /** A bearer string is accepted exactly when some issued pair makes it presentable, and means that pair. */
  lemma AccessTokenRefinesIssue(cfg: Config, s: AuthState, token: Token, decodeAt: real, readAt: real)
    requires TableInv(cfg, s)
    ensures var access := LoadAccess(cfg.settings, s.artifacts, token, decodeAt, readAt);
            && (access.Some? <==>
                  exists i :: 0 <= i < |s.issues| && Presentable(cfg, s, token, decodeAt, readAt, i))
            && (forall i :: 0 <= i < |s.issues| && Presentable(cfg, s, token, decodeAt, readAt, i) ==>
                  access == Some(AccessFor(cfg, s.issues[i])))
  {
    hide TableInv, LoadAccess, Presentable, AccessFor;
    var access := LoadAccess(cfg.settings, s.artifacts, token, decodeAt, readAt);
    forall i | 0 <= i < |s.issues| && Presentable(cfg, s, token, decodeAt, readAt, i)
      ensures access == Some(AccessFor(cfg, s.issues[i]))
    {
      PresentableIsAccepted(cfg, s, token, decodeAt, readAt, i);
    }
    if access.Some? {
      var i := AcceptedIsPresentable(cfg, s, token, decodeAt, readAt);
    }
  }

  /** What an accepted token carries stays within the policy of its client. */
  lemma AcceptedTokenIsWithinPolicy(cfg: Config, s: AuthState, token: Token, decodeAt: real, readAt: real)
    requires TableInv(cfg, s) && LoadAccess(cfg.settings, s.artifacts, token, decodeAt, readAt).Some?
    ensures var access := LoadAccess(cfg.settings, s.artifacts, token, decodeAt, readAt).value;
            && MayHold(cfg, access.clientId, access.scopes)
            && access.claims.teams == cfg.policy.clients[access.clientId].teams
  {
    AccessTokenRefinesIssue(cfg, s, token, decodeAt, readAt);
    var i :| 0 <= i < |s.issues| && Presentable(cfg, s, token, decodeAt, readAt, i);
    assert IssueOk(cfg, s, s.issues[i]);
  }

  // ---------- What a grant is good for ----------

  /** What an accepted access token says, claim by claim. */
  ghost predicate Describes(cfg: Config, access: Access, clientId: string, scopes: set<string>, issuedAt: int) {
    var claims := access.claims;
    && clientId in cfg.policy.clients
    && access.clientId == clientId == claims.clientId == claims.subject
    && access.scopes == scopes == claims.scopes
    && claims.teams == cfg.policy.clients[clientId].teams
    && claims.issuer == cfg.settings.issuerUrl && claims.audience == cfg.settings.resourceUrl
    && claims.issuedAt == issuedAt && access.expiresAt == claims.expires == issuedAt + cfg.settings.accessTtl
  }

  /** `granted` is what a request asks for: its own words, or the default when it has none. */
  ghost predicate Asked(scopes: Option<seq<string>>, default: set<string>, granted: set<string>) {
    forall word :: word in granted <==> AsksFor(scopes, default, word)
  }

  ghost predicate AsksFor(scopes: Option<seq<string>>, default: set<string>, word: string) {
    if scopes.None? || |scopes.value| == 0 then word in default else word in scopes.value
  }

  ghost predicate AsksWithin(scopes: Option<seq<string>>, default: set<string>, allowed: set<string>) {
    forall word :: AsksFor(scopes, default, word) ==> word in allowed
  }

  lemma OrElseIsAsked(scopes: Option<seq<string>>, default: set<string>)
    ensures Asked(scopes, default, OrElse(scopes, default))
    ensures forall allowed :: OrElse(scopes, default) <= allowed <==> AsksWithin(scopes, default, allowed)
  {
    assert forall word :: word in OrElse(scopes, default) <==> AsksFor(scopes, default, word);
    hide OrElse, AsksFor;
  }

  /** The pair handed out works: its access token means the granted client and scopes, its refresh token loads. */
  ghost predicate Usable(cfg: Config, table: Artifacts, pair: TokenPair, clientId: string, scopes: set<string>,
                         issuedAt: int) {
    && pair.expiresIn == cfg.settings.accessTtl
    && pair.scopes == scopes
    && (forall decodeAt: real, readAt: real ::
          var access := LoadAccess(cfg.settings, table, pair.access, decodeAt, readAt);
          var expires := (issuedAt + cfg.settings.accessTtl) as real;
          && (access.Some? <==> issuedAt as real <= decodeAt < expires && readAt < expires)
          && (access.Some? ==> Describes(cfg, access.value, clientId, scopes, issuedAt)))
    && (forall now: real ::
          var row := LoadFor(table, clientId, pair.refresh, Kind.RefreshToken, now);
          && (row.Some? <==> now < (issuedAt + cfg.settings.refreshTtl) as real)
          && (row.Some? ==> row.value.payload == RefreshPayload(scopes)))
  }

  lemma IssuedPairIsUsable(cfg: Config, s: AuthState, source: Source, clientId: string, scopes: set<string>, now: real)
    requires clientId in cfg.policy.clients
    ensures var (t, pair) := IssuePair(cfg, s, source, clientId, scopes, cfg.settings.resourceUrl, now);
            pair.Success? && Usable(cfg, t.artifacts, pair.value, clientId, scopes, Truncate(now))
  {
  }

  /** A code buys a pair exactly when it still loads for the client, and the pair carries the code's scopes. */
  lemma CodeExchangeSucceedsExactly(cfg: Config, s: AuthState, clientId: string, code: Token, readAt: real,
                                    issueAt: real)
    requires Inv(cfg, s)
    ensures var row := LoadFor(s.artifacts, clientId, code, AuthorizationCode, readAt);
            var (t, pair) := ExchangeCode(cfg, s, clientId, code, readAt, issueAt);
            && (pair.Success? <==> row.Some?)
            && (pair.Failure? ==> pair.error == InvalidGrant)
            && (pair.Success? ==>
                  Usable(cfg, t.artifacts, pair.value, clientId, row.value.payload.scopes, Truncate(issueAt)))
  {
    hide Inv, Usable, IssuePair, Ready;
    var row := LoadFor(s.artifacts, clientId, code, AuthorizationCode, readAt);
    if row.Some? {
      LiveCodeIsReady(cfg, s, code, readAt, issueAt);
      var spent := s.(artifacts := ConsumeArtifact(s.artifacts, code, AuthorizationCode, readAt));
      IssuedPairIsUsable(cfg, spent, FromCode(code), clientId, row.value.payload.scopes, issueAt);
    }
  }

  /** A refresh token keeps its client within policy, so only widening its scopes can refuse a loading one. */
  lemma RefreshExchangeSucceedsExactly(cfg: Config, s: AuthState, clientId: string, token: Token, scopes: seq<string>,
                                       readAt: real, issueAt: real)
    requires Inv(cfg, s)
    ensures var row := LoadFor(s.artifacts, clientId, token, Kind.RefreshToken, readAt);
            var (t, pair) := ExchangeRefresh(cfg, s, clientId, token, scopes, readAt, issueAt);
            && (pair.Success? <==> row.Some? && forall word :: word in scopes ==> word in row.value.payload.scopes)
            && (pair.Success? ==>
                  && Asked(Some(scopes), row.value.payload.scopes, pair.value.scopes)
                  && Usable(cfg, t.artifacts, pair.value, clientId, pair.value.scopes, Truncate(issueAt)))
  {
    hide Inv, Usable, IssuePair;
    var row := LoadFor(s.artifacts, clientId, token, Kind.RefreshToken, readAt);
    if row.Some? {
      OrElseIsAsked(Some(scopes), row.value.payload.scopes);
      LiveRefreshIsWithinPolicy(cfg, s, token, readAt);
      var spent := s.(artifacts := ConsumeArtifact(s.artifacts, token, Kind.RefreshToken, readAt));
      IssuedPairIsUsable(cfg, spent, FromRefresh(token), clientId, OrElse(Some(scopes), row.value.payload.scopes),
                         issueAt);
      UsableScopes(cfg, ExchangeRefresh(cfg, s, clientId, token, scopes, readAt, issueAt).0.artifacts, clientId,
                   Truncate(issueAt));
    }
  }

  /** A usable pair names the scopes it is usable for. */
  lemma UsableScopes(cfg: Config, table: Artifacts, clientId: string, issuedAt: int)
    ensures forall pair, scopes :: Usable(cfg, table, pair, clientId, scopes, issuedAt) ==> pair.scopes == scopes
  {
  }

  /**
    Under any policy, also one that changed after the token was issued, a refresh gives a pair exactly when the
    token loads, the scopes asked for are no wider, and the policy now in force lets the client hold them.
   */
  lemma RefreshUnderAnyPolicy(cfg: Config, s: AuthState, clientId: string, token: Token, scopes: seq<string>,
                              readAt: real, issueAt: real)
    ensures var row := LoadFor(s.artifacts, clientId, token, Kind.RefreshToken, readAt);
            var pair := ExchangeRefresh(cfg, s, clientId, token, scopes, readAt, issueAt).1;
            && (pair.Success? <==>
                  && row.Some?
                  && (forall word :: word in scopes ==> word in row.value.payload.scopes)
                  && clientId in cfg.policy.clients
                  && AsksWithin(Some(scopes), row.value.payload.scopes, cfg.policy.clients[clientId].scopes))
            && (pair.Failure? ==> pair.error == if row.Some? then InvalidScope else InvalidGrant)
  {
    var row := LoadFor(s.artifacts, clientId, token, Kind.RefreshToken, readAt);
    if row.Some? {
      OrElseIsAsked(Some(scopes), row.value.payload.scopes);
    }
    hide PutPair, ConsumeArtifact, AsksWithin, Asked;
  }

  lemma LiveRefreshIsWithinPolicy(cfg: Config, s: AuthState, token: Token, readAt: real)
    requires Inv(cfg, s) && GetArtifact(s.artifacts, token, Kind.RefreshToken, readAt).Some?
    ensures var row := s.artifacts[Sha256(token)];
            MayHold(cfg, row.clientId, row.payload.scopes)
  {
    assert RowOk(cfg, s, Sha256(token));
    var i :| 0 <= i < |s.issues| && RefreshTokenOf(s.issues[i]) == token;
    assert IssueOk(cfg, s, s.issues[i]);
  }

  /**
    From authorization to tokens: a code is handed out exactly when the client may hold every scope asked for
    and names no other resource, and until 120 seconds have passed its client can exchange it for those scopes.
   */
  lemma AuthorizedCodeRedeems(cfg: Config, s: AuthState, client: ClientInfo, params: AuthorizationParams, now: real,
                              readAt: real, issueAt: real)
    requires Inv(cfg, s)
    ensures var (t, redirect) := Authorize(cfg, s, client, params, now);
            && (redirect.Success? <==>
                  && client.clientId in cfg.policy.clients
                  && AsksWithin(params.scopes, client.scopeWords, cfg.policy.clients[client.clientId].scopes)
                  && (params.resource.None? || params.resource.value in {"", cfg.settings.resourceUrl}))
            && (redirect.Success? ==>
                  var (u, pair) := ExchangeCode(cfg, t, client.clientId, redirect.value.code, readAt, issueAt);
                  && redirect.value.uri == params.redirectUri && redirect.value.state == params.state
                  && (pair.Success? <==> readAt < now + 120.0)
                  && (pair.Success? ==>
                        && Asked(params.scopes, client.scopeWords, pair.value.scopes)
                        && Usable(cfg, u.artifacts, pair.value, client.clientId, pair.value.scopes, Truncate(issueAt))))
  {
    OrElseIsAsked(params.scopes, client.scopeWords);
    var (t, redirect) := Authorize(cfg, s, client, params, now);
    if redirect.Success? {
      AuthorizeKeepsInv(cfg, s, client, params, now);
      UsableScopes(cfg, ExchangeCode(cfg, t, client.clientId, redirect.value.code, readAt, issueAt).0.artifacts,
                   client.clientId, Truncate(issueAt));
      hide Inv, Usable, ExchangeCode, Asked, AsksWithin;
      CodeExchangeSucceedsExactly(cfg, t, client.clientId, redirect.value.code, readAt, issueAt);
    }
  }

  /**
    The code keeps the request: it loads for the client that asked, for no other, until 120 seconds have passed,
    with the challenge, redirect URI, scopes and resource of the request. A refused request changes nothing.
   */
  lemma CodeKeepsRequest(cfg: Config, s: AuthState, client: ClientInfo, params: AuthorizationParams, now: real,
                         clientId: string, readAt: real)
    ensures var (t, redirect) := Authorize(cfg, s, client, params, now);
            && (redirect.Failure? ==>
                  && t == s
                  && redirect.error ==
                     if client.clientId in cfg.policy.clients &&
                        AsksWithin(params.scopes, client.scopeWords, cfg.policy.clients[client.clientId].scopes)
                     then InvalidRequest else InvalidScope)
            && (redirect.Success? ==>
                  var row := LoadFor(t.artifacts, clientId, redirect.value.code, AuthorizationCode, readAt);
                  && (row.Some? <==> clientId == client.clientId && readAt < now + 120.0)
                  && (row.Some? ==> KeepsRequest(cfg, client, params, now, row.value)))
  {
    OrElseIsAsked(params.scopes, client.scopeWords);
    hide Asked, AsksWithin, OrElse;
  }

  ghost predicate KeepsRequest(cfg: Config, client: ClientInfo, params: AuthorizationParams, now: real, row: Artifact) {
    && row.clientId == client.clientId && row.expiresAt == now + 120.0
    && row.payload.CodePayload?
    && row.payload.codeChallenge == params.codeChallenge
    && row.payload.redirectUri == params.redirectUri
    && row.payload.explicitUri == params.explicitUri
    && Asked(params.scopes, client.scopeWords, row.payload.scopes)
    && row.payload.resource == cfg.settings.resourceUrl
    && (params.resource.None? || params.resource.value in {"", cfg.settings.resourceUrl})
  }

  /**
    Bootstrap: a pair is issued exactly for the right secret of a listed client that asks for no more than it may
    hold, and is usable for what was asked; any other request changes nothing.
   */
  lemma IssueForClientSucceedsExactly(cfg: Config, s: AuthState, clientId: string, secret: string,
                                      scopes: Option<seq<string>>, now: real)
    ensures var (t, pair) := IssueForClient(cfg, s, clientId, secret, scopes, now);
            && (pair.Success? <==>
                  && clientId in cfg.policy.clients
                  && secret == cfg.policy.clients[clientId].secret
                  && (scopes.Some? ==>
                        forall word :: word in scopes.value ==> word in cfg.policy.clients[clientId].scopes))
            && (pair.Success? ==>
                  && Asked(scopes, cfg.policy.clients[clientId].scopes, pair.value.scopes)
                  && Usable(cfg, t.artifacts, pair.value, clientId, pair.value.scopes, Truncate(now)))
            && (pair.Failure? ==>
                  && t == s
                  && pair.error ==
                     if clientId in cfg.policy.clients && secret == cfg.policy.clients[clientId].secret
                     then InvalidScope else InvalidClient)
  {
    hide Usable, PutPair;
    if clientId in cfg.policy.clients {
      var granted := OrElse(scopes, cfg.policy.clients[clientId].scopes);
      OrElseIsAsked(scopes, cfg.policy.clients[clientId].scopes);
      IssuedPairIsUsable(cfg, s, Bootstrap, clientId, granted, now);
    }
  }

  // ---------- Dead artifacts ----------

  /** The digest an operation names, if any. */
  function Named(op: Op): Option<Digest> {
    match op
    case OpExchangeCode(_, code, _, _) => Some(Sha256(code))
    case OpExchangeRefresh(_, token, _, _, _) => Some(Sha256(token))
    case OpRevoke(token) => Some(Sha256(token))
    case OpAuthorize(_, _, _) => None
    case OpIssue(_, _, _, _) => None
  }

  /** Rows the operation does not name are untouched; the named row only gains flags, `revoked` only by revoking. */
  ghost predicate TouchesOnlyNamed(before: Artifacts, after: Artifacts, op: Op) {
    && (forall d :: d in before ==> d in after && RowGrows(before[d], after[d]))
    && (forall d :: d in before && Named(op) != Some(d) ==> after[d] == before[d])
    && (forall d :: d in before && !op.OpRevoke? ==> after[d].revoked == before[d].revoked)
    && (op.OpRevoke? && Sha256(op.token) in before ==> after[Sha256(op.token)].revoked)
  }

  ghost predicate FreshRowsOnly(before: AuthState, after: AuthState) {
    && before.supply <= after.supply
    && forall d :: d in after.artifacts && d !in before.artifacts ==>
         !NamedBelow(d.token, before.supply) && NamedBelow(d.token, after.supply)
  }

  lemma IssueAddsFreshRows(cfg: Config, s: AuthState, source: Source, clientId: string, scopes: set<string>, now: real)
    requires TableInv(cfg, s)
    ensures var t := IssuePair(cfg, s, source, clientId, scopes, cfg.settings.resourceUrl, now).0;
            && (forall d :: d in s.artifacts ==> d in t.artifacts && t.artifacts[d] == s.artifacts[d])
            && FreshRowsOnly(s, t)
  {
    if clientId in cfg.policy.clients {
      NewPairIsFresh(cfg, s, NewIssue(s, source, clientId, scopes, now));
    }
  }

  /** A consuming read followed, or not, by an issue. */
  lemma ConsumeThenIssueTouches(cfg: Config, s: AuthState, t: AuthState, op: Op, kind: Kind, source: Source,
                                clientId: string, scopes: set<string>)
    requires TableInv(cfg, s) && kind != Kind.AccessToken && (op.OpExchangeCode? || op.OpExchangeRefresh?)
    requires var spent := s.(artifacts := ConsumeArtifact(s.artifacts, Named(op).value.token, kind, op.readAt));
             || t == spent
             || t == IssuePair(cfg, spent, source, clientId, scopes, cfg.settings.resourceUrl, op.issueAt).0
    ensures TouchesOnlyNamed(s.artifacts, t.artifacts, op) && FreshRowsOnly(s, t)
    ensures Named(op).value in s.artifacts ==>
              Named(op).value in t.artifacts &&
              t.artifacts[Named(op).value] ==
              ConsumeArtifact(s.artifacts, Named(op).value.token, kind, op.readAt)[Named(op).value]
  {
    hide IssuePair, RowOk, IssueOk;
    var token := Named(op).value.token;
    var spent := s.(artifacts := ConsumeArtifact(s.artifacts, token, kind, op.readAt));
    ConsumeGrowsFlags(s.artifacts, token, kind, op.readAt);
    FlagsKeepTable(cfg, s, spent.artifacts);
    if t != spent {
      IssueAddsFreshRows(cfg, spent, source, clientId, scopes, op.issueAt);
    }
  }

  /** The outcomes of an exchange, in the terms of the lemma above. */
  lemma ExchangeIsConsumeThenIssue(cfg: Config, s: AuthState, op: Op)
    requires TableInv(cfg, s) && (op.OpExchangeCode? || op.OpExchangeRefresh?)
    ensures var kind := if op.OpExchangeCode? then AuthorizationCode else Kind.RefreshToken;
            && TouchesOnlyNamed(s.artifacts, Step(cfg, s, op).artifacts, op) && FreshRowsOnly(s, Step(cfg, s, op))
            && (Named(op).value in s.artifacts ==>
                  Named(op).value in Step(cfg, s, op).artifacts &&
                  Step(cfg, s, op).artifacts[Named(op).value] ==
                  ConsumeArtifact(s.artifacts, Named(op).value.token, kind, op.readAt)[Named(op).value])
  {
    hide IssuePair, TouchesOnlyNamed, FreshRowsOnly, ConsumeArtifact;
    var token := Named(op).value.token;
    var kind := if op.OpExchangeCode? then AuthorizationCode else Kind.RefreshToken;
    var row := GetArtifact(s.artifacts, token, kind, op.readAt);
    var source := if op.OpExchangeCode? then FromCode(token) else FromRefresh(token);
    if row.None? {
      ConsumeThenIssueTouches(cfg, s, Step(cfg, s, op), op, kind, source, "", {});
    } else {
      assert RowOk(cfg, s, Sha256(token));
      var held := row.value.payload.scopes;
      ConsumeThenIssueTouches(cfg, s, Step(cfg, s, op), op, kind, source, row.value.clientId,
                              if op.OpExchangeCode? then held else OrElse(Some(op.scopes), held));
    }
  }

  /** Every operation touches only the artifact it names or freshly creates. */
  lemma StepTouchesOnlyNamed(cfg: Config, s: AuthState, op: Op)
    requires TableInv(cfg, s)
    ensures TouchesOnlyNamed(s.artifacts, Step(cfg, s, op).artifacts, op)
    ensures FreshRowsOnly(s, Step(cfg, s, op))
  {
    hide IssuePair, ExchangeCode, ExchangeRefresh, Authorize, TableInv;
    match op
    case OpAuthorize(client, params, now) =>
      AuthorizeAddsFreshRow(cfg, s, client, params, now);
    case OpExchangeCode(_, _, _, _) =>
      ExchangeIsConsumeThenIssue(cfg, s, op);
    case OpExchangeRefresh(_, _, _, _, _) =>
      ExchangeIsConsumeThenIssue(cfg, s, op);
    case OpRevoke(token) =>
    case OpIssue(clientId, secret, requested, now) =>
      if clientId in cfg.policy.clients {
        IssueAddsFreshRows(cfg, s, Bootstrap, clientId, OrElse(requested, cfg.policy.clients[clientId].scopes), now);
      }
  }

  lemma AuthorizeAddsFreshRow(cfg: Config, s: AuthState, client: ClientInfo, params: AuthorizationParams, now: real)
    requires TableInv(cfg, s)
    ensures var t := Authorize(cfg, s, client, params, now).0;
            && (forall d :: d in s.artifacts ==> d in t.artifacts && t.artifacts[d] == s.artifacts[d])
            && FreshRowsOnly(s, t)
  {
    NextNamesAreFresh(cfg, s, Opaque(NameText(s.supply)));
  }

  /** Once an artifact has stopped loading, no later operation makes it load again. */
  lemma DeadArtifactsStayDead(cfg: Config, s: AuthState, ops: seq<Op>, token: Token, kind: Kind, now: real, later: real)
    requires Inv(cfg, s) && Sha256(token) in s.artifacts && now <= later
    requires GetArtifact(s.artifacts, token, kind, now).None?
    ensures Sha256(token) in Run(cfg, s, ops).artifacts
    ensures GetArtifact(Run(cfg, s, ops).artifacts, token, kind, later).None?
  {
    RowsOnlyGainFlags(cfg, s, ops, Sha256(token));
  }

  lemma {:induction false} RowsOnlyGainFlags(cfg: Config, s: AuthState, ops: seq<Op>, d: Digest)
    requires Inv(cfg, s) && d in s.artifacts
    ensures d in Run(cfg, s, ops).artifacts && RowGrows(s.artifacts[d], Run(cfg, s, ops).artifacts[d])
  {
    hide Inv, Step, TableInv, FreshRowsOnly;
    if ops != [] {
      var front := ops[..|ops| - 1];
      RowsOnlyGainFlags(cfg, s, front, d);
      RunKeepsInv(cfg, s, front);
      InvTable(cfg, Run(cfg, s, front));
      StepTouchesOnlyNamed(cfg, Run(cfg, s, front), ops[|ops| - 1]);
    }
  }

  /**
    Any attempt to exchange an issued code or refresh token leaves it dead for good, whatever the outcome:
    a wrong client or wider scopes spend it too.
   */
  lemma ExchangeAttemptKills(cfg: Config, s: AuthState, op: Op, ops: seq<Op>, later: real)
    requires Inv(cfg, s) && (op.OpExchangeCode? || op.OpExchangeRefresh?)
    requires Named(op).value in s.artifacts && op.readAt <= later
    ensures var token := Named(op).value.token;
            var kind := if op.OpExchangeCode? then AuthorizationCode else Kind.RefreshToken;
            GetArtifact(Run(cfg, Step(cfg, s, op), ops).artifacts, token, kind, later).None?
  {
    hide Inv, ExchangeCode, ExchangeRefresh, TouchesOnlyNamed, FreshRowsOnly;
    var kind := if op.OpExchangeCode? then AuthorizationCode else Kind.RefreshToken;
    StepKeepsInv(cfg, s, op);
    assert TableInv(cfg, s) by {
      InvTable(cfg, s);
    }
    ExchangeIsConsumeThenIssue(cfg, s, op);
    DeadArtifactsStayDead(cfg, Step(cfg, s, op), ops, Named(op).value.token, kind, op.readAt, later);
  }

  lemma InvTable(cfg: Config, s: AuthState)
    requires Inv(cfg, s)
    ensures TableInv(cfg, s) && LineageInv(s)
  {
  }

  /** An issued access token is revoked exactly when some later operation revoked it. */
  lemma {:induction false} RevokedExactlyByRevoking(cfg: Config, s: AuthState, ops: seq<Op>, token: Token)
    requires Inv(cfg, s) && Sha256(token) in s.artifacts && !Revoked(s.artifacts, token)
    ensures Revoked(Run(cfg, s, ops).artifacts, token) <==> OpRevoke(token) in ops
  {
    hide Inv, Step, TableInv, FreshRowsOnly;
    if ops != [] {
      var front, last := ops[..|ops| - 1], ops[|ops| - 1];
      RevokedExactlyByRevoking(cfg, s, front, token);
      RowsOnlyGainFlags(cfg, s, front, Sha256(token));
      RunKeepsInv(cfg, s, front);
      InvTable(cfg, Run(cfg, s, front));
      StepTouchesOnlyNamed(cfg, Run(cfg, s, front), last);
      assert ops == front + [last];
    }
  }
}
