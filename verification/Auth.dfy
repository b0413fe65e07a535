/** The grant operations of auth.py. */
module Auth {
  import opened Wrappers
  import opened Policy
  import opened Store

  datatype Settings = Settings(
    issuerUrl: string,
    resourceUrl: string,
    jwtSecret: string,
    accessTtl: int,
    refreshTtl: int)

  datatype Config = Config(policy: Policy, settings: Settings)

  /** The supply of random names: the nth name drawn, never drawn again. */
  function NameText(n: nat): (name: string)
    ensures |name| == n + 1
  {
    seq(n + 1, _ => 'x')
  }

  /** Python's int() of a clock reading: truncation toward zero. */
  function Truncate(t: real): (n: int)
    ensures t >= 0.0 ==> n as real <= t < (n + 1) as real
    ensures t < 0.0 ==> (n - 1) as real < t <= n as real
  {
    if t >= 0.0 then t.Floor else -((-t).Floor)
  }

  /** Python's `or`: an absent or empty list gives way. */
  function OrElse(scopes: Option<seq<string>>, default: set<string>): set<string> {
    if scopes.Some? && scopes.value != [] then ToSet(scopes.value) else default
  }

  /** Where a token pair came from. */
  datatype Source = FromCode(code: Token) | FromRefresh(token: Token) | Bootstrap

  /** One issued pair; `serial` is the supply when it was issued. */
  datatype Issue = Issue(source: Source, serial: nat, clientId: string, scopes: set<string>, issuedAt: int)

  /** `issues` is a history of the pairs issued so far; no operation reads it. */
  datatype AuthState = AuthState(artifacts: Artifacts, supply: nat, issues: seq<Issue>)

  datatype TokenPair = TokenPair(access: Token, refresh: Token, expiresIn: int, scopes: set<string>)

  datatype OAuthError = InvalidClient | InvalidGrant | InvalidScope | InvalidRequest

  /** The client object of the SDK; `scopeWords` are the words of its registered scope. */
  datatype ClientInfo = ClientInfo(
    clientId: string,
    secret: string,
    name: string,
    redirectUris: seq<string>,
    authMethod: string,
    grantTypes: seq<string>,
    responseTypes: seq<string>,
    scopeWords: set<string>)

  const CALLBACK := "http://127.0.0.1/callback"
  const CLIENT_SECRET_POST := "client_secret_post"
  const GRANT_TYPES := ["authorization_code", "refresh_token"]
  const RESPONSE_TYPES := ["code"]

  function ClientInfoOf(clientId: string, client: ClientPolicy): ClientInfo {
    ClientInfo(clientId, client.secret, clientId, [CALLBACK], CLIENT_SECRET_POST, GRANT_TYPES, RESPONSE_TYPES,
               client.scopes)
  }

  datatype AuthorizationParams = AuthorizationParams(
    scopes: Option<seq<string>>,
    codeChallenge: string,
    redirectUri: string,
    explicitUri: bool,
    state: Option<string>,
    resource: Option<string>)

  /** What the redirect back to the client is built from. */
  datatype Redirect = Redirect(uri: string, code: Token, state: Option<string>)

  datatype Access = Access(token: Token, clientId: string, scopes: set<string>, expiresAt: int, claims: Claims)

  const CODE_TTL := 120.0

  // ---------- Operations as state functions ----------

  function TeamsOf(policy: Policy, clientId: string): set<string> {
    if clientId in policy.clients then policy.clients[clientId].teams else {}
  }

  function ClaimsOf(cfg: Config, issue: Issue, audience: string): Claims {
    Claims(cfg.settings.issuerUrl, audience, issue.clientId, issue.clientId, issue.scopes,
           TeamsOf(cfg.policy, issue.clientId), issue.issuedAt, issue.issuedAt + cfg.settings.accessTtl,
           NameText(issue.serial))
  }

  function AccessTokenOf(cfg: Config, issue: Issue, audience: string): Token {
    Signed(cfg.settings.jwtSecret, ClaimsOf(cfg, issue, audience))
  }

  function RefreshTokenOf(issue: Issue): Token {
    Opaque(NameText(issue.serial + 1))
  }

  function PutPair(cfg: Config, table: Artifacts, issue: Issue, audience: string): Artifacts {
    var claims := ClaimsOf(cfg, issue, audience);
    var withAccess := PutArtifact(table, AccessTokenOf(cfg, issue, audience), issue.clientId,
                                  AccessPayload(claims.jti, issue.scopes), claims.expires as real);
    PutArtifact(withAccess, RefreshTokenOf(issue), issue.clientId, RefreshPayload(issue.scopes),
                (issue.issuedAt + cfg.settings.refreshTtl) as real)
  }

  function IssuePair(cfg: Config, s: AuthState, source: Source, clientId: string, scopes: set<string>, resource: string,
                     now: real)
    : (AuthState, Result<TokenPair, OAuthError>)
  {
    if clientId !in cfg.policy.clients then (s, Failure(InvalidClient))
    else
      var issue := Issue(source, s.supply, clientId, scopes, Truncate(now));
      (AuthState(PutPair(cfg, s.artifacts, issue, resource), s.supply + 2, s.issues + [issue]),
       Success(TokenPair(AccessTokenOf(cfg, issue, resource), RefreshTokenOf(issue), cfg.settings.accessTtl, scopes)))
  }

  function Authorize(cfg: Config, s: AuthState, client: ClientInfo, params: AuthorizationParams, now: real)
    : (AuthState, Result<Redirect, OAuthError>)
  {
    match cfg.policy.AuthorizeScopes(client.clientId, OrElse(params.scopes, client.scopeWords))
    case Failure(_) => (s, Failure(InvalidScope))
    case Success(scopes) =>
      if params.resource.Some? && params.resource.value != "" && params.resource.value != cfg.settings.resourceUrl then
        (s, Failure(InvalidRequest))
      else
        var code := Opaque(NameText(s.supply));
        var resource := if params.resource.Some? && params.resource.value != "" then params.resource.value
                        else cfg.settings.resourceUrl;
        var payload := CodePayload(scopes, params.codeChallenge, params.redirectUri, params.explicitUri, resource);
        (s.(artifacts := PutArtifact(s.artifacts, code, client.clientId, payload, now + CODE_TTL),
            supply := s.supply + 1),
         Success(Redirect(params.redirectUri, code, params.state)))
  }

  /** The row behind a code or refresh token, for the client it was issued to. */
  function LoadFor(table: Artifacts, clientId: string, token: Token, kind: Kind, now: real): Option<Artifact> {
    match GetArtifact(table, token, kind, now)
    case None => None
    case Some(row) => if row.clientId == clientId then Some(row) else None
  }

  function ExchangeCode(cfg: Config, s: AuthState, clientId: string, code: Token, readAt: real, issueAt: real)
    : (AuthState, Result<TokenPair, OAuthError>)
  {
    var s1 := s.(artifacts := ConsumeArtifact(s.artifacts, code, AuthorizationCode, readAt));
    match GetArtifact(s.artifacts, code, AuthorizationCode, readAt)
    case None => (s1, Failure(InvalidGrant))
    case Some(row) =>
      if row.clientId != clientId then (s1, Failure(InvalidGrant))
      else IssuePair(cfg, s1, FromCode(code), row.clientId, row.payload.scopes, row.payload.resource, issueAt)
  }

  function ExchangeRefresh(cfg: Config, s: AuthState, clientId: string, token: Token, scopes: seq<string>, readAt: real,
                           issueAt: real)
    : (AuthState, Result<TokenPair, OAuthError>)
  {
    var s1 := s.(artifacts := ConsumeArtifact(s.artifacts, token, Kind.RefreshToken, readAt));
    match GetArtifact(s.artifacts, token, Kind.RefreshToken, readAt)
    case None => (s1, Failure(InvalidGrant))
    case Some(row) =>
      if row.clientId != clientId then (s1, Failure(InvalidGrant))
      else
        var requested := OrElse(Some(scopes), row.payload.scopes);
        if !(requested <= row.payload.scopes) then (s1, Failure(InvalidScope))
        else
          match cfg.policy.AuthorizeScopes(row.clientId, requested)
          case Failure(_) => (s1, Failure(InvalidScope))
          case Success(granted) =>
            IssuePair(cfg, s1, FromRefresh(token), row.clientId, granted, cfg.settings.resourceUrl, issueAt)
  }

  function IssueForClient(cfg: Config, s: AuthState, clientId: string, secret: string, scopes: Option<seq<string>>,
                          now: real)
    : (AuthState, Result<TokenPair, OAuthError>)
  {
    if clientId !in cfg.policy.clients || cfg.policy.clients[clientId].secret != secret then
      (s, Failure(InvalidClient))
    else
      match cfg.policy.AuthorizeScopes(clientId, OrElse(scopes, cfg.policy.clients[clientId].scopes))
      case Failure(_) => (s, Failure(InvalidScope))
      case Success(granted) => IssuePair(cfg, s, Bootstrap, clientId, granted, cfg.settings.resourceUrl, now)
  }

  /** Signature, audience, issuer and the two time claims; the strings of other shapes do not decode. */
  function DecodeJwt(settings: Settings, token: Token, now: real): Option<Claims> {
    if && token.Signed?
       && token.secret == settings.jwtSecret
       && token.claims.audience == settings.resourceUrl
       && token.claims.issuer == settings.issuerUrl
       && token.claims.issuedAt as real <= now
       && now < token.claims.expires as real
    then Some(token.claims)
    else None
  }

  function LoadAccess(settings: Settings, table: Artifacts, token: Token, decodeAt: real, readAt: real): Option<Access> {
    match DecodeJwt(settings, token, decodeAt)
    case None => None
    case Some(claims) =>
      match GetArtifact(table, token, Kind.AccessToken, readAt)
      case None => None
      case Some(row) =>
        if row.payload.jti != claims.jti then None
        else Some(Access(token, claims.clientId, claims.scopes, claims.expires, claims))
  }

  // ---------- The provider ----------

  class OAuthProvider {
    const store: Store
    const cfg: Config
    var supply: nat
    ghost var issues: seq<Issue>

    constructor (store: Store, cfg: Config)
      ensures this.store == store && this.cfg == cfg && supply == 0 && issues == []
    {
      this.store, this.cfg, supply, issues := store, cfg, 0, [];
    }

    ghost function State(): AuthState
      reads this, store
    {
      AuthState(store.artifacts, supply, issues)
    }

    method FreshName() returns (name: string)
      modifies this`supply
      ensures name == NameText(old(supply)) && supply == old(supply) + 1
    {
      name := NameText(supply);
      supply := supply + 1;
    }

    method GetClient(clientId: string) returns (client: Option<ClientInfo>)
      ensures client == if clientId in cfg.policy.clients
                        then Some(ClientInfoOf(clientId, cfg.policy.clients[clientId])) else None
      ensures client.Some? ==>
                && client.value.clientId == clientId == client.value.name
                && client.value.secret == cfg.policy.clients[clientId].secret
                && client.value.scopeWords == cfg.policy.clients[clientId].scopes
                && client.value.redirectUris == ["http://127.0.0.1/callback"]
                && client.value.authMethod == "client_secret_post"
                && client.value.grantTypes == ["authorization_code", "refresh_token"]
                && client.value.responseTypes == ["code"]
    {
      match cfg.policy.Client(clientId)
      case None => client := None;
      case Some(found) => client := Some(ClientInfoOf(clientId, found));
    }

    method AuthorizeClient(client: ClientInfo, params: AuthorizationParams, now: real)
      returns (redirect: Result<Redirect, OAuthError>)
      modifies this`supply, store`artifacts
      ensures (State(), redirect) == Authorize(cfg, old(State()), client, params, now)
    {
      var requested := OrElse(params.scopes, client.scopeWords);
      var granted := cfg.policy.AuthorizeScopes(client.clientId, requested);
      if granted.Failure? {
        return Failure(InvalidScope);
      }
      var named := params.resource.Some? && params.resource.value != "";
      if named && params.resource.value != cfg.settings.resourceUrl {
        return Failure(InvalidRequest);
      }
      var name := FreshName();
      var payload := CodePayload(granted.value, params.codeChallenge, params.redirectUri, params.explicitUri,
                                 if named then params.resource.value else cfg.settings.resourceUrl);
      store.Put(Opaque(name), client.clientId, payload, now + CODE_TTL);
      return Success(Redirect(params.redirectUri, Opaque(name), params.state));
    }

    method LoadAuthorizationCode(clientId: string, code: Token, now: real) returns (row: Option<Artifact>)
      modifies store`artifacts
      ensures row == LoadFor(store.artifacts, clientId, code, AuthorizationCode, now)
      ensures State() == old(State())
    {
      row := store.Get(code, AuthorizationCode, false, now);
      if row.None? || row.value.clientId != clientId {
        row := None;
      }
    }

    method ExchangeAuthorizationCode(clientId: string, code: Token, readAt: real, issueAt: real)
      returns (pair: Result<TokenPair, OAuthError>)
      modifies this, store`artifacts
      ensures (State(), pair) == ExchangeCode(cfg, old(State()), clientId, code, readAt, issueAt)
    {
      var row := store.Get(code, AuthorizationCode, true, readAt);
      if row.None? || row.value.clientId != clientId {
        return Failure(InvalidGrant);
      }
      var payload := row.value.payload;
      pair := IssueTokens(FromCode(code), row.value.clientId, payload.scopes, payload.resource, issueAt);
    }

    method LoadRefreshToken(clientId: string, token: Token, now: real) returns (row: Option<Artifact>)
      modifies store`artifacts
      ensures row == LoadFor(store.artifacts, clientId, token, Kind.RefreshToken, now)
      ensures State() == old(State())
    {
      row := store.Get(token, Kind.RefreshToken, false, now);
      if row.None? || row.value.clientId != clientId {
        row := None;
      }
    }

    method ExchangeRefreshToken(clientId: string, token: Token, scopes: seq<string>, readAt: real, issueAt: real)
      returns (pair: Result<TokenPair, OAuthError>)
      modifies this, store`artifacts
      ensures (State(), pair) == ExchangeRefresh(cfg, old(State()), clientId, token, scopes, readAt, issueAt)
    {
      var row := store.Get(token, Kind.RefreshToken, true, readAt);
      if row.None? || row.value.clientId != clientId {
        return Failure(InvalidGrant);
      }
      var held := row.value.payload.scopes;
      var requested := OrElse(Some(scopes), held);
      if !(requested <= held) {
        return Failure(InvalidScope);
      }
      var granted := cfg.policy.AuthorizeScopes(row.value.clientId, requested);
      if granted.Failure? {
        return Failure(InvalidScope);
      }
      pair := IssueTokens(FromRefresh(token), row.value.clientId, granted.value, cfg.settings.resourceUrl, issueAt);
    }

    method LoadAccessToken(token: Token, decodeAt: real, readAt: real) returns (access: Option<Access>)
      modifies store`artifacts
      ensures access == LoadAccess(cfg.settings, store.artifacts, token, decodeAt, readAt)
      ensures State() == old(State())
    {
      var claims := DecodeJwt(cfg.settings, token, decodeAt);
      if claims.None? {
        return None;
      }
      var row := store.Get(token, Kind.AccessToken, false, readAt);
      if row.None? || row.value.payload.jti != claims.value.jti {
        return None;
      }
      var c := claims.value;
      return Some(Access(token, c.clientId, c.scopes, c.expires, c));
    }

    method RevokeToken(token: Token)
      modifies store`artifacts
      ensures State() == old(State()).(artifacts := RevokeArtifact(old(store.artifacts), token))
    {
      store.Revoke(token);
    }

    method IssueFor(clientId: string, secret: string, scopes: Option<seq<string>>, now: real)
      returns (pair: Result<TokenPair, OAuthError>)
      modifies this, store`artifacts
      ensures (State(), pair) == IssueForClient(cfg, old(State()), clientId, secret, scopes, now)
    {
      var client := cfg.policy.Client(clientId);
      if client.None? || client.value.secret != secret {
        return Failure(InvalidClient);
      }
      var granted := cfg.policy.AuthorizeScopes(clientId, OrElse(scopes, client.value.scopes));
      if granted.Failure? {
        return Failure(InvalidScope);
      }
      pair := IssueTokens(Bootstrap, clientId, granted.value, cfg.settings.resourceUrl, now);
    }

    method IssueTokens(source: Source, clientId: string, scopes: set<string>, resource: string, now: real)
      returns (pair: Result<TokenPair, OAuthError>)
      modifies this, store`artifacts
      ensures (State(), pair) == IssuePair(cfg, old(State()), source, clientId, scopes, resource, now)
    {
      var client := cfg.policy.Client(clientId);
      if client.None? {
        return Failure(InvalidClient);
      }
      ghost var issue := Issue(source, supply, clientId, scopes, Truncate(now));
      var issuedAt := Truncate(now);
      var jti := FreshName();
      var claims := Claims(cfg.settings.issuerUrl, resource, clientId, clientId, scopes, client.value.teams, issuedAt,
                           issuedAt + cfg.settings.accessTtl, jti);
      var access := Signed(cfg.settings.jwtSecret, claims);
      store.Put(access, clientId, AccessPayload(jti, scopes), claims.expires as real);
      var name := FreshName();
      var refresh := Opaque(name);
      store.Put(refresh, clientId, RefreshPayload(scopes), (issuedAt + cfg.settings.refreshTtl) as real);
      issues := issues + [issue];
      return Success(TokenPair(access, refresh, cfg.settings.accessTtl, scopes));
    }
  }
}
