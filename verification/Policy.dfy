/** The declarative authorisation tables of policy.py. */
module Policy {
  import opened Wrappers

  datatype PermissionError = UnknownClient | ScopeEscalation | UnknownTool | MissingScope(scope: string)

  datatype ClientPolicy = ClientPolicy(secret: string, scopes: set<string>, teams: set<string>)

  datatype ToolPolicy = ToolPolicy(scope: string, action: string)

  /** A sorted list without duplicates is represented by its set. */
  function ToSet(words: seq<string>): set<string> {
    set w | w in words
  }

  datatype Policy = Policy(clients: map<string, ClientPolicy>, tools: map<string, ToolPolicy>) {

    function Client(clientId: string): Option<ClientPolicy> {
      if clientId in clients then Some(clients[clientId]) else None
    }

    /** Granted scopes are the requested ones, and only when the client may hold them all. */
    function AuthorizeScopes(clientId: string, requested: set<string>): (r: Result<set<string>, PermissionError>)
      ensures r.Success? <==> clientId in clients && requested <= clients[clientId].scopes
      ensures r.Success? ==> r.value == requested
      ensures r.Failure? ==> r.error == if clientId in clients then ScopeEscalation else UnknownClient
    {
      match Client(clientId)
      case None => Failure(UnknownClient)
      case Some(client) => if requested <= client.scopes then Success(requested) else Failure(ScopeEscalation)
    }

    function RequireTool(tool: string, scopes: set<string>): (r: Result<ToolPolicy, PermissionError>)
      ensures r.Success? <==> tool in tools && tools[tool].scope in scopes
      ensures r.Success? ==> r.value == tools[tool]
      ensures r.Failure? ==> r.error == if tool in tools then MissingScope(tools[tool].scope) else UnknownTool
    {
      if tool !in tools then Failure(UnknownTool)
      else if tools[tool].scope !in scopes then Failure(MissingScope(tools[tool].scope))
      else Success(tools[tool])
    }
  }
}
