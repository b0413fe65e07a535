/** The transport wrapper of server.py: every call with a bearer token becomes exactly one audited step. */
module Server {
  import opened Wrappers
  import opened Json
  import opened RateLimit
  import opened Store
  import opened Audit
  import opened Auth
  import opened Validation
  import opened Gateway
  import opened Runs
  import opened Answers
  import Grants

  // ---------- Exception chains ----------

  /** A raised exception: whether it is the already-audited marker, and its two links. */
  class Raised {
    const audited: bool
    var cause: Raised?
    var context: Raised?

    constructor (audited: bool, cause: Raised?, context: Raised?)
      ensures this.audited == audited && this.cause == cause && this.context == context
    {
      this.audited, this.cause, this.context := audited, cause, context;
    }

    /** Python's `cause or context`. */
    ghost function Link(): Raised?
      reads this
    {
      if cause != null then cause else context
    }
  }

  ghost predicate Closed(heap: set<Raised>)
    reads heap
  {
    forall e :: e in heap && e.Link() != null ==> e.Link() in heap
  }

  /** The exception `k` links along from `error`, if the chain is that long. */
  ghost function Walk(heap: set<Raised>, error: Raised, k: nat): (e: Raised?)
    requires error in heap && Closed(heap)
    reads heap
    ensures e != null ==> e in heap
  {
    if k == 0 then error
    else
      var before := Walk(heap, error, k - 1);
      if before == null then null else before.Link()
  }

  /** An audited marker can be reached along the links. */
  ghost predicate MarkerReachable(heap: set<Raised>, error: Raised)
    requires error in heap && Closed(heap)
    reads heap
  {
    exists k: nat :: MarkerAt(heap, error, k)
  }

  ghost predicate MarkerAt(heap: set<Raised>, error: Raised, k: nat)
    requires error in heap && Closed(heap)
    reads heap
  {
    Walk(heap, error, k) != null && Walk(heap, error, k).audited
  }

  /** A set of unmarked exceptions that holds the start and all links out of it hides no marker. */
  lemma {:induction false} NoMarkerBeyond(heap: set<Raised>, error: Raised, seen: set<Raised>, k: nat)
    requires error in heap && Closed(heap) && error in seen && seen <= heap
    requires forall e :: e in seen ==> !e.audited && (e.Link() == null || e.Link() in seen)
    ensures Walk(heap, error, k) == null || Walk(heap, error, k) in seen
  {
    if k > 0 {
      NoMarkerBeyond(heap, error, seen, k - 1);
    }
  }

  /**
    The walk over causes and contexts: it ends on every finite chain, cyclic or not, and finds a marker
    exactly when one can be reached.
   */
  method AlreadyAudited(error: Raised, ghost heap: set<Raised>) returns (found: bool)
    requires error in heap && Closed(heap)
    ensures found <==> MarkerReachable(heap, error)
  {
    var seen: set<Raised> := {};
    var current: Raised? := error;
    ghost var k: nat := 0;
    while current != null && current !in seen
      invariant current == Walk(heap, error, k)
      invariant seen <= heap
      invariant k > 0 ==> error in seen
      invariant k == 0 ==> current == error && seen == {}
      invariant forall e :: e in seen ==> !e.audited && (e.Link() == null || e.Link() in seen || e.Link() == current)
      decreases heap - seen
    {
      if current.audited {
        assert MarkerAt(heap, error, k);
        return true;
      }
      seen := seen + {current};
      current := if current.cause != null then current.cause else current.context;
      k := k + 1;
    }
    forall j: nat
      ensures !MarkerAt(heap, error, j)
    {
      NoMarkerBeyond(heap, error, seen, j);
    }
    return false;
  }

  lemma {:induction false} WalkInLargerHeap(small: set<Raised>, large: set<Raised>, error: Raised, k: nat)
    requires error in small && small <= large && Closed(small) && Closed(large)
    ensures Walk(small, error, k) == Walk(large, error, k)
  {
    if k > 0 {
      WalkInLargerHeap(small, large, error, k - 1);
    }
  }

  lemma {:induction false} WalkThroughWrapper(heap: set<Raised>, outer: Raised, inner: Raised, k: nat)
    requires outer in heap && inner in heap && Closed(heap) && outer.Link() == inner
    ensures Walk(heap, outer, k + 1) == Walk(heap, inner, k)
  {
    if k > 0 {
      WalkThroughWrapper(heap, outer, inner, k - 1);
    } else {
      assert Walk(heap, outer, 0) == outer;
    }
  }

  /** One more exception around another, linked as cause or only as context. */
  method Wrap(inner: Raised, asCause: bool, ghost heap: set<Raised>) returns (outer: Raised, ghost larger: set<Raised>)
    requires inner in heap && Closed(heap) && MarkerReachable(heap, inner)
    ensures fresh(outer) && larger == heap + {outer}
    ensures outer in larger && Closed(larger) && MarkerReachable(larger, outer)
  {
    ghost var k: nat :| MarkerAt(heap, inner, k);
    outer := new Raised(false, if asCause then inner else null, inner);
    larger := heap + {outer};
    WalkInLargerHeap(heap, larger, inner, k);
    WalkThroughWrapper(larger, outer, inner, k);
    assert MarkerAt(larger, outer, k + 1);
  }

  /** The marker, raised from the gateway's own error. */
  method RaiseMarker() returns (raised: Raised, ghost heap: set<Raised>)
    ensures fresh(heap) && raised in heap && Closed(heap) && MarkerReachable(heap, raised)
  {
    var refusal := new Raised(false, null, null);
    raised := new Raised(true, refusal, refusal);
    heap := {refusal, raised};
    assert MarkerAt(heap, raised, 0);
  }

  // ---------- The wrapper ----------

  datatype Bearer = Bearer(token: Token, clientId: string)

  /**
    What the SDK does with a call: refuse it before the tool runs, or run the tool with converted
    arguments and wrap what the tool raises, each layer linking by cause or by context.
   */
  datatype Sdk = RefusesBefore(error: Raised) | RunsTool(args: Args, layers: seq<bool>)

  /** A call refused before the tool is recorded with a latency of zero. */
  function NoLatency(stamp: Stamp): Stamp {
    stamp.(latencyMs := "0.0")
  }

  function InvocationOf(name: string, args: Args, bearer: Bearer, requestId: string): Invocation {
    Invocation(name, args, bearer.token, Some(SessionName(requestId)))
  }

  /** The one step of the server that a transport call amounts to. */
  function StepOf(name: string, arguments: Args, bearer: Bearer, requestId: string, sdk: Sdk, r: Readings): Step {
    match sdk
    case RefusesBefore(_) => Rejected(requestId, Some(bearer.clientId), name, arguments, NoLatency(r.stamp))
    case RunsTool(args, _) => Step.Call(InvocationOf(name, args, bearer, requestId), r)
  }

  /** The event of a transport call names its request, its tool and the arguments in force, and a refusal its bearer. */
  lemma TransportEventTells(gate: Gate, s: System, name: string, arguments: Args, bearer: Bearer, requestId: string,
                            sdk: Sdk, r: Readings)
    requires gate.limits.Valid()
    ensures var t := Next(gate, s, StepOf(name, arguments, bearer, requestId, sdk, r));
            && |t.events| == |s.events| + 1 && t.events[..|s.events|] == s.events
            && var e := t.events[|s.events|];
               && e.fields.sessionId == "mcp-" + requestId && e.fields.tool == name
               && (sdk.RefusesBefore? ==>
                     && Says(gate.codec, s.events, EntryIn(e.fields, arguments), r.stamp.(latencyMs := "0.0"), e)
                     && e.fields.clientId == Some(bearer.clientId)
                     && e.fields.decision == "deny" && e.fields.reason == "rejected_before_dispatch")
               && (sdk.RunsTool? ==>
                     var inv := Invocation(name, sdk.args, bearer.token, Some("mcp-" + requestId));
                     Tells(gate, s, inv, r, Invoke(gate, s, inv, r).1, e))
  {
    match sdk {
      case RefusesBefore(_) =>
        RejectionTells(gate, s, requestId, Some(bearer.clientId), name, arguments, r.stamp.(latencyMs := "0.0"));
        hide Says, Tells, Invoke;
      case RunsTool(args, _) =>
        EventTells(gate, s, InvocationOf(name, args, bearer, requestId), r);
        hide Says, Invoke, Concerns, Code, Authenticate;
    }
  }

  /** A new server: an empty store is seeded, and the parts are put together around it. */
  method CreateRuntime(gate: Gate, now: real) returns (transport: Transport)
    requires gate.limits.Valid()
    ensures fresh(transport) && transport.gateway.Valid() && transport.gateway.gate == gate
    ensures fresh(transport.gateway) && fresh(transport.gateway.store) && fresh(transport.gateway.limiter)
    ensures transport.gateway.limiter.owned == {}
    ensures transport.gateway.State() == Seeded(now)
  {
    hide SeedRows;
    var store := new Store();
    store.Seed(now);
    var provider := new OAuthProvider(store, gate.cfg);
    var limiter := new TokenBucketLimiter(gate.limits);
    var audit := new AuditLog(store, gate.codec);
    var gateway := new Gateway(gate, store, provider, limiter, audit);
    transport := new Transport(gateway);
  }

  class Transport {
    const gateway: Gateway

    constructor (gateway: Gateway)
      ensures this.gateway == gateway
    {
      this.gateway := gateway;
    }

    /** The tool body: a refusal of the gateway leaves as a marker raised from the gateway's own error. */
    method InvokeTool(name: string, args: Args, bearer: Bearer, requestId: string, r: Readings)
      returns (outcome: Outcome, raised: Raised?, ghost heap: set<Raised>)
      requires gateway.Valid()
      modifies gateway.store, gateway.limiter, gateway.limiter.owned
      ensures gateway.Valid() && fresh(gateway.limiter.owned - old(gateway.limiter.owned))
      ensures (gateway.State(), outcome) ==
              Invoke(gateway.gate, old(gateway.State()),
                     InvocationOf(name, args, bearer, requestId), r)
      ensures raised == null <==> outcome.Success?
      ensures raised != null ==> raised in heap && Closed(heap) && fresh(heap) && MarkerReachable(heap, raised)
    {
      hide Invoke;
      outcome := gateway.Call(InvocationOf(name, args, bearer, requestId), r);
      raised, heap := null, {};
      if outcome.Failure? {
        raised, heap := RaiseMarker();
      }
    }

    /**
      One call with a bearer token. Whatever the SDK does with it, the server takes exactly the one step
      that stands for it, and so writes exactly one event. The caller gets the gateway's own result, or the
      exception as the SDK raised it.
     */
    method CallTool(name: string, arguments: Args, bearer: Bearer, requestId: string, sdk: Sdk, r: Readings,
                    ghost chain: set<Raised>)
      returns (outcome: Option<Outcome>, error: Raised?, ghost heap: set<Raised>)
      requires gateway.Valid()
      requires sdk.RefusesBefore? ==> sdk.error in chain && Closed(chain) && !MarkerReachable(chain, sdk.error)
      modifies gateway.store, gateway.limiter, gateway.limiter.owned
      ensures gateway.Valid()
      ensures gateway.State() ==
              Next(gateway.gate, old(gateway.State()), StepOf(name, arguments, bearer, requestId, sdk, r))
      ensures |gateway.store.events| == |old(gateway.store.events)| + 1
      ensures sdk.RefusesBefore? ==> outcome == None && error == sdk.error
      ensures sdk.RunsTool? ==>
                && outcome == Some(Invoke(gateway.gate, old(gateway.State()),
                                          InvocationOf(name, sdk.args, bearer, requestId), r).1)
                && (error == null <==> outcome.value.Success?)
                && (error != null ==> error in heap && Closed(heap) && MarkerReachable(heap, error))
    {
      hide Invoke, Recorded, Authenticate, BucketsAfter, Permitted, CreatesRow, SetsStatus, LeavesTickets,
           MarkerReachable;
      heap := chain;
      match sdk {
        case RefusesBefore(refused) =>
          error, outcome := refused, None;
        case RunsTool(args, layers) =>
          var reply: Outcome;
          reply, error, heap := InvokeTool(name, args, bearer, requestId, r);
          outcome := Some(reply);
          InvokeEffect(gateway.gate, old(gateway.State()),
                       InvocationOf(name, args, bearer, requestId), r);
          if error != null {
            error, heap := WrapAll(error, layers, heap);
          }
      }
      if error != null {
        var audited := AlreadyAudited(error, heap);
        if !audited {
          var action := ActionOf(gateway.gate.cfg.policy, name);
          var row := gateway.audit.Record(
            Entry(SessionName(requestId), Some(bearer.clientId), name, action, DENY, REJECTED, arguments, None),
            NoLatency(r.stamp));
        }
      }
    }

    /** The SDK's authorization, token and revocation endpoints: one grant operation of the provider. */
    method Perform(op: Grants.Op)
      requires gateway.Valid()
      modifies gateway.provider, gateway.store`artifacts
      ensures gateway.Valid()
      ensures gateway.State() == Next(gateway.gate, old(gateway.State()), Grant(op))
    {
      hide Authorize, ExchangeCode, ExchangeRefresh, IssueForClient;
      var provider := gateway.provider;
      match op {
        case OpAuthorize(client, params, now) =>
          var redirect := provider.AuthorizeClient(client, params, now);
        case OpExchangeCode(clientId, code, readAt, issueAt) =>
          var pair := provider.ExchangeAuthorizationCode(clientId, code, readAt, issueAt);
        case OpExchangeRefresh(clientId, token, scopes, readAt, issueAt) =>
          var pair := provider.ExchangeRefreshToken(clientId, token, scopes, readAt, issueAt);
        case OpRevoke(token) =>
          provider.RevokeToken(token);
        case OpIssue(clientId, secret, requested, now) =>
          var pair := provider.IssueFor(clientId, secret, requested, now);
      }
    }

    method WrapAll(inner: Raised, layers: seq<bool>, ghost heap: set<Raised>)
      returns (outer: Raised, ghost larger: set<Raised>)
      requires inner in heap && Closed(heap) && MarkerReachable(heap, inner)
      ensures outer in larger && Closed(larger) && MarkerReachable(larger, outer)
    {
      outer, larger := inner, heap;
      for k := 0 to |layers|
        invariant outer in larger && Closed(larger) && MarkerReachable(larger, outer)
      {
        outer, larger := Wrap(outer, layers[k], larger);
      }
    }
  }
}
