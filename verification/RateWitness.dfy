/** The audit log as a witness of the rate limit. */
module RateWitness {
  import opened Wrappers
  import opened Json
  import opened RateLimit
  import opened Store
  import opened Audit
  import opened Auth
  import opened Validation
  import opened Gateway
  import opened Runs

  const RATE_LIMITED: string := "rate_limited"

  // ---------- Which calls the limiter refused ----------

  lemma {:induction false} CleanNeverRateLimits(declared: Declaration, args: Args, n: nat)
    requires n <= |declared| && Clean(declared, args, n).Failure?
    ensures !Clean(declared, args, n).error.RateLimited?
  {
    if n > 0 && Clean(declared, args, n - 1).Failure? {
      CleanNeverRateLimits(declared, args, n - 1);
    }
  }

  lemma ValidateNeverRateLimits(tool: Tool, args: Args)
    ensures Validate(tool, args).Failure? ==> !Validate(tool, args).error.RateLimited?
  {
    hide Declared;
    var declared := Declared(tool);
    if Clean(declared, args, |declared|).Failure? {
      CleanNeverRateLimits(declared, args, |declared|);
    }
  }

  lemma GuardedNeverRateLimits(gate: Gate, s: System, inv: Invocation, access: Access, now: real)
    ensures var outcome := Guarded(gate, s, inv, access, now).1;
            outcome.Failure? ==> !outcome.error.RateLimited?
  {
    hide Validate, ToolOf, SelectTickets, AuditEvents;
    ValidateNeverRateLimits(ToolOf(inv.tool), inv.args);
  }

  /** A call is answered rate_limited exactly when its token was accepted and its bucket could not pay. */
  lemma RateLimitedExactlyByBucket(gate: Gate, s: System, inv: Invocation, r: Readings)
    requires gate.limits.Valid()
    ensures var outcome := Invoke(gate, s, inv, r).1;
            var access := Authenticate(gate, s, inv.token, r);
            (outcome.Failure? && outcome.error.RateLimited?) <==>
              access.Some? &&
              !Admit(gate.limits, Lookup(s.buckets, access.value.clientId), r.limiterAt, 1.0).1.allowed
  {
    hide Guarded, Authenticate, Admit, Record, EntryOf;
    var access := Authenticate(gate, s, inv.token, r);
    if access.Some? {
      var charged := Charge(gate, s, access.value.clientId, r.limiterAt).0;
      GuardedNeverRateLimits(gate, charged, inv, access.value, r.writeAt);
    }
  }

  lemma OnlyOneCodeSaysRateLimited(e: Refusal)
    ensures Code(e) == RATE_LIMITED <==> e.RateLimited?
    ensures Code(e) != REJECTED && SATISFIED != RATE_LIMITED && SATISFIED != REJECTED
  {
    assert |RATE_LIMITED| == 12 && |REJECTED| == 24 && |SATISFIED| == 16;
    assert RATE_LIMITED[0] == 'r' && "unknown_tool"[0] == 'u';
  }

  // ---------- The calls of one client ----------

  /** The call step `step` makes on the bucket of `clientId`, if any. */
  function ChargeOf(gate: Gate, s: System, step: Step, clientId: string): seq<Call> {
    if step.Call? then
      var access := Authenticate(gate, s, step.inv.token, step.r);
      if access.Some? && access.value.clientId == clientId then [RateLimit.Call.Call(step.r.limiterAt, 1.0)] else []
    else []
  }

  /** The limiter calls a run makes on one client's bucket, in order. */
  function ChargesOf(gate: Gate, s: System, steps: seq<Step>, clientId: string): seq<Call>
    requires gate.limits.Valid()
  {
    if steps == [] then []
    else
      var front := steps[..|steps| - 1];
      ChargesOf(gate, s, front, clientId) + ChargeOf(gate, Exec(gate, s, front), steps[|steps| - 1], clientId)
  }

  /** An event of this client that the limiter let through; transport refusals never reached it. */
  predicate PassedLimiter(e: Event, clientId: string) {
    e.fields.clientId == Some(clientId) && e.fields.reason != RATE_LIMITED && e.fields.reason != REJECTED
  }

  function Passed(events: seq<Event>, clientId: string): nat {
    if events == [] then 0
    else Passed(events[..|events| - 1], clientId) + if PassedLimiter(events[|events| - 1], clientId) then 1 else 0
  }

  lemma PassedAppend(events: seq<Event>, e: Event, clientId: string)
    ensures Passed(events + [e], clientId) == Passed(events, clientId) + if PassedLimiter(e, clientId) then 1 else 0
  {
    assert (events + [e])[..|events|] == events;
  }

  /** A call's event passed the limiter exactly when the limiter granted a call of that client. */
  lemma EventMatchesCharge(gate: Gate, s: System, inv: Invocation, r: Readings, clientId: string)
    requires gate.limits.Valid()
    ensures var e := Recorded(gate.codec, s.events, EntryOf(gate, s, inv, r, Invoke(gate, s, inv, r).1), r.stamp);
            PassedLimiter(e, clientId) <==>
              && ChargeOf(gate, s, Step.Call(inv, r), clientId) != []
              && Admit(gate.limits, Lookup(s.buckets, clientId), r.limiterAt, 1.0).1.allowed
  {
    hide Invoke, Authenticate, Admit, Code, Tag, SubjectTeam, SafeArgs;
    var outcome := Invoke(gate, s, inv, r).1;
    RateLimitedExactlyByBucket(gate, s, inv, r);
    OnlyOneCodeSaysRateLimited(if outcome.Failure? then outcome.error else InvalidToken);
  }

  /** The bucket is where these charges leave it, and the count is what they granted. */
  ghost predicate Tracked(l: Limits, b: Option<BucketState>, charges: seq<Call>, bucket: Option<BucketState>, count: nat)
    requires l.Valid()
  {
    && bucket == Before(l, b, charges, |charges|)
    && count as real == Spent(l, b, charges, 0, |charges|)
    && forall k :: 0 <= k < |charges| ==> charges[k].cost == 1.0
  }

  ghost predicate Tracks(gate: Gate, s: System, steps: seq<Step>, clientId: string)
    requires gate.limits.Valid()
  {
    var t := Exec(gate, s, steps);
    && s.events <= t.events
    && Tracked(gate.limits, Lookup(s.buckets, clientId), ChargesOf(gate, s, steps, clientId),
               Lookup(t.buckets, clientId), Passed(t.events[|s.events|..], clientId))
  }

  lemma {:induction false} BeforeIsStable(l: Limits, b: Option<BucketState>, calls: seq<Call>, more: seq<Call>, n: nat)
    requires l.Valid() && n <= |calls|
    ensures Before(l, b, calls + more, n) == Before(l, b, calls, n)
  {
    if n > 0 {
      BeforeIsStable(l, b, calls, more, n - 1);
    }
  }

  lemma {:induction false} SpentIsStable(l: Limits, b: Option<BucketState>, calls: seq<Call>, more: seq<Call>, n: nat)
    requires l.Valid() && n <= |calls|
    ensures Spent(l, b, calls + more, 0, n) == Spent(l, b, calls, 0, n)
  {
    hide Admit, Before;
    if n > 0 {
      SpentIsStable(l, b, calls, more, n - 1);
      BeforeIsStable(l, b, calls, more, n - 1);
    }
  }

  lemma OneMoreCharge(l: Limits, b: Option<BucketState>, charges: seq<Call>, state: Option<BucketState>, count: nat,
                      c: Call)
    requires l.Valid() && Tracked(l, b, charges, state, count) && c.cost == 1.0
    ensures var (bucket, verdict) := Admit(l, state, c.time, 1.0);
            Tracked(l, b, charges + [c], Some(bucket), count + if verdict.allowed then 1 else 0)
  {
    hide Admit;
    BeforeIsStable(l, b, charges, [c], |charges|);
    SpentIsStable(l, b, charges, [c], |charges|);
  }

  /** The log grew by one event. */
  lemma CountOneMore(was: seq<Event>, log: seq<Event>, e: Event, clientId: string)
    requires was <= log
    ensures was <= log + [e]
    ensures Passed((log + [e])[|was|..], clientId) ==
            Passed(log[|was|..], clientId) + if PassedLimiter(e, clientId) then 1 else 0
  {
    hide PassedLimiter;
    assert (log + [e])[|was|..] == log[|was|..] + [e];
    PassedAppend(log[|was|..], e, clientId);
  }

  lemma CallBucket(gate: Gate, s: System, inv: Invocation, r: Readings, clientId: string)
    requires gate.limits.Valid()
    ensures Lookup(BucketsAfter(gate, s, inv, r), clientId) ==
            if ChargeOf(gate, s, Step.Call(inv, r), clientId) == [] then Lookup(s.buckets, clientId)
            else Some(Admit(gate.limits, Lookup(s.buckets, clientId), r.limiterAt, 1.0).0)
  {
    hide Authenticate, Admit;
  }

  lemma CallTracks(gate: Gate, s: System, m: System, charges: seq<Call>, inv: Invocation, r: Readings, clientId: string)
    requires gate.limits.Valid() && s.events <= m.events
    requires Tracked(gate.limits, Lookup(s.buckets, clientId), charges, Lookup(m.buckets, clientId),
                     Passed(m.events[|s.events|..], clientId))
    ensures var t := Invoke(gate, m, inv, r).0;
            && s.events <= t.events
            && Tracked(gate.limits, Lookup(s.buckets, clientId),
                       charges + ChargeOf(gate, m, Step.Call(inv, r), clientId),
                       Lookup(t.buckets, clientId), Passed(t.events[|s.events|..], clientId))
  {
    hide Invoke, Authenticate, Admit, Tracked, PassedLimiter, EntryOf, Recorded, Permitted, LeavesTickets, ToolOf, Passed,
         CreatesRow, SetsStatus, BucketsAfter, Lookup;
    var e := Recorded(gate.codec, m.events, EntryOf(gate, m, inv, r, Invoke(gate, m, inv, r).1), r.stamp);
    InvokeEffect(gate, m, inv, r);
    CountOneMore(s.events, m.events, e, clientId);
    EventMatchesCharge(gate, m, inv, r, clientId);
    CallBucket(gate, m, inv, r, clientId);
    var charge := ChargeOf(gate, m, Step.Call(inv, r), clientId);
    if charge == [] {
      assert charges + charge == charges;
    } else {
      OneMoreCharge(gate.limits, Lookup(s.buckets, clientId), charges, Lookup(m.buckets, clientId),
                    Passed(m.events[|s.events|..], clientId), charge[0]);
    }
  }

  /** A transport refusal never reached the limiter, and its event is not counted. */
  lemma RejectedTracks(gate: Gate, was: seq<Event>, m: System, step: Step, clientId: string)
    requires gate.limits.Valid() && step.Rejected? && was <= m.events
    ensures var t := Next(gate, m, step);
            && was <= t.events && t.buckets == m.buckets
            && Passed(t.events[|was|..], clientId) == Passed(m.events[|was|..], clientId)
  {
    hide Tag, Passed;
    CountOneMore(was, m.events,
                 Recorded(gate.codec, m.events,
                          RejectedEntry(gate, step.requestId, step.clientId, step.tool, step.args), step.stamp), clientId);
  }

  lemma StepTracks(gate: Gate, s: System, m: System, charges: seq<Call>, step: Step, clientId: string)
    requires gate.limits.Valid() && s.events <= m.events
    requires Tracked(gate.limits, Lookup(s.buckets, clientId), charges, Lookup(m.buckets, clientId),
                     Passed(m.events[|s.events|..], clientId))
    ensures var t := Next(gate, m, step);
            && s.events <= t.events
            && Tracked(gate.limits, Lookup(s.buckets, clientId), charges + ChargeOf(gate, m, step, clientId),
                       Lookup(t.buckets, clientId), Passed(t.events[|s.events|..], clientId))
  {
    hide Tracked, Invoke, Record, Passed, Lookup, Authenticate;
    match step
    case Call(inv, r) => CallTracks(gate, s, m, charges, inv, r, clientId);
    case Grant(_) => assert charges + [] == charges;
    case Rejected(_, _, _, _, _) =>
      assert charges + [] == charges;
      RejectedTracks(gate, s.events, m, step, clientId);
  }

  lemma {:induction false} RunTracks(gate: Gate, s: System, steps: seq<Step>, clientId: string)
    requires gate.limits.Valid()
    ensures Tracks(gate, s, steps, clientId)
  {
    if steps == [] {
      assert s.events[|s.events|..] == [];
    } else {
      hide Tracked, Next, Passed, Lookup, ChargeOf;
      var front := steps[..|steps| - 1];
      RunTracks(gate, s, front, clientId);
      StepTracks(gate, s, Exec(gate, s, front), ChargesOf(gate, s, front, clientId), steps[|steps| - 1], clientId);
    }
  }

  lemma RunKeepsBucketInRange(gate: Gate, now: real, steps: seq<Step>, clientId: string)
    requires gate.limits.Valid()
    ensures InRange(gate.limits, Lookup(Exec(gate, Seeded(now), steps).buckets, clientId))
  {
    hide SeedRows;
    RunTracks(gate, Seeded(now), steps, clientId);
    hide Exec, Before;
    var charges := ChargesOf(gate, Seeded(now), steps, clientId);
    TokensStayInRange(gate.limits, None, charges, |charges|);
  }

  /** The bound on what one client got past the limiter, given the limiter calls it made. */
  ghost predicate WithinLimit(l: Limits, charges: seq<Call>, count: nat) {
    && (charges == [] ==> count == 0)
    && (charges != [] ==> count as real <= l.capacity + Scale(l.rate, Elapsed(charges, 0, |charges| - 1)))
    && (charges != [] && Nondecreasing(charges) ==>
          count as real <= l.capacity + Scale(l.rate, charges[|charges| - 1].time - charges[0].time))
  }

  lemma TrackedBound(l: Limits, b: Option<BucketState>, charges: seq<Call>, bucket: Option<BucketState>, count: nat)
    requires l.Valid() && InRange(l, b) && Tracked(l, b, charges, bucket, count)
    ensures WithinLimit(l, charges, count)
  {
    hide Before, Scale, Elapsed;
    if charges != [] {
      StretchBound(l, b, charges, 0, |charges|);
      if Nondecreasing(charges) {
        ElapsedIsDifference(charges, 0, |charges| - 1);
      }
    }
  }

  /**
    Over any window of any run, the log holds at most capacity plus rate times elapsed time of the events
    a client got past the limiter; elapsed is the positive increments of the limiter's own readings, which
    on a nondecreasing clock is last reading minus first.
   */
  lemma LogWitnessesRateLimit(gate: Gate, now: real, steps: seq<Step>, window: seq<Step>, clientId: string)
    requires gate.limits.Valid()
    ensures var s := Exec(gate, Seeded(now), steps);
            var t := Exec(gate, s, window);
            && s.events <= t.events
            && WithinLimit(gate.limits, ChargesOf(gate, s, window, clientId), Passed(t.events[|s.events|..], clientId))
  {
    var s := Exec(gate, Seeded(now), steps);
    RunKeepsBucketInRange(gate, now, steps, clientId);
    RunTracks(gate, s, window, clientId);
    hide Exec, WithinLimit, InRange, Tracked, Lookup, ChargesOf, Passed, Seeded;
    var t := Exec(gate, s, window);
    TrackedBound(gate.limits, Lookup(s.buckets, clientId), ChargesOf(gate, s, window, clientId),
                 Lookup(t.buckets, clientId), Passed(t.events[|s.events|..], clientId));
  }

  /** Events appended by a run: one for every call and every transport refusal, none for a grant. */
  lemma {:induction false} OneEventPerCall(gate: Gate, s: System, steps: seq<Step>)
    requires gate.limits.Valid()
    ensures |Exec(gate, s, steps).events| == |s.events| + Recordings(steps)
  {
    hide Invoke, Recorded;
    if steps != [] {
      var front, last := steps[..|steps| - 1], steps[|steps| - 1];
      OneEventPerCall(gate, s, front);
      if last.Call? {
        InvokeEffect(gate, Exec(gate, s, front), last.inv, last.r);
      }
    }
  }

  function Recordings(steps: seq<Step>): nat {
    if steps == [] then 0 else Recordings(steps[..|steps| - 1]) + if steps[|steps| - 1].Grant? then 0 else 1
  }
}
