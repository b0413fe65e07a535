/** The per-identity token bucket of rate_limit.py. */
module RateLimit {
  import opened Wrappers

  datatype Limits = Limits(capacity: real, rate: real) {
    predicate Valid() {
      capacity > 0.0 && rate > 0.0
    }
  }

  /** The two fields of a bucket, as a value. */
  datatype BucketState = BucketState(tokens: real, updatedAt: real)

  datatype Verdict = Verdict(allowed: bool, retryAfter: real)

  function Min(x: real, y: real): real {
    if x <= y then x else y
  }

  function Positive(x: real): real {
    if x < 0.0 then 0.0 else x
  }

  /** The product, named so that a proof by linear steps can hide it. */
  function Scale(rate: real, x: real): real {
    rate * x
  }

  lemma Distribute(x: real, y: real, z: real)
    ensures Scale(x, y + z) == Scale(x, y) + Scale(x, z)
  {
  }

  /** How long a bucket takes to gain what is missing. */
  function Wait(rate: real, missing: real): real
    requires rate > 0.0
  {
    missing / rate
  }

  lemma ScaleOrder(rate: real, x: real, y: real)
    requires rate > 0.0
    ensures x <= y <==> Scale(rate, x) <= Scale(rate, y)
    ensures Scale(rate, 0.0) == 0.0
  {
    assert rate * (y - x) == rate * y - rate * x;
    if x <= y {
      assert rate * (y - x) >= 0.0;
    } else {
      assert rate * (x - y) == rate * x - rate * y;
      assert rate * (x - y) > 0.0;
    }
  }

  lemma ScaleOfWait(rate: real, x: real)
    requires rate > 0.0
    ensures Scale(rate, Wait(rate, x)) == x
  {
  }

  /** Tokens a bucket without a cap would gain between two readings. */
  function Gain(l: Limits, from: real, to: real): real {
    Scale(l.rate, Positive(to - from))
  }

  /** Tokens in the bucket once a call at `now` has refilled it; a missing bucket is created full. */
  function Refill(l: Limits, b: Option<BucketState>, now: real): real {
    match b
    case None => l.capacity
    case Some(s) => Min(l.capacity, s.tokens + Gain(l, s.updatedAt, now))
  }

  /** One call: refill, then spend or refuse. */
  function Admit(l: Limits, b: Option<BucketState>, now: real, cost: real): (BucketState, Verdict)
    requires l.Valid()
  {
    var tokens := Refill(l, b, now);
    if tokens < cost then
      (BucketState(tokens, now), Verdict(false, Wait(l.rate, cost - tokens)))
    else
      (BucketState(tokens - cost, now), Verdict(true, 0.0))
  }

  // ---------- The stateful limiter ----------

  class Bucket {
    var tokens: real
    var updatedAt: real

    constructor (tokens: real, updatedAt: real)
      ensures this.tokens == tokens && this.updatedAt == updatedAt
    {
      this.tokens := tokens;
      this.updatedAt := updatedAt;
    }

    /** Refill in place, then spend or refuse. */
    method Charge(l: Limits, now: real, cost: real) returns (allowed: bool, retryAfter: real)
      requires l.Valid()
      modifies this
      ensures (BucketState(tokens, updatedAt), Verdict(allowed, retryAfter)) ==
              Admit(l, Some(old(BucketState(tokens, updatedAt))), now, cost)
    {
      hide Scale, Wait;
      var elapsed := Positive(now - updatedAt);
      tokens := Min(l.capacity, tokens + Scale(l.rate, elapsed));
      updatedAt := now;
      if tokens < cost {
        allowed, retryAfter := false, Wait(l.rate, cost - tokens);
      } else {
        tokens := tokens - cost;
        allowed, retryAfter := true, 0.0;
      }
    }
  }

  class TokenBucketLimiter {
    const limits: Limits
    var buckets: map<string, Bucket>
    ghost var owned: set<Bucket>

    /** Two identities never share a bucket object. */
    ghost predicate Valid()
      reads this
    {
      && limits.Valid()
      && (forall a :: a in buckets ==> buckets[a] in owned)
      && (forall a, b :: a in buckets && b in buckets && buckets[a] == buckets[b] ==> a == b)
    }

    ghost function Contents(): map<string, BucketState>
      requires Valid()
      reads this, owned
    {
      map identity | identity in buckets :: BucketState(buckets[identity].tokens, buckets[identity].updatedAt)
    }

    constructor (limits: Limits)
      requires limits.Valid()
      ensures Valid() && this.limits == limits && Contents() == map[] && owned == {}
    {
      this.limits := limits;
      this.buckets := map[];
      this.owned := {};
    }

    /** The checked constructor: values that are not positive are refused. */
    static method Create(capacity: real, rate: real) returns (limiter: Option<TokenBucketLimiter>)
      ensures limiter.Some? <==> capacity > 0.0 && rate > 0.0
      ensures limiter.Some? ==> fresh(limiter.value) && limiter.value.Valid()
      ensures limiter.Some? ==> limiter.value.limits == Limits(capacity, rate) && limiter.value.Contents() == map[]
    {
      if capacity <= 0.0 || rate <= 0.0 {
        return None;
      }
      var made := new TokenBucketLimiter(Limits(capacity, rate));
      return Some(made);
    }

    /** The bucket of an identity, created full when there is none. */
    method BucketOf(identity: string, now: real) returns (bucket: Bucket)
      requires Valid()
      modifies this
      ensures Valid() && old(owned) <= owned && fresh(owned - old(owned))
      ensures identity in buckets && buckets[identity] == bucket
      ensures Contents() == if identity in old(Contents()) then old(Contents())
                            else old(Contents())[identity := BucketState(limits.capacity, now)]
    {
      if identity !in buckets {
        var full := new Bucket(limits.capacity, now);
        buckets := buckets[identity := full];
        owned := owned + {full};
      }
      bucket := buckets[identity];
    }

    method Allow(identity: string, now: real, cost: real) returns (allowed: bool, retryAfter: real)
      requires Valid()
      modifies this, owned
      ensures Valid() && old(owned) <= owned && fresh(owned - old(owned))
      ensures Verdict(allowed, retryAfter) == Admit(limits, Lookup(old(Contents()), identity), now, cost).1
      ensures Contents() ==
              old(Contents())[identity := Admit(limits, Lookup(old(Contents()), identity), now, cost).0]
    {
      hide Admit;
      var bucket := BucketOf(identity, now);
      ghost var before := Contents();
      AdmitAfterCreation(limits, Lookup(old(Contents()), identity), now, cost);
      assert before[identity] == BucketState(bucket.tokens, bucket.updatedAt);
      allowed, retryAfter := bucket.Charge(limits, now, cost);
      assert Contents() == before[identity := BucketState(bucket.tokens, bucket.updatedAt)];
    }
  }

  /** Creating a full bucket before the call changes nothing. */
  lemma AdmitAfterCreation(l: Limits, b: Option<BucketState>, now: real, cost: real)
    requires l.Valid()
    ensures Admit(l, if b.Some? then b else Some(BucketState(l.capacity, now)), now, cost) == Admit(l, b, now, cost)
  {
    hide Wait;
    ScaleOrder(l.rate, 0.0, 0.0);
  }

  function Lookup(buckets: map<string, BucketState>, identity: string): Option<BucketState> {
    if identity in buckets then Some(buckets[identity]) else None
  }

  // ---------- Runs of one bucket ----------

  datatype Call = Call(time: real, cost: real)

  /** The bucket as call `n` finds it, starting from `b`. */
  function Before(l: Limits, b: Option<BucketState>, calls: seq<Call>, n: nat): Option<BucketState>
    requires l.Valid() && n <= |calls|
  {
    if n == 0 then b
    else
      var last := calls[n - 1];
      Some(Admit(l, Before(l, b, calls, n - 1), last.time, last.cost).0)
  }

  /** Tokens available to call `n` after its refill. */
  function Available(l: Limits, b: Option<BucketState>, calls: seq<Call>, n: nat): real
    requires l.Valid() && n < |calls|
  {
    Refill(l, Before(l, b, calls, n), calls[n].time)
  }

  predicate Allowed(l: Limits, b: Option<BucketState>, calls: seq<Call>, n: nat)
    requires l.Valid() && n < |calls|
  {
    Admit(l, Before(l, b, calls, n), calls[n].time, calls[n].cost).1.allowed
  }

  /** Cost granted by calls i..n-1. */
  function Spent(l: Limits, b: Option<BucketState>, calls: seq<Call>, i: nat, n: nat): real
    requires l.Valid() && i <= n <= |calls|
  {
    if i == n then 0.0
    else Spent(l, b, calls, i, n - 1) + if Allowed(l, b, calls, n - 1) then calls[n - 1].cost else 0.0
  }

  /** Sum of the positive increments between the consecutive readings of calls i..n. */
  function Elapsed(calls: seq<Call>, i: nat, n: nat): (e: real)
    requires i <= n < |calls|
    ensures e >= 0.0
  {
    if i == n then 0.0
    else Elapsed(calls, i, n - 1) + Positive(calls[n].time - calls[n - 1].time)
  }

  /** Tokens such a bucket would gain from call i to call n, one increment at a time. */
  function Credit(l: Limits, calls: seq<Call>, i: nat, n: nat): real
    requires i <= n < |calls|
  {
    if i == n then 0.0
    else Credit(l, calls, i, n - 1) + Gain(l, calls[n - 1].time, calls[n].time)
  }

  lemma {:induction false} CreditIsRateTimesElapsed(l: Limits, calls: seq<Call>, i: nat, n: nat)
    requires i <= n < |calls|
    ensures Credit(l, calls, i, n) == Scale(l.rate, Elapsed(calls, i, n))
  {
    if i < n {
      CreditIsRateTimesElapsed(l, calls, i, n - 1);
      Distribute(l.rate, Elapsed(calls, i, n - 1), Positive(calls[n].time - calls[n - 1].time));
    }
  }

  /** What the window rule still lets call `n` spend, judged from start `i`. */
  function Slack(l: Limits, b: Option<BucketState>, calls: seq<Call>, i: nat, n: nat): real
    requires l.Valid() && i <= n < |calls|
  {
    l.capacity + Credit(l, calls, i, n) - Spent(l, b, calls, i, n)
  }

  ghost predicate Nondecreasing(calls: seq<Call>) {
    forall j, k :: 0 <= j <= k < |calls| ==> calls[j].time <= calls[k].time
  }

  /** No window's slack is ever below the tokens, whatever bucket the run starts from. */
  lemma {:induction false} TokensBelowEverySlack(l: Limits, b: Option<BucketState>, calls: seq<Call>, i: nat, n: nat)
    requires l.Valid() && i <= n < |calls|
    ensures Available(l, b, calls, n) <= Slack(l, b, calls, i, n)
  {
    if i < n {
      TokensBelowEverySlack(l, b, calls, i, n - 1);
    }
  }

  /** From a fresh bucket, the tokens equal one of the slacks; the witness is the last refill that hit the cap. */
  lemma {:induction false} TokensMeetASlack(l: Limits, calls: seq<Call>, n: nat) returns (i: nat)
    requires l.Valid() && n < |calls|
    ensures i <= n && Available(l, None, calls, n) == Slack(l, None, calls, i, n)
  {
    i := n;
    if n > 0 && Available(l, None, calls, n) != l.capacity {
      i := TokensMeetASlack(l, calls, n - 1);
    }
  }

  /** Letting call `n` through keeps the window from call `i` under capacity plus rate times elapsed time. */
  ghost predicate Fits(l: Limits, b: Option<BucketState>, calls: seq<Call>, i: nat, n: nat)
    requires l.Valid() && i <= n < |calls|
  {
    Spent(l, b, calls, i, n) + calls[n].cost <= l.capacity + Scale(l.rate, Elapsed(calls, i, n))
  }

  /**
    The constant-time bucket refines the all-windows rule for any readings: a call is allowed exactly
    when every window ending at it stays under capacity plus rate times elapsed time, and the tokens
    are the minimum of the windows' slacks.
   */
  lemma BucketRefinesAllWindows(l: Limits, calls: seq<Call>, n: nat)
    requires l.Valid() && n < |calls|
    ensures Allowed(l, None, calls, n) <==>
            forall i :: 0 <= i <= n ==> Fits(l, None, calls, i, n)
    ensures forall i :: 0 <= i <= n ==> Available(l, None, calls, n) <= Slack(l, None, calls, i, n)
    ensures exists i :: 0 <= i <= n && Available(l, None, calls, n) == Slack(l, None, calls, i, n)
  {
    hide Scale;
    forall i | 0 <= i <= n
      ensures Available(l, None, calls, n) <= Slack(l, None, calls, i, n)
      ensures Fits(l, None, calls, i, n) <==> calls[n].cost <= Slack(l, None, calls, i, n)
    {
      TokensBelowEverySlack(l, None, calls, i, n);
      CreditIsRateTimesElapsed(l, calls, i, n);
    }
    var w := TokensMeetASlack(l, calls, n);
    assert Fits(l, None, calls, w, n) <==> Allowed(l, None, calls, n);
  }

  lemma {:induction false} ElapsedIsDifference(calls: seq<Call>, i: nat, n: nat)
    requires Nondecreasing(calls) && i <= n < |calls|
    ensures Elapsed(calls, i, n) == calls[n].time - calls[i].time
  {
    if i < n {
      ElapsedIsDifference(calls, i, n - 1);
    }
  }

  ghost predicate FitsOnAClock(l: Limits, calls: seq<Call>, i: nat, n: nat)
    requires l.Valid() && i <= n < |calls|
  {
    Spent(l, None, calls, i, n) + calls[n].cost <= l.capacity + Scale(l.rate, calls[n].time - calls[i].time)
  }

  /** The same rule on a nondecreasing clock, with elapsed time as a difference of readings. */
  lemma BucketRefinesWindowRuleOnAClock(l: Limits, calls: seq<Call>, n: nat)
    requires l.Valid() && n < |calls| && Nondecreasing(calls)
    ensures Allowed(l, None, calls, n) <==> forall i :: 0 <= i <= n ==> FitsOnAClock(l, calls, i, n)
  {
    hide Scale;
    forall i | 0 <= i <= n
      ensures Fits(l, None, calls, i, n) <==> FitsOnAClock(l, calls, i, n)
    {
      ElapsedIsDifference(calls, i, n);
    }
    BucketRefinesAllWindows(l, calls, n);
  }

  ghost predicate InRange(l: Limits, b: Option<BucketState>) {
    b.Some? ==> 0.0 <= b.value.tokens <= l.capacity
  }

  ghost predicate CostsNonNegative(calls: seq<Call>) {
    forall k :: 0 <= k < |calls| ==> calls[k].cost >= 0.0
  }

  lemma {:induction false} TokensStayInRange(l: Limits, b: Option<BucketState>, calls: seq<Call>, n: nat)
    requires l.Valid() && InRange(l, b) && CostsNonNegative(calls) && n <= |calls|
    ensures InRange(l, Before(l, b, calls, n))
  {
    if n > 0 {
      TokensStayInRange(l, b, calls, n - 1);
      var before := Before(l, b, calls, n - 1);
      if before.Some? {
        ScaleOrder(l.rate, 0.0, Positive(calls[n - 1].time - before.value.updatedAt));
      }
    }
  }

  /**
    Safety without a monotone clock: in any stretch of calls, from any bucket in range, the cost
    granted is at most capacity plus rate times the positive increments of the readings.
   */
  lemma StretchBound(l: Limits, b: Option<BucketState>, calls: seq<Call>, i: nat, n: nat)
    requires l.Valid() && InRange(l, b) && CostsNonNegative(calls) && i < n <= |calls|
    ensures Spent(l, b, calls, i, n) <= l.capacity + Scale(l.rate, Elapsed(calls, i, n - 1))
  {
    hide Scale;
    CreditIsRateTimesElapsed(l, calls, i, n - 1);
    TokensBelowEverySlack(l, b, calls, i, n - 1);
    TokensStayInRange(l, b, calls, n);
    TokensStayInRange(l, b, calls, n - 1);
  }

  // ---------- Greedy admission ----------

  /** Calls of cost one, admitted by a chooser instead of by the limiter. */
  function BeforeChoice(l: Limits, b: Option<BucketState>, times: seq<real>, choice: seq<bool>, n: nat)
    : Option<BucketState>
    requires l.Valid() && n <= |times| == |choice|
  {
    if n == 0 then b
    else
      var tokens := Refill(l, BeforeChoice(l, b, times, choice, n - 1), times[n - 1]);
      Some(BucketState(tokens - if choice[n - 1] then 1.0 else 0.0, times[n - 1]))
  }

  /** The chooser admits only what its own bucket can pay for. */
  ghost predicate Respects(l: Limits, b: Option<BucketState>, times: seq<real>, choice: seq<bool>)
    requires l.Valid() && |times| == |choice|
  {
    forall n :: 0 <= n < |times| && choice[n] ==> 1.0 <= Refill(l, BeforeChoice(l, b, times, choice, n), times[n])
  }

  function UnitCalls(times: seq<real>): seq<Call> {
    seq(|times|, k requires 0 <= k < |times| => Call(times[k], 1.0))
  }

  function Chosen(choice: seq<bool>, n: nat): nat
    requires n <= |choice|
  {
    if n == 0 then 0 else Chosen(choice, n - 1) + if choice[n - 1] then 1 else 0
  }

  function Granted(l: Limits, b: Option<BucketState>, times: seq<real>, n: nat): nat
    requires l.Valid() && n <= |times|
  {
    if n == 0 then 0
    else Granted(l, b, times, n - 1) + if Allowed(l, b, UnitCalls(times), n - 1) then 1 else 0
  }

  /** Greedy is not behind, and what it has granted plus what it holds is not less. */
  ghost predicate NotBehind(greedy: Option<BucketState>, chooser: Option<BucketState>, granted: nat, chosen: nat) {
    && chosen <= granted
    && greedy.Some? == chooser.Some?
    && (greedy.None? ==> chosen == granted)
    && (greedy.Some? ==>
          && greedy.value.updatedAt == chooser.value.updatedAt
          && chooser.value.tokens + chosen as real <= greedy.value.tokens + granted as real)
  }

  lemma NotBehindAfterOneMore(l: Limits, greedy: Option<BucketState>, chooser: Option<BucketState>, granted: nat,
                              chosen: nat, now: real, picks: bool)
    requires l.Valid() && NotBehind(greedy, chooser, granted, chosen)
    requires picks ==> 1.0 <= Refill(l, chooser, now)
    ensures var (bucket, verdict) := Admit(l, greedy, now, 1.0);
            var left := Refill(l, chooser, now) - if picks then 1.0 else 0.0;
            NotBehind(Some(bucket), Some(BucketState(left, now)), granted + if verdict.allowed then 1 else 0,
                      chosen + if picks then 1 else 0)
  {
    hide Scale, Wait;
  }

  lemma {:induction false} GreedyNeverBehind(l: Limits, b: Option<BucketState>, times: seq<real>, choice: seq<bool>,
                                             n: nat)
    requires l.Valid() && n <= |times| == |choice| && Respects(l, b, times, choice)
    ensures NotBehind(Before(l, b, UnitCalls(times), n), BeforeChoice(l, b, times, choice, n),
                      Granted(l, b, times, n), Chosen(choice, n))
  {
    hide Admit, Refill, NotBehind;
    if n == 0 {
      StartsLevel(b);
    } else {
      GreedyNeverBehind(l, b, times, choice, n - 1);
      NotBehindAfterOneMore(l, Before(l, b, UnitCalls(times), n - 1), BeforeChoice(l, b, times, choice, n - 1),
                            Granted(l, b, times, n - 1), Chosen(choice, n - 1), times[n - 1], choice[n - 1]);
    }
  }

  lemma StartsLevel(b: Option<BucketState>)
    ensures NotBehind(b, b, 0, 0)
  {
  }

  /** No admission choice that respects the same bucket grants more unit calls, after any prefix. */
  lemma GreedyIsOptimal(l: Limits, b: Option<BucketState>, times: seq<real>, choice: seq<bool>)
    requires l.Valid() && |times| == |choice| && Respects(l, b, times, choice)
    ensures forall n :: 0 <= n <= |times| ==> Chosen(choice, n) <= Granted(l, b, times, n)
  {
    hide Chosen, Granted, Respects;
    forall n | 0 <= n <= |times|
      ensures Chosen(choice, n) <= Granted(l, b, times, n)
    {
      GreedyNeverBehind(l, b, times, choice, n);
    }
  }

  // ---------- Polling after a denial ----------

  /** Polls made after a reading, in time order, every one of them denied. */
  ghost predicate DeniedPolls(l: Limits, b: BucketState, polls: seq<Call>)
    requires l.Valid()
  {
    && Nondecreasing(polls)
    && (forall k :: 0 <= k < |polls| ==> b.updatedAt <= polls[k].time)
    && (forall k :: 0 <= k < |polls| ==> !Allowed(l, Some(b), polls, k))
  }

  /** Stepwise capped refill over denied polls equals one capped refill. */
  lemma {:induction false} PollsCompose(l: Limits, b: BucketState, polls: seq<Call>, n: nat, t: real)
    requires l.Valid() && b.tokens <= l.capacity && DeniedPolls(l, b, polls) && n <= |polls|
    requires b.updatedAt <= t && (n > 0 ==> polls[n - 1].time <= t)
    ensures Refill(l, Before(l, Some(b), polls, n), t) == Refill(l, Some(b), t)
  {
    hide Scale;
    if n > 0 {
      var last := polls[n - 1].time;
      PollsCompose(l, b, polls, n - 1, last);
      assert !Allowed(l, Some(b), polls, n - 1);
      Distribute(l.rate, last - b.updatedAt, t - last);
      ScaleOrder(l.rate, 0.0, t - last);
    }
  }

  /**
    The hint is exact: after a denial, however many denied polls intervene, a call of the same cost is
    allowed exactly from `now + retryAfter` on, provided the bucket can ever hold that much.
   */
  lemma RetryAfterIsExact(l: Limits, was: Option<BucketState>, now: real, cost: real, polls: seq<Call>, t: real)
    requires l.Valid()
    requires !Admit(l, was, now, cost).1.allowed
    requires DeniedPolls(l, Admit(l, was, now, cost).0, polls)
    requires now <= t && (polls != [] ==> polls[|polls| - 1].time <= t)
    ensures var (bucket, verdict) := Admit(l, was, now, cost);
            Admit(l, Before(l, Some(bucket), polls, |polls|), t, cost).1.allowed <==>
            cost <= l.capacity && now + verdict.retryAfter <= t
  {
    hide Scale;
    var (bucket, verdict) := Admit(l, was, now, cost);
    PollsCompose(l, bucket, polls, |polls|, t);
    var missing := cost - bucket.tokens;
    ScaleOfWait(l.rate, missing);
    ScaleOrder(l.rate, verdict.retryAfter, t - now);
  }
}
