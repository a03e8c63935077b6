/** The gateway's token bucket: how many requests it can let through, and which it must. */
module RateLimiter {
  import opened Basics


  datatype Bucket = Bucket(tokens: real, lastRefill: real)

  type Buckets = map<string, Bucket>

  /** A call of `check`: the tenant's burst size, what a span of time earns it, and the clock,
      which is read once. */
  datatype Request = Request(tenant: string, rate: nat, earn: real -> real, now: real)

  /** What time earns when `rate` tokens come in every window. */
  function Earner(rate: nat, window: nat): real -> real
    requires window >= 1
  {
    (elapsed: real) => elapsed * rate as real / window as real
  }

  ghost predicate Adds(earn: real -> real, a: real, b: real) {
    earn(a + b) == earn(a) + earn(b) && (a >= 0.0 ==> earn(a) >= 0.0)
  }

  /** All the bounds need of the earnings: spans add up, and none is negative. */
  ghost predicate Steady(earn: real -> real) {
    forall a, b :: Adds(earn, a, b)
  }

  lemma EarnerIsSteady(rate: nat, window: nat)
    requires window >= 1
    ensures Steady(Earner(rate, window))
  {
    var earn := Earner(rate, window);
    forall a, b
      ensures Adds(earn, a, b)
    {
      assert (a + b) * rate as real == a * rate as real + b * rate as real;
    }
  }

  /** What a tenant's bucket holds at a time: a new tenant's is full. */
  function Level(bs: Buckets, tenant: string, rate: nat, earn: real -> real, now: real): real {
    if tenant !in bs then rate as real
    else Capped(bs[tenant].tokens + earn(now - bs[tenant].lastRefill), rate)
  }

  function Capped(tokens: real, rate: nat): real {
    if tokens < rate as real then tokens else rate as real
  }

  predicate Grants(bs: Buckets, q: Request) {
    Level(bs, q.tenant, q.rate, q.earn, q.now) >= 1.0
  }

  function Next(bs: Buckets, q: Request): Buckets {
    var level := Level(bs, q.tenant, q.rate, q.earn, q.now);
    bs[q.tenant := Bucket(if level >= 1.0 then level - 1.0 else level, q.now)]
  }

  class RateLimiter {
    var buckets: Buckets

    constructor ()
      ensures buckets == map[]
    {
      buckets := map[];
    }

    /** `check`: refill for the time passed, up to the rate, then take one token if there is one. */
    method Check(tenant: string, rate: nat, window: nat, now: real) returns (allowed: bool, remaining: int)
      requires rate >= 1 && window >= 1
      modifies this
      ensures var q := Request(tenant, rate, Earner(rate, window), now);
              allowed == Grants(old(buckets), q) && buckets == Next(old(buckets), q)
      ensures remaining == buckets[tenant].tokens.Floor
    {
      var earn := Earner(rate, window);
      EarnerIsSteady(rate, window);
      assert Adds(earn, 0.0, 0.0);
      if tenant !in buckets {
        buckets := buckets[tenant := Bucket(rate as real, now)];
      }
      var b := buckets[tenant];
      b := Bucket(Capped(b.tokens + earn(now - b.lastRefill), rate), now);
      allowed := b.tokens >= 1.0;
      if allowed {
        b := b.(tokens := b.tokens - 1.0);
      }
      buckets := buckets[tenant := b];
      remaining := b.tokens.Floor;
    }
  }

  // ---------------------------------------------------------------- Runs

  /** Calls in time order, where the tenant always has the same plan. */
  ghost predicate Orderly(reqs: seq<Request>, tenant: string, rate: nat, earn: real -> real, from: real) {
    && (forall q | q in reqs :: q.now >= from)
    && (forall q | q in reqs && q.tenant == tenant :: q.rate == rate && q.earn == earn)
    && (forall i, k | 0 <= i <= k < |reqs| :: reqs[i].now <= reqs[k].now)
  }

  ghost predicate Within(bs: Buckets, tenant: string, rate: nat, from: real) {
    tenant in bs ==> 0.0 <= bs[tenant].tokens <= rate as real && bs[tenant].lastRefill <= from
  }

  lemma OrderlyTail(reqs: seq<Request>, tenant: string, rate: nat, earn: real -> real, from: real)
    requires Orderly(reqs, tenant, rate, earn, from) && reqs != []
    ensures Orderly(reqs[1..], tenant, rate, earn, reqs[0].now)
  {
    forall q | q in reqs[1..]
      ensures q in reqs && q.now >= reqs[0].now
    {}
  }

  lemma OrderlySlice(reqs: seq<Request>, i: nat, k: nat, tenant: string, rate: nat, earn: real -> real, from: real)
    requires Orderly(reqs, tenant, rate, earn, from) && i < k <= |reqs|
    ensures Orderly(reqs[..i], tenant, rate, earn, from)
    ensures Orderly(reqs[i..k], tenant, rate, earn, reqs[i].now) && from <= reqs[i].now
    ensures i > 0 ==> reqs[i - 1].now <= reqs[i].now
    ensures forall q | q in reqs[i..k] :: q.now <= reqs[k - 1].now
  {
    assert forall q | q in reqs[..i] :: q in reqs;
    assert forall q | q in reqs[i..k] :: q in reqs && reqs[i].now <= q.now <= reqs[k - 1].now;
  }

  function After(bs: Buckets, reqs: seq<Request>): Buckets
    decreases |reqs|
  {
    if reqs == [] then bs else After(Next(bs, reqs[0]), reqs[1..])
  }

  /** How many of a tenant's requests are let through. */
  function Granted(bs: Buckets, reqs: seq<Request>, tenant: string): nat
    decreases |reqs|
  {
    if reqs == [] then 0
    else (if reqs[0].tenant == tenant && Grants(bs, reqs[0]) then 1 else 0) + Granted(Next(bs, reqs[0]), reqs[1..], tenant)
  }

  /** Tokens stay between nothing and the rate, whoever else is calling. */
  lemma StaysWithin(bs: Buckets, q: Request, tenant: string, rate: nat, earn: real -> real, from: real)
    requires Steady(earn) && q.now >= from && Within(bs, tenant, rate, from) && rate >= 1
    requires q.tenant == tenant ==> q.rate == rate && q.earn == earn
    ensures Within(Next(bs, q), tenant, rate, q.now)
  {
    if q.tenant == tenant && tenant in bs {
      assert Adds(earn, q.now - bs[tenant].lastRefill, 0.0);
    }
  }

  lemma {:induction false} TokensStayWithin(bs: Buckets, reqs: seq<Request>, tenant: string, rate: nat, earn: real -> real, from: real)
    requires Steady(earn) && Orderly(reqs, tenant, rate, earn, from) && Within(bs, tenant, rate, from) && rate >= 1
    ensures Within(After(bs, reqs), tenant, rate, if reqs == [] then from else reqs[|reqs| - 1].now)
    decreases |reqs|
  {
    if reqs != [] {
      OrderlyTail(reqs, tenant, rate, earn, from);
      assert reqs[0] in reqs;
      StaysWithin(bs, reqs[0], tenant, rate, earn, from);
      TokensStayWithin(Next(bs, reqs[0]), reqs[1..], tenant, rate, earn, reqs[0].now);
    }
  }

  /** What a bucket holds later was there or has been earned since. */
  lemma LevelLater(bs: Buckets, tenant: string, rate: nat, earn: real -> real, from: real, now: real)
    requires from <= now && Steady(earn) && Within(bs, tenant, rate, from)
    ensures Level(bs, tenant, rate, earn, now) <= Level(bs, tenant, rate, earn, from) + earn(now - from)
    ensures 0.0 <= Level(bs, tenant, rate, earn, from) <= rate as real
  {
    assert Adds(earn, now - from, 0.0);
    if tenant in bs {
      var past := from - bs[tenant].lastRefill;
      assert Adds(earn, past, now - from);
      assert past + (now - from) == now - bs[tenant].lastRefill;
    }
  }

  /** A call takes exactly the token it grants, and only from its own tenant. */
  lemma CallTakes(bs: Buckets, q: Request, tenant: string, rate: nat, earn: real -> real)
    requires Steady(earn) && (q.tenant == tenant ==> q.rate == rate && q.earn == earn)
    ensures Level(Next(bs, q), tenant, rate, earn, q.now)
         == Level(bs, tenant, rate, earn, q.now) - if q.tenant == tenant && Grants(bs, q) then 1.0 else 0.0
  {
    assert Adds(earn, 0.0, 0.0);
    assert q.now - q.now == 0.0;
  }

  lemma CallPays(bs: Buckets, q: Request, tenant: string, rate: nat, earn: real -> real, from: real, until: real)
    requires Steady(earn) && Within(bs, tenant, rate, from) && rate >= 1 && from <= q.now
    requires q.tenant == tenant ==> q.rate == rate && q.earn == earn
    ensures Within(Next(bs, q), tenant, rate, q.now)
    ensures (if q.tenant == tenant && Grants(bs, q) then 1.0 else 0.0)
            + Level(Next(bs, q), tenant, rate, earn, q.now) + earn(until - q.now)
            <= Level(bs, tenant, rate, earn, from) + earn(until - from)
  {
    StaysWithin(bs, q, tenant, rate, earn, from);
    LevelLater(bs, tenant, rate, earn, from, q.now);
    CallTakes(bs, q, tenant, rate, earn);
    assert Adds(earn, q.now - from, until - q.now);
    assert (q.now - from) + (until - q.now) == until - from;
  }

  lemma FirstAndRest(hit: bool, rest: nat)
    ensures ((if hit then 1 else 0) + rest) as real == (if hit then 1.0 else 0.0) + rest as real
  {}

  lemma {:induction false} GrantsArePaid(bs: Buckets, reqs: seq<Request>, tenant: string, rate: nat, earn: real -> real, from: real, until: real)
    requires Steady(earn) && Orderly(reqs, tenant, rate, earn, from) && Within(bs, tenant, rate, from) && rate >= 1
    requires from <= until && forall q | q in reqs :: q.now <= until
    ensures Granted(bs, reqs, tenant) as real <= Level(bs, tenant, rate, earn, from) + earn(until - from)
    decreases |reqs|
  {
    if reqs == [] {
      assert Adds(earn, until - from, 0.0);
      LevelLater(bs, tenant, rate, earn, from, from);
    } else {
      var q := reqs[0];
      OrderlyTail(reqs, tenant, rate, earn, from);
      assert q in reqs && forall p | p in reqs[1..] :: p in reqs;
      CallPays(bs, q, tenant, rate, earn, from, until);
      GrantsArePaid(Next(bs, q), reqs[1..], tenant, rate, earn, q.now, until);
      FirstAndRest(q.tenant == tenant && Grants(bs, q), Granted(Next(bs, q), reqs[1..], tenant));
    }
  }

  /** In any interval, whatever happened before it and whoever else calls, a tenant gets at most
      its rate plus what the interval earns. */
  lemma IntervalBound(bs: Buckets, reqs: seq<Request>, i: nat, k: nat, tenant: string, rate: nat, earn: real -> real, from: real, length: real)
    requires Steady(earn) && rate >= 1
    requires Orderly(reqs, tenant, rate, earn, from) && Within(bs, tenant, rate, from)
    requires i < k <= |reqs| && reqs[k - 1].now <= reqs[i].now + length
    ensures Granted(After(bs, reqs[..i]), reqs[i..k], tenant) as real <= rate as real + earn(length)
  {
    var start := reqs[i].now;
    var mid := After(bs, reqs[..i]);
    OrderlySlice(reqs, i, k, tenant, rate, earn, from);
    TokensStayWithin(bs, reqs[..i], tenant, rate, earn, from);
    GrantsArePaid(mid, reqs[i..k], tenant, rate, earn, start, start + length);
    LevelLater(mid, tenant, rate, earn, start, start);
    assert start + length - start == length;
  }

  /** The same with the limiter's own earnings, T * R / W for an interval of length T. */
  lemma BurstBound(bs: Buckets, reqs: seq<Request>, i: nat, k: nat, tenant: string, rate: nat, window: nat, from: real, length: real)
    requires rate >= 1 && window >= 1
    requires Orderly(reqs, tenant, rate, Earner(rate, window), from) && Within(bs, tenant, rate, from)
    requires i < k <= |reqs| && reqs[k - 1].now <= reqs[i].now + length
    ensures Granted(After(bs, reqs[..i]), reqs[i..k], tenant) as real <= rate as real + Earner(rate, window)(length)
  {
    EarnerIsSteady(rate, window);
    IntervalBound(bs, reqs, i, k, tenant, rate, Earner(rate, window), from, length);
  }

  /** The other side: a request that comes when the time since the tenant's last one has earned a
      token, W / R seconds, is always let through. */
  lemma SpacedRequestsPass(bs: Buckets, tenant: string, rate: nat, window: nat, now: real)
    requires rate >= 1 && window >= 1
    requires tenant in bs ==> bs[tenant].tokens >= 0.0
                              && (now - bs[tenant].lastRefill) * rate as real >= window as real
    ensures Grants(bs, Request(tenant, rate, Earner(rate, window), now))
  {
    if tenant in bs { Quotient((now - bs[tenant].lastRefill) * rate as real, window); }
  }

  lemma Quotient(x: real, window: nat)
    requires window >= 1 && x >= window as real
    ensures x / window as real >= 1.0
  {}

  lemma SameMoment(bs: Buckets, q: Request)
    requires Steady(q.earn) && q.rate >= 1 && 0.0 <= Level(bs, q.tenant, q.rate, q.earn, q.now)
    ensures var (now, then_) := (Level(bs, q.tenant, q.rate, q.earn, q.now), Level(Next(bs, q), q.tenant, q.rate, q.earn, q.now));
            then_ == if now >= 1.0 then now - 1.0 else now
  {
    assert Adds(q.earn, 0.0, 0.0);
    assert q.now - q.now == 0.0;
  }

  /** Of any number of requests at one moment, as many pass as the bucket holds whole tokens. */
  lemma {:induction false} BurstGrants(bs: Buckets, q: Request, m: nat)
    requires Steady(q.earn) && q.rate >= 1 && 0.0 <= Level(bs, q.tenant, q.rate, q.earn, q.now)
    ensures Granted(bs, seq(m, _ => q), q.tenant) == Min(m, Level(bs, q.tenant, q.rate, q.earn, q.now).Floor)
    decreases m
  {
    if m > 0 {
      assert seq(m, _ => q)[1..] == seq(m - 1, _ => q);
      SameMoment(bs, q);
      BurstGrants(Next(bs, q), q, m - 1);
    }
  }

  /** Tokens left and earned since, but never more than the rate. */
  function Held(tokens: real, idle: real, rate: nat, window: nat): real
    requires window >= 1
  {
    var earned := idle * rate as real / window as real;
    if tokens + earned < rate as real then tokens + earned else rate as real
  }

  lemma LevelIsHeld(bs: Buckets, tenant: string, rate: nat, window: nat, now: real)
    requires window >= 1 && tenant in bs
    ensures Level(bs, tenant, rate, Earner(rate, window), now)
         == Held(bs[tenant].tokens, now - bs[tenant].lastRefill, rate, window)
  {}

  /** After an idle time, a burst passes up to the whole part of what was left and has been earned
      since, which is never more than the rate, and the next request is refused. */
  lemma BurstAfterIdle(bs: Buckets, tenant: string, rate: nat, window: nat, now: real, m: nat)
    requires rate >= 1 && window >= 1 && tenant in bs
    requires 0.0 <= bs[tenant].tokens <= rate as real && bs[tenant].lastRefill <= now
    ensures
      Granted(bs, seq(m, _ => Request(tenant, rate, Earner(rate, window), now)), tenant)
      == Min(m, Held(bs[tenant].tokens, now - bs[tenant].lastRefill, rate, window).Floor)
  {
    var q := Request(tenant, rate, Earner(rate, window), now);
    EarnerIsSteady(rate, window);
    LevelLater(bs, tenant, rate, q.earn, now, now);
    LevelIsHeld(bs, tenant, rate, window, now);
    BurstGrants(bs, q, m);
  }

  lemma FullAgain(tokens: real, idle: real, rate: nat, window: nat)
    requires rate >= 1 && window >= 1 && tokens >= 0.0 && idle >= window as real
    ensures Held(tokens, idle, rate, window) == rate as real
  {
    var (r, w) := (rate as real, window as real);
    assert idle * r >= w * r;
    QuotientAtLeast(idle * r, w, r);
  }

  lemma QuotientAtLeast(x: real, w: real, r: real)
    requires w > 0.0 && x >= w * r
    ensures x / w >= r
  {
    var q := x / w;
    assert q * w == x;
    if q < r { assert q * w < r * w; }
  }

  lemma WholeRate(bs: Buckets, q: Request, m: nat)
    requires Steady(q.earn) && q.rate >= 1 && Level(bs, q.tenant, q.rate, q.earn, q.now) == q.rate as real
    ensures Granted(bs, seq(m, _ => q), q.tenant) == Min(m, q.rate)
  {
    BurstGrants(bs, q, m);
  }

  lemma LevelIsWhole(bs: Buckets, tenant: string, rate: nat, window: nat, now: real)
    requires rate >= 1 && window >= 1
    requires tenant in bs ==> 0.0 <= bs[tenant].tokens && now - bs[tenant].lastRefill >= window as real
    ensures Level(bs, tenant, rate, Earner(rate, window), now) == rate as real
  {
    if tenant in bs {
      FullAgain(bs[tenant].tokens, now - bs[tenant].lastRefill, rate, window);
      LevelIsHeld(bs, tenant, rate, window, now);
    }
  }

  /** A full window of silence restores the whole rate; a new tenant has it from the start. */
  lemma SilenceRestoresRate(bs: Buckets, tenant: string, rate: nat, window: nat, now: real, m: nat)
    requires rate >= 1 && window >= 1
    requires tenant in bs ==> 0.0 <= bs[tenant].tokens && now - bs[tenant].lastRefill >= window as real
    ensures Granted(bs, seq(m, _ => Request(tenant, rate, Earner(rate, window), now)), tenant) == Min(m, rate)
  {
    EarnerIsSteady(rate, window);
    LevelIsWhole(bs, tenant, rate, window, now);
    WholeRate(bs, Request(tenant, rate, Earner(rate, window), now), m);
  }

  /** A burst from a bucket that holds n tokens passes n times and no more. */
  lemma {:induction false} BurstPasses(bs: Buckets, q: Request, n: nat)
    requires Steady(q.earn) && q.rate >= 1 && n <= q.rate
    requires q.tenant in bs ==> bs[q.tenant].lastRefill == q.now && bs[q.tenant].tokens == n as real
    requires q.tenant !in bs ==> n == q.rate
    ensures Granted(bs, seq(n, _ => q), q.tenant) == n
    ensures !Grants(After(bs, seq(n, _ => q)), q)
    decreases n
  {
    assert Adds(q.earn, 0.0, 0.0);
    assert q.now - q.now == 0.0;
    if n > 0 {
      assert seq(n, _ => q)[1..] == seq(n - 1, _ => q);
      BurstPasses(Next(bs, q), q, n - 1);
    }
  }
}
