/** The rate limiter of a session: a bucket of at most a hundred tokens, ten more a second. */
module Sessions {
  import opened Basics

  const TOKENS_REFILL_RATE := 10.0
  const MAX_TOKENS := 100
  const UINT64_LIMIT: nat := 0x1_0000_0000_0000_0000

  /** Tokens and the time of the last call, in seconds. */
  datatype Bucket = Bucket(tokens: nat, last: real)

  /** A request: when it came and what it costs. */
  datatype Request = Request(now: real, cost: nat)

  /** The refill, truncated to whole tokens, in 64-bit arithmetic. */
  function Refilled(b: Bucket, now: real): nat
    requires b.last <= now
  {
    Min(MAX_TOKENS, (b.tokens + ((now - b.last) * TOKENS_REFILL_RATE).Floor) % UINT64_LIMIT)
  }

  function Accepts(b: Bucket, r: Request): bool
    requires b.last <= r.now
  {
    Refilled(b, r.now) >= r.cost
  }

  function Spend(b: Bucket, r: Request): (b': Bucket)
    requires b.last <= r.now
    ensures b'.tokens <= MAX_TOKENS && b'.last == r.now
  {
    Bucket(if Accepts(b, r) then Refilled(b, r.now) - r.cost else Refilled(b, r.now), r.now)
  }

  predicate InOrder(last: real, requests: seq<Request>)
    decreases |requests|
  {
    requests == [] || (last <= requests[0].now && InOrder(requests[0].now, requests[1..]))
  }

  /** The cost let through. */
  function Accepted(b: Bucket, requests: seq<Request>): nat
    requires InOrder(b.last, requests)
    decreases |requests|
  {
    if requests == [] then 0
    else
      (if Accepts(b, requests[0]) then requests[0].cost else 0) + Accepted(Spend(b, requests[0]), requests[1..])
  }

  lemma SpendBound(b: Bucket, r: Request)
    requires b.last <= r.now
    ensures (if Accepts(b, r) then r.cost else 0) + Spend(b, r).tokens <= MAX_TOKENS
    ensures b.tokens <= MAX_TOKENS ==>
              ((if Accepts(b, r) then r.cost else 0) + Spend(b, r).tokens) as real <=
              b.tokens as real + (r.now - b.last) * TOKENS_REFILL_RATE
  {
  }

  lemma {:induction false} AcceptedFromNow(b: Bucket, requests: seq<Request>)
    requires InOrder(b.last, requests) && requests != [] && b.tokens <= MAX_TOKENS
    ensures Accepted(b, requests) as real <=
            b.tokens as real + (requests[|requests| - 1].now - b.last) * TOKENS_REFILL_RATE
    decreases |requests|
  {
    var r := requests[0];
    SpendBound(b, r);
    if |requests| > 1 {
      AcceptedFromNow(Spend(b, r), requests[1..]);
    }
  }

  /** Whatever the bucket holds before the first request, even uninitialised memory: over any run of
      requests the accepted cost is at most 100 tokens and 10 more for each second between the first
      and the last. */
  lemma AcceptedIsBounded(b: Bucket, requests: seq<Request>)
    requires InOrder(b.last, requests) && requests != []
    ensures Accepted(b, requests) as real <=
            MAX_TOKENS as real + (requests[|requests| - 1].now - requests[0].now) * TOKENS_REFILL_RATE
  {
    var r := requests[0];
    SpendBound(b, r);
    if |requests| > 1 {
      AcceptedFromNow(Spend(b, r), requests[1..]);
    }
  }

  /** The bound is reached: ten seconds of silence allow a burst of a hundred. */
  lemma SilenceRefills(b: Bucket, r: Request)
    requires b.tokens <= MAX_TOKENS && b.last + 10.0 <= r.now && r.now - b.last < 1_000_000_000.0
    ensures Accepts(b, r) <==> r.cost <= MAX_TOKENS
  {
    assert ((r.now - b.last) * TOKENS_REFILL_RATE).Floor >= 100;
    assert ((r.now - b.last) * TOKENS_REFILL_RATE).Floor < 100_000_000_000;
  }

  /** A request is accepted exactly when it costs at most a hundred and the tokens left, with ten more for
      each second since the last call, cover it. */
  lemma AcceptsIff(b: Bucket, r: Request)
    requires b.tokens <= 100 && b.last <= r.now < b.last + 1_000_000_000.0
    ensures Accepts(b, r) <==> r.cost <= 100 && r.cost as real <= b.tokens as real + (r.now - b.last) * 10.0
  {
    var refill := ((r.now - b.last) * TOKENS_REFILL_RATE).Floor;
    assert 0 <= refill < 100_000_000_000;
    assert r.cost <= b.tokens + refill <==> r.cost as real <= b.tokens as real + (r.now - b.last) * 10.0;
  }

  function Total(requests: seq<Request>): nat
    decreases |requests|
  {
    if requests == [] then 0 else requests[0].cost + Total(requests[1..])
  }

  /** Each request comes a tenth of a second or more after the last one for each token it costs. */
  predicate Patient(last: real, requests: seq<Request>)
    decreases |requests|
  {
    requests == [] ||
    (&& last + requests[0].cost as real / 10.0 <= requests[0].now < last + 1_000_000_000.0
     && requests[0].cost <= 100 && Patient(requests[0].now, requests[1..]))
  }

  /** A patient client is never refused. */
  lemma {:induction false} PatienceIsServed(b: Bucket, requests: seq<Request>)
    requires b.tokens <= 100 && InOrder(b.last, requests) && Patient(b.last, requests)
    ensures Accepted(b, requests) == Total(requests)
    decreases |requests|
  {
    if requests != [] {
      AcceptsIff(b, requests[0]);
      PatienceIsServed(Spend(b, requests[0]), requests[1..]);
    }
  }

  /** Each request comes less than a tenth of a second after the last one. */
  predicate Hasty(last: real, requests: seq<Request>)
    decreases |requests|
  {
    requests == [] || (last <= requests[0].now < last + 0.1 && Hasty(requests[0].now, requests[1..]))
  }

  /** Part of a token is lost at every call, so a client that never waits a tenth of a second gets no refill
      at all, however long it goes on: what is accepted was in the bucket at the start. */
  lemma {:induction false} HasteStarves(b: Bucket, requests: seq<Request>)
    requires b.tokens <= 100 && InOrder(b.last, requests) && Hasty(b.last, requests)
    ensures Accepted(b, requests) <= b.tokens
    decreases |requests|
  {
    if requests != [] {
      assert ((requests[0].now - b.last) * TOKENS_REFILL_RATE).Floor == 0;
      HasteStarves(Spend(b, requests[0]), requests[1..]);
    }
  }

  class Session {
    var tokens: nat
    var lastUpdate: real

    ghost function State(): Bucket
      reads this
    {
      Bucket(tokens, lastUpdate)
    }

    /** The source initialises neither the tokens nor the time. */
    constructor (tokens: nat, lastUpdate: real)
      ensures State() == Bucket(tokens, lastUpdate)
    {
      this.tokens, this.lastUpdate := tokens, lastUpdate;
    }

    method SpendTokens(now: real, cost: nat) returns (ok: bool)
      requires lastUpdate <= now
      modifies this
      ensures ok == Accepts(old(State()), Request(now, cost)) && State() == Spend(old(State()), Request(now, cost))
    {
      var elapsed := now - lastUpdate;
      tokens := Min(MAX_TOKENS, (tokens + (elapsed * TOKENS_REFILL_RATE).Floor) % UINT64_LIMIT);
      lastUpdate := now;
      ok := tokens >= cost;
      if ok {
        tokens := tokens - cost;
      }
    }
  }
}
