/** The research rate limiter and its caller's retry loop (talonx_brain/llm.py): a token bucket over
    real time, shared by any number of waiters. */
module TokenBucket {

  /** `rate` tokens a second up to `capacity`, both fixed by the permitted calls per minute. */
  datatype Limits = Limits(rate: real, capacity: real)

  function LimitsFor(perMinute: real): Limits {
    Limits(perMinute / 60.0, if perMinute >= 1.0 then perMinute else 1.0)
  }

  predicate Usable(l: Limits) { l.rate > 0.0 && l.capacity >= 1.0 }

  datatype Bucket = Bucket(tokens: real, last: real)

  function Min(a: real, b: real): real { if a <= b then a else b }

  /** Tokens that accrue in a stretch of time. */
  function Accrued(l: Limits, seconds: real): real { seconds * l.rate }

  lemma AccruedGrows(l: Limits, shorter: real, longer: real)
    requires l.rate > 0.0 && shorter <= longer
    ensures Accrued(l, shorter) <= Accrued(l, longer)
    ensures shorter >= 0.0 ==> Accrued(l, shorter) >= 0.0
  {
  }

  lemma AccruedSplits(l: Limits, x: real, y: real)
    ensures Accrued(l, x + y) == Accrued(l, x) + Accrued(l, y)
    ensures Accrued(l, 0.0) == 0.0
  {
  }

  function Refilled(l: Limits, b: Bucket, now: real): real { Min(l.capacity, b.tokens + Accrued(l, now - b.last)) }

  /** One pass through the critical section at `now`: a token is taken if a whole one is there. */
  predicate Granted(l: Limits, b: Bucket, now: real) { Refilled(l, b, now) >= 1.0 }

  function Tried(l: Limits, b: Bucket, now: real): Bucket {
    var tokens := Refilled(l, b, now);
    Bucket(if tokens >= 1.0 then tokens - 1.0 else tokens, now)
  }

  /** How long a waiter that was turned away sleeps before it tries again. */
  function Wait(l: Limits, b: Bucket): real
    requires l.rate > 0.0
  {
    (1.0 - b.tokens) / l.rate
  }

  predicate InRange(l: Limits, b: Bucket) { 0.0 <= b.tokens <= l.capacity }

  // -------------------------------------------------------- any number of waiters

  /** The lock serialises the tries of all waiters; their times never decrease. */
  ghost predicate Ordered(tries: seq<real>, start: real) {
    && (forall i :: 0 <= i < |tries| ==> start <= tries[i])
    && (forall i, j :: 0 <= i <= j < |tries| ==> tries[i] <= tries[j])
  }

  function After(l: Limits, b: Bucket, tries: seq<real>): Bucket {
    if tries == [] then b else Tried(l, After(l, b, tries[..|tries| - 1]), tries[|tries| - 1])
  }

  /** Grants among the tries from index `i` on. */
  function Grants(l: Limits, b: Bucket, tries: seq<real>, i: nat): nat {
    if |tries| <= i then 0
    else
      var front := tries[..|tries| - 1];
      Grants(l, b, front, i) + if Granted(l, After(l, b, front), tries[|tries| - 1]) then 1 else 0
  }

  lemma TriedInRange(l: Limits, b: Bucket, now: real)
    requires Usable(l) && InRange(l, b) && b.last <= now
    ensures InRange(l, Tried(l, b, now))
  {
    hide Accrued;
    AccruedGrows(l, 0.0, now - b.last);
    AccruedSplits(l, 0.0, 0.0);
  }

  lemma {:induction false} StaysInRange(l: Limits, b: Bucket, tries: seq<real>)
    requires Usable(l) && InRange(l, b) && Ordered(tries, b.last)
    ensures InRange(l, After(l, b, tries))
    ensures tries != [] ==> After(l, b, tries).last == tries[|tries| - 1]
  {
    if tries != [] {
      StaysInRange(l, b, tries[..|tries| - 1]);
      TriedInRange(l, After(l, b, tries[..|tries| - 1]), tries[|tries| - 1]);
    }
  }

  /** What has been granted since try `i`, plus what is left, never exceeds a full bucket plus the refill. */
  lemma {:induction false} GrantsArePaidFor(l: Limits, b: Bucket, tries: seq<real>, i: nat)
    requires Usable(l) && InRange(l, b) && Ordered(tries, b.last) && i < |tries|
    ensures
      Grants(l, b, tries, i) as real + After(l, b, tries).tokens
      <= l.capacity + Accrued(l, tries[|tries| - 1] - tries[i])
    decreases |tries|
  {
    hide Accrued;
    var front, now := tries[..|tries| - 1], tries[|tries| - 1];
    var before := After(l, b, front);
    StaysInRange(l, b, front);
    if |front| == i {
      assert Grants(l, b, front, i) == 0;
      AccruedSplits(l, 0.0, 0.0);
    } else {
      GrantsArePaidFor(l, b, front, i);
      AccruedSplits(l, before.last - tries[i], now - before.last);
      assert before.last == front[|front| - 1];
    }
  }

  /** In any window from `s` to `t` the grants are at most the capacity plus the rate times its length. */
  lemma WindowBound(l: Limits, b: Bucket, tries: seq<real>, i: nat, s: real, t: real)
    requires Usable(l) && InRange(l, b) && Ordered(tries, b.last) && i < |tries|
    requires s <= tries[i] && tries[|tries| - 1] <= t
    ensures Grants(l, b, tries, i) as real <= l.capacity + Accrued(l, t - s)
  {
    hide Accrued;
    GrantsArePaidFor(l, b, tries, i);
    StaysInRange(l, b, tries);
    AccruedGrows(l, tries[|tries| - 1] - tries[i], t - s);
  }

  /** With at least one call a minute permitted, no sixty seconds see more than twice that many. */
  lemma AtMostTwicePerMinute(perMinute: real, b: Bucket, tries: seq<real>, i: nat, s: real, t: real)
    requires perMinute >= 1.0
    requires var l := LimitsFor(perMinute); InRange(l, b) && Ordered(tries, b.last)
    requires i < |tries| && s <= tries[i] && tries[|tries| - 1] <= t && t - s <= 60.0
    ensures Grants(LimitsFor(perMinute), b, tries, i) as real <= 2.0 * perMinute
  {
    var l := LimitsFor(perMinute);
    MinuteOfRate(perMinute);
    hide Accrued, Grants;
    WindowBound(l, b, tries, i, s, t);
    AccruedGrows(l, t - s, 60.0);
  }

  lemma MinuteOfRate(perMinute: real)
    ensures Accrued(LimitsFor(perMinute), 60.0) == perMinute
  {
  }

  /** The bound cannot be improved to the nominal rate: a full bucket plus a minute's refill is granted
      within one minute. Two calls, at the start and the end of a minute, at one call a minute. */
  lemma TwiceIsReached()
    ensures
      var l, tries := LimitsFor(1.0), [0.0, 60.0];
      Grants(l, Bucket(l.capacity, 0.0), tries, 0) == 2
  {
  }

  // ------------------------------------------------------------------ a lone waiter

  lemma QuotientTimes(x: real, y: real)
    requires y > 0.0
    ensures (x / y) * y == x
  {
  }

  /** A waiter turned away that sleeps at least as long as it was told, with nobody in between, is served. */
  lemma SleepSuffices(l: Limits, b: Bucket, now: real, later: real)
    requires Usable(l) && InRange(l, b) && b.last <= now && !Granted(l, b, now)
    requires later >= now + Wait(l, Tried(l, b, now))
    ensures Granted(l, Tried(l, b, now), later)
  {
    var b' := Tried(l, b, now);
    QuotientTimes(1.0 - b'.tokens, l.rate);
    assert Accrued(l, Wait(l, b')) == 1.0 - b'.tokens;
    hide Accrued, Wait;
    AccruedGrows(l, Wait(l, b'), later - now);
  }

  lemma QuotientPositive(x: real, y: real)
    requires x > 0.0 && y > 0.0
    ensures x / y > 0.0
  {
  }

  class TokenBucket {
    const limits: Limits
    var tokens: real
    var last: real

    ghost function State(): Bucket
      reads this
    {
      Bucket(tokens, last)
    }

    ghost predicate Valid()
      reads this
    {
      Usable(limits) && InRange(limits, State())
    }

    constructor (perMinute: real, now: real)
      requires perMinute > 0.0
      ensures Valid() && limits == LimitsFor(perMinute) && State() == Bucket(limits.capacity, now)
    {
      limits := LimitsFor(perMinute);
      tokens := LimitsFor(perMinute).capacity;
      last := now;
    }

    /** The critical section: refill, then take a token or report how long to sleep. */
    method TryAcquire(now: real) returns (granted: bool, wait: real)
      requires Valid() && last <= now
      modifies this
      ensures Valid() && State() == Tried(limits, old(State()), now)
      ensures granted == Granted(limits, old(State()), now)
      ensures !granted ==> wait == Wait(limits, State()) && wait > 0.0
    {
      TriedInRange(limits, State(), now);
      ghost var was := State();
      var elapsed := now - last;
      last := now;
      tokens := Min(limits.capacity, tokens + elapsed * limits.rate);
      assert tokens == Refilled(limits, was, now);
      wait := 0.0;
      if tokens >= 1.0 {
        tokens := tokens - 1.0;
        return true, wait;
      }
      var deficit := 1.0 - tokens;
      wait := deficit / limits.rate;
      QuotientPositive(deficit, limits.rate);
      return false, wait;
    }

    /** Waits for a token while nobody else asks; a sleep may overrun but never falls short. */
    method Acquire(start: real, overrun: nat -> real) returns (at: real, sleeps: nat)
      requires Valid() && last <= start
      requires forall i :: overrun(i) >= 0.0
      modifies this
      ensures Valid() && last == at && at >= start
      ensures sleeps <= 1 && (sleeps == 0 <==> Granted(limits, old(State()), start))
    {
      at, sleeps := start, 0;
      ghost var was := State();
      var granted, wait := TryAcquire(at);
      while !granted
        invariant Valid() && last == at && at >= start
        invariant sleeps == 0 ==> granted == Granted(limits, was, start) && State() == Tried(limits, was, start) && at == start
        invariant sleeps > 0 ==> sleeps == 1 && granted && !Granted(limits, was, start)
        invariant !granted ==> wait == Wait(limits, State()) && wait > 0.0
        decreases if granted then 0 else 1
      {
        SleepSuffices(limits, was, at, at + wait + overrun(sleeps));
        at := at + wait + overrun(sleeps);
        sleeps := sleeps + 1;
        granted, wait := TryAcquire(at);
      }
    }
  }

  // -------------------------------------------------------------------- retrying

  /** Calls the model until one attempt succeeds or the retries are used up. `succeeds(k)` says whether
      call `k` would succeed. */
  method Generate(maxRetries: int, succeeds: nat -> bool) returns (ok: bool, calls: nat)
    ensures 1 <= calls <= (if maxRetries >= 0 then maxRetries else 0) + 1
    ensures forall k: nat :: k < calls - 1 ==> !succeeds(k)
    ensures ok == succeeds(calls - 1)
    ensures !ok ==> calls == (if maxRetries >= 0 then maxRetries else 0) + 1
  {
    var attempt := 0;
    calls := 0;
    while true
      invariant calls == attempt && (attempt == 0 || attempt <= maxRetries)
      invariant forall k: nat :: k < calls ==> !succeeds(k)
      decreases (if maxRetries >= 0 then maxRetries else 0) + 1 - attempt
    {
      calls := calls + 1;
      if succeeds(calls - 1) {
        return true, calls;
      }
      attempt := attempt + 1;
      if attempt > maxRetries {
        return false, calls;
      }
    }
  }
}
