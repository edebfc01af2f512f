/**
 The token bucket of control/app/middleware/rate_limit.py: the Lua script that
 refills, consumes and writes back one client's bucket, and the Retry-After hint.
 Times and tokens are reals; the client's clock and the expiry clock are one.
 */
module RateLimit {
  import opened Prelude

  /** The Redis hash of one client, and the moment its key expires. */
  datatype Bucket = Bucket(tokens: real, ts: real, expireAt: real)

  datatype Limits = Limits(capacity: real, rate: real)

  predicate Sane(l: Limits) {
    l.capacity >= 0.0 && l.rate > 0.0
  }

  function Ceil(x: real): (c: int)
    ensures x <= c as real < x + 1.0
  {
    if x == x.Floor as real then x.Floor else x.Floor + 1
  }

  function Min(a: real, b: real): real {
    if a <= b then a else b
  }

  function Max(a: real, b: real): real {
    if a >= b then a else b
  }

  /** `math.ceil(capacity / rate) + 1` */
  function Lifetime(l: Limits): (seconds: int)
    requires Sane(l)
    ensures l.capacity / l.rate + 1.0 <= seconds as real < l.capacity / l.rate + 2.0
  {
    Ceil(l.capacity / l.rate) + 1
  }

  /** HMGET: an expired key reads as absent. */
  function Live(stored: Option<Bucket>, now: real): Option<Bucket> {
    if stored.Some? && stored.value.expireAt <= now then None else stored
  }

  /** The tokens after the refill of a request at `now`. */
  function Refilled(l: Limits, seen: Option<Bucket>, now: real): real {
    if seen.None? then Min(l.capacity, l.capacity + 0.0 * l.rate)
    else Min(l.capacity, seen.value.tokens + Max(0.0, now - seen.value.ts) * l.rate)
  }

  function Allows(l: Limits, seen: Option<Bucket>, now: real): bool {
    Refilled(l, seen, now) >= 1.0
  }

  function Consumed(l: Limits, seen: Option<Bucket>, now: real): Bucket
    requires Sane(l)
  {
    var tokens := Refilled(l, seen, now);
    Bucket(if tokens >= 1.0 then tokens - 1.0 else tokens, now, now + Lifetime(l) as real)
  }

  class RateLimiter {
    const limits: Limits
    var stored: Option<Bucket>

    constructor (limits: Limits)
      ensures this.limits == limits && stored == None
    {
      this.limits := limits;
      stored := None;
    }

    /** One run of the script. */
    method Consume(now: real) returns (allowed: bool, remaining: int)
      requires Sane(limits)
      modifies this
      ensures allowed == Allows(limits, Live(old(stored), now), now)
      ensures stored == Some(Consumed(limits, Live(old(stored), now), now))
      ensures remaining == if allowed then stored.value.tokens.Floor else 0
    {
      var capacity, rate := limits.capacity, limits.rate;
      var tokens, last := capacity, now;
      if stored.Some? && !(stored.value.expireAt <= now) {
        tokens, last := stored.value.tokens, stored.value.ts;
      }
      var elapsed := Max(0.0, now - last);
      tokens := Min(capacity, tokens + elapsed * rate);
      last := now;
      if tokens >= 1.0 {
        tokens := tokens - 1.0;
        stored := Some(Bucket(tokens, last, now + Lifetime(limits) as real));
        return true, tokens.Floor;
      } else {
        stored := Some(Bucket(tokens, last, now + Lifetime(limits) as real));
        return false, 0;
      }
    }
  }

  // ---- Runs ----------------------------------------------------------------

  /** The stored bucket after requests at the given times; `expiring` tells whether keys expire. */
  function After(l: Limits, expiring: bool, times: seq<real>): Option<Bucket>
    requires Sane(l)
  {
    if times == [] then None
    else
      var now := times[|times| - 1];
      var stored := After(l, expiring, times[..|times| - 1]);
      Some(Consumed(l, if expiring then Live(stored, now) else stored, now))
  }

  /** Whether the i-th request is admitted. */
  function Admitted(l: Limits, expiring: bool, times: seq<real>, i: nat): bool
    requires Sane(l) && i < |times|
  {
    var stored := After(l, expiring, times[..i]);
    Allows(l, if expiring then Live(stored, times[i]) else stored, times[i])
  }

  predicate Monotone(times: seq<real>) {
    forall i, j | 0 <= i < j < |times| :: times[i] <= times[j]
  }

  lemma MulMono(a: real, b: real, r: real)
    requires a <= b && r >= 0.0
    ensures a * r <= b * r
  {
  }

  /** Tokens never leave [0, capacity], and the bucket carries the time of the last request. */
  lemma {:induction false} TokensInRange(l: Limits, expiring: bool, times: seq<real>)
    requires Sane(l) && times != []
    ensures var b := After(l, expiring, times);
            && b.Some? && 0.0 <= b.value.tokens <= l.capacity
            && b.value.ts == times[|times| - 1] && b.value.expireAt == b.value.ts + Lifetime(l) as real
  {
    var init, now := times[..|times| - 1], times[|times| - 1];
    if init != [] {
      TokensInRange(l, expiring, init);
      var b := After(l, expiring, init).value;
      MulMono(0.0, Max(0.0, now - b.ts), l.rate);
    }
  }

  lemma FullByExpiry(l: Limits, b: Bucket, now: real)
    requires Sane(l) && 0.0 <= b.tokens && b.ts + Lifetime(l) as real <= now
    ensures Refilled(l, Some(b), now) == l.capacity == Refilled(l, None, now)
  {
    assert l.capacity / l.rate <= now - b.ts;
    MulMono(l.capacity / l.rate, now - b.ts, l.rate);
  }

  /** Expiry is invisible: the stored bucket and every decision are those of keys that never expire. */
  lemma {:induction false} ExpiryInvisible(l: Limits, times: seq<real>)
    requires Sane(l)
    ensures After(l, true, times) == After(l, false, times)
    ensures forall i | 0 <= i < |times| :: Admitted(l, true, times, i) == Admitted(l, false, times, i)
  {
    if times != [] {
      var n := |times| - 1;
      var init, now := times[..n], times[n];
      ExpiryInvisible(l, init);
      if init != [] {
        TokensInRange(l, false, init);
        var b := After(l, false, init).value;
        if b.expireAt <= now {
          FullByExpiry(l, b, now);
        }
      }
      forall i | 0 <= i < |times| ensures Admitted(l, true, times, i) == Admitted(l, false, times, i) {
        if i < n {
          assert init[..i] == times[..i];
          assert Admitted(l, true, init, i) == Admitted(l, false, init, i);
        }
      }
    }
  }

  // ---- The window bound ----------------------------------------------------

  /** How many of the requests i, ..., j - 1 are admitted. */
  function AdmittedCount(l: Limits, times: seq<real>, i: nat, j: nat): (n: nat)
    requires Sane(l) && i <= j <= |times|
  {
    if i == j then 0
    else AdmittedCount(l, times, i, j - 1) + if Admitted(l, true, times, j - 1) then 1 else 0
  }

  lemma RequestStep(l: Limits, times: seq<real>, j: nat)
    requires Sane(l) && j < |times|
    ensures var before, now := After(l, false, times[..j]), times[j];
            && After(l, false, times[..j + 1]) == Some(Consumed(l, before, now))
            && Admitted(l, true, times, j) == Allows(l, before, now)
  {
    hide Consumed, Refilled, Allows, Lifetime;
    assert times[..j + 1][..j] == times[..j];
    ExpiryInvisible(l, times);
  }

  /** A full bucket, and what flows in over a time. */
  function Allowance(l: Limits, time: real): real {
    l.capacity + l.rate * time
  }

  /** How far the clock moved forward, step by step, from request `i` to request `j`. */
  function Forward(times: seq<real>, i: nat, j: nat): real
    requires i <= j < |times|
  {
    if i == j then 0.0 else Forward(times, i, j - 1) + Max(0.0, times[j] - times[j - 1])
  }

  /** Whatever the clock does, admissions plus the tokens left never exceed a full bucket plus what flowed in. */
  lemma {:induction false} Budget(l: Limits, times: seq<real>, i: nat, j: nat)
    requires Sane(l) && i <= j < |times|
    ensures var left := After(l, false, times[..j + 1]);
            && left.Some?
            && AdmittedCount(l, times, i, j + 1) as real + left.value.tokens
               <= Allowance(l, Forward(times, i, j))
  {
    hide Consumed, Refilled, Allows, Lifetime, After, Admitted, Live;
    RequestStep(l, times, j);
    var before, now := After(l, false, times[..j]), times[j];
    if j == i {
      assert AdmittedCount(l, times, i, i) == 0;
      FirstOfWindow(l, before, now);
      assert l.rate * Forward(times, i, j) == 0.0;
    } else {
      Budget(l, times, i, j - 1);
      TokensInRange(l, false, times[..j]);
      BudgetStep(l, before.value, now, AdmittedCount(l, times, i, j), Forward(times, i, j - 1));
    }
  }

  lemma FirstOfWindow(l: Limits, stored: Option<Bucket>, now: real)
    requires Sane(l)
    ensures (if Allows(l, stored, now) then 1.0 else 0.0) + Consumed(l, stored, now).tokens <= l.capacity
  {
  }

  lemma BudgetStep(l: Limits, b: Bucket, now: real, count: nat, forward: real)
    requires Sane(l)
    requires count as real + b.tokens <= Allowance(l, forward)
    ensures count as real + (if Allows(l, Some(b), now) then 1.0 else 0.0) + Consumed(l, Some(b), now).tokens
         <= Allowance(l, forward + Max(0.0, now - b.ts))
  {
    var step := Max(0.0, now - b.ts);
    assert l.rate * (forward + step) == l.rate * forward + step * l.rate;
  }

  /** Any window admits at most capacity + rate times the forward steps of the clock within it. */
  lemma ForwardBound(l: Limits, times: seq<real>, i: nat, j: nat)
    requires Sane(l) && i < j <= |times|
    ensures AdmittedCount(l, times, i, j) as real <= Allowance(l, Forward(times, i, j - 1))
  {
    hide Consumed, After, Admitted;
    Budget(l, times, i, j - 1);
    assert times[..j - 1 + 1] == times[..j];
    TokensInRange(l, false, times[..j]);
    assert AdmittedCount(l, times, i, j) as real <= Allowance(l, Forward(times, i, j - 1));
  }

  // ---- Exactly which requests are admitted ---------------------------------

  /** The tokens left are no fewer than the allowance of some window leaves: the one since the bucket was last full. */
  lemma {:induction false} Tight(l: Limits, times: seq<real>, j: nat) returns (i: nat)
    requires Sane(l) && j < |times|
    ensures i <= j && After(l, false, times[..j + 1]).Some?
    ensures AdmittedCount(l, times, i, j + 1) as real + After(l, false, times[..j + 1]).value.tokens
         == Allowance(l, Forward(times, i, j))
  {
    hide Consumed, Refilled, Allows, Lifetime, After, Admitted, Live;
    RequestStep(l, times, j);
    var before, now := After(l, false, times[..j]), times[j];
    if j == 0 {
      i := 0;
      NoRequests(l, times);
      WhenFull(l, before, now);
      assert AdmittedCount(l, times, 0, 0) == 0 && l.rate * Forward(times, 0, 0) == 0.0;
    } else {
      TokensInRange(l, false, times[..j]);
      var b := before.value;
      if b.tokens + Max(0.0, now - b.ts) * l.rate >= l.capacity {
        i := j;
        WhenFull(l, before, now);
        assert AdmittedCount(l, times, j, j) == 0 && l.rate * Forward(times, j, j) == 0.0;
      } else {
        i := Tight(l, times, j - 1);
        WhenFilling(l, b, now, AdmittedCount(l, times, i, j), Forward(times, i, j - 1));
      }
    }
  }

  lemma NoRequests(l: Limits, times: seq<real>)
    requires Sane(l)
    ensures After(l, false, times[..0]) == None
  {
  }

  lemma WhenFull(l: Limits, stored: Option<Bucket>, now: real)
    requires Sane(l)
    requires stored.Some? ==> stored.value.tokens + Max(0.0, now - stored.value.ts) * l.rate >= l.capacity
    ensures (if Allows(l, stored, now) then 1.0 else 0.0) + Consumed(l, stored, now).tokens == l.capacity
  {
  }

  lemma WhenFilling(l: Limits, b: Bucket, now: real, count: nat, forward: real)
    requires Sane(l) && count as real + b.tokens == Allowance(l, forward)
    requires b.tokens + Max(0.0, now - b.ts) * l.rate < l.capacity
    ensures count as real + (if Allows(l, Some(b), now) then 1.0 else 0.0) + Consumed(l, Some(b), now).tokens
         == Allowance(l, forward + Max(0.0, now - b.ts))
  {
    var step := Max(0.0, now - b.ts);
    assert l.rate * (forward + step) == l.rate * forward + step * l.rate;
  }

  /** Whatever the clock does, a request is admitted exactly when every window that ends with it stays within
      its allowance: no request is admitted beyond the bound, and none is refused below it. */
  lemma AdmittedIff(l: Limits, times: seq<real>, j: nat)
    requires Sane(l) && j < |times|
    ensures Admitted(l, true, times, j)
       <==> forall i: nat | i <= j :: AdmittedCount(l, times, i, j) as real + 1.0 <= Allowance(l, Forward(times, i, j))
  {
    hide Consumed, Refilled, Allows, Lifetime, After, Admitted, Live, Allowance, Forward;
    var left := After(l, false, times[..j + 1]);
    TokensInRange(l, false, times[..j + 1]);
    forall i: nat | i <= j
      ensures AdmittedCount(l, times, i, j + 1) as real + left.value.tokens <= Allowance(l, Forward(times, i, j))
    {
      Budget(l, times, i, j);
    }
    if !Admitted(l, true, times, j) {
      RefusedLeaves(l, times, j);
      var i := Tight(l, times, j);
      assert AdmittedCount(l, times, i, j + 1) == AdmittedCount(l, times, i, j);
    }
  }

  /** A refused request leaves less than a token. */
  lemma RefusedLeaves(l: Limits, times: seq<real>, j: nat)
    requires Sane(l) && j < |times| && !Admitted(l, true, times, j)
    ensures After(l, false, times[..j + 1]).Some? && After(l, false, times[..j + 1]).value.tokens < 1.0
  {
    RequestStep(l, times, j);
  }

  lemma {:induction false} CountWithin(l: Limits, times: seq<real>, i: nat, j: nat)
    requires Sane(l) && i <= j <= |times|
    ensures AdmittedCount(l, times, i, j) <= AdmittedCount(l, times, 0, j)
    decreases j - i
  {
    if i < j {
      CountWithin(l, times, i, j - 1);
    }
  }

  lemma {:induction false} ForwardNonNegative(times: seq<real>, i: nat, j: nat)
    requires i <= j < |times|
    ensures Forward(times, i, j) >= 0.0
    decreases j - i
  {
    if i < j {
      ForwardNonNegative(times, i, j - 1);
    }
  }

  /** A full bucket is there to be used: no client is refused before it was admitted that often. */
  lemma NotRefusedEarly(l: Limits, times: seq<real>, j: nat)
    requires Sane(l) && j < |times| && AdmittedCount(l, times, 0, j) as real + 1.0 <= l.capacity
    ensures Admitted(l, true, times, j)
  {
    hide AdmittedCount, Admitted, Forward;
    AdmittedIff(l, times, j);
    forall i: nat | i <= j
      ensures AdmittedCount(l, times, i, j) as real + 1.0 <= Allowance(l, Forward(times, i, j))
    {
      CountWithin(l, times, i, j);
      ForwardNonNegative(times, i, j);
      MulMono(0.0, Forward(times, i, j), l.rate);
    }
  }

  /** At one instant: after request `m`, as many more are admitted as whole tokens were left, and the rest refused. */
  lemma {:induction false} RemainingAdmitted(l: Limits, times: seq<real>, m: nat, j: nat)
    requires Sane(l) && m < j <= |times| && forall k | m < k < j :: times[k] == times[m]
    ensures var left, after := After(l, false, times[..m + 1]), After(l, false, times[..j]);
            var count := AdmittedCount(l, times, m + 1, j);
            && left.Some? && after.Some?
            && count == (if j - m - 1 <= left.value.tokens.Floor then j - m - 1 else left.value.tokens.Floor)
            && after.value.tokens == left.value.tokens - count as real && after.value.ts == times[m]
    decreases j
  {
    hide Lifetime, After, Admitted, Live;
    TokensInRange(l, false, times[..m + 1]);
    if m + 1 < j {
      RemainingAdmitted(l, times, m, j - 1);
      TokensInRange(l, false, times[..j - 1]);
      RequestStep(l, times, j - 1);
    }
  }

  /** A new client that sends all its requests at one instant has exactly the whole tokens of a full bucket admitted. */
  lemma InstantAdmits(l: Limits, times: seq<real>, j: nat)
    requires Sane(l) && 0 < j <= |times| && forall k | 0 <= k < j :: times[k] == times[0]
    ensures AdmittedCount(l, times, 0, j) == if j <= l.capacity.Floor then j else l.capacity.Floor
  {
    hide Lifetime, After, Admitted, Live;
    RemainingAdmitted(l, times, 0, j);
    RequestStep(l, times, 0);
    FirstRequest(l, times[0]);
    NoRequests(l, times);
    assert AdmittedCount(l, times, 0, 0) == 0;
    CountSplit(l, times, j);
  }

  lemma FirstRequest(l: Limits, now: real)
    requires Sane(l)
    ensures Allows(l, None, now) <==> l.capacity >= 1.0
    ensures Consumed(l, None, now).tokens == if l.capacity >= 1.0 then l.capacity - 1.0 else l.capacity
  {
  }

  lemma {:induction false} CountSplit(l: Limits, times: seq<real>, j: nat)
    requires Sane(l) && 0 < j <= |times|
    ensures AdmittedCount(l, times, 0, j) == AdmittedCount(l, times, 0, 1) + AdmittedCount(l, times, 1, j)
  {
    hide Admitted;
    if j > 1 {
      CountSplit(l, times, j - 1);
    }
  }

  lemma {:induction false} ForwardWhenMonotone(times: seq<real>, i: nat, j: nat)
    requires Monotone(times) && i <= j < |times|
    ensures Forward(times, i, j) == times[j] - times[i]
  {
    if i < j {
      ForwardWhenMonotone(times, i, j - 1);
    }
  }

  /** With a clock that does not step back, any window of length T admits at most capacity + rate * T requests. */
  lemma WindowBound(l: Limits, times: seq<real>, i: nat, j: nat)
    requires Sane(l) && Monotone(times) && i < j <= |times|
    ensures AdmittedCount(l, times, i, j) as real <= Allowance(l, times[j - 1] - times[i])
  {
    hide AdmittedCount, Forward, Monotone, Allowance;
    ForwardBound(l, times, i, j);
    ForwardWhenMonotone(times, i, j - 1);
  }

  /** A clock that steps back breaks the bound: three requests admitted at one instant by a bucket of one token. */
  lemma BackwardClockBreaksBound()
    ensures var l := Limits(1.0, 1.0);
            var times := [1.0, 0.0, 1.0];
            Sane(l) && Admitted(l, true, times, 0) && Admitted(l, true, times, 2)
            && AdmittedCount(l, times, 0, 3) as real > Allowance(l, times[2] - times[0])
  {
    var l := Limits(1.0, 1.0);
    var times := [1.0, 0.0, 1.0];
    assert times[..0] == [] && times[..1] == [1.0] && times[..2] == [1.0, 0.0];
    assert [1.0][..0] == [] && [1.0, 0.0][..1] == [1.0];
    assert After(l, true, []) == None;
    assert After(l, true, [1.0]) == Some(Bucket(0.0, 1.0, 1.0 + Lifetime(l) as real));
    assert After(l, true, [1.0, 0.0]).value.tokens == 0.0;
    assert AdmittedCount(l, times, 0, 1) == 1 && AdmittedCount(l, times, 0, 2) == 1;
  }

  /** Some rate for which a window over a step back allows less than nothing. */
  lemma NegativeAllowance(capacity: real, back: real) returns (l: Limits)
    requires capacity >= 0.0 && back < 0.0
    ensures Sane(l) && l.capacity == capacity && Allowance(l, back) < 0.0
  {
    var rate := (capacity + 1.0) / -back;
    l := Limits(capacity, rate);
    assert rate * -back == capacity + 1.0;
    assert l.rate * back == -(rate * -back);
  }

  /** The requests i, ..., j - 1 stay within the allowance of their time. */
  predicate Bounded(l: Limits, times: seq<real>, i: nat, j: nat)
    requires Sane(l) && i < j <= |times|
  {
    AdmittedCount(l, times, i, j) as real <= Allowance(l, times[j - 1] - times[i])
  }

  /** For buckets of any given size, the window bound holds at every rate and in every window exactly when
      the clock never steps back. */
  lemma WindowBoundIff(capacity: real, times: seq<real>)
    requires capacity >= 0.0
    ensures (forall l, i: nat, j: nat | Sane(l) && l.capacity == capacity && i < j <= |times| ::
               Bounded(l, times, i, j))
       <==> Monotone(times)
  {
    hide Sane, Admitted, AdmittedCount, Allowance;
    if Monotone(times) {
      forall l, i: nat, j: nat | Sane(l) && l.capacity == capacity && i < j <= |times|
        ensures Bounded(l, times, i, j)
      {
        WindowBound(l, times, i, j);
      }
    } else {
      var i, j :| 0 <= i < j < |times| && times[j] < times[i];
      var l := NegativeAllowance(capacity, times[j] - times[i]);
      assert times[j + 1 - 1] == times[j];
      assert !Bounded(l, times, i, j + 1);
    }
  }

  // ---- Retry-After ---------------------------------------------------------

  /** `int(1 / refill_rate) + 1` */
  function RetryAfter(l: Limits): (seconds: int)
    requires Sane(l)
    ensures 1.0 / l.rate < seconds as real <= 1.0 / l.rate + 1.0
  {
    (1.0 / l.rate).Floor + 1
  }

  /** A client left alone for the advertised time is admitted exactly when the bucket can hold a token. */
  lemma RetryAfterSuffices(l: Limits, times: seq<real>, later: real)
    requires Sane(l) && times != [] && later >= times[|times| - 1] + RetryAfter(l) as real
    ensures Admitted(l, true, times + [later], |times|) <==> l.capacity >= 1.0
  {
    hide Consumed, Refilled, Lifetime, RetryAfter;
    assert (times + [later])[..|times|] == times;
    ExpiryInvisible(l, times + [later]);
    TokensInRange(l, false, times);
    RefilledAfterWait(l, After(l, false, times).value, later);
  }

  lemma RefilledAfterWait(l: Limits, b: Bucket, later: real)
    requires Sane(l) && 0.0 <= b.tokens <= l.capacity && later >= b.ts + RetryAfter(l) as real
    ensures Refilled(l, Some(b), later) >= 1.0 <==> l.capacity >= 1.0
  {
    var wait := later - b.ts;
    assert 1.0 / l.rate <= wait;
    MulMono(1.0 / l.rate, wait, l.rate);
    Inverse(l.rate);
  }

  lemma Inverse(r: real)
    requires r > 0.0
    ensures 1.0 / r * r == 1.0
  {
  }
}
