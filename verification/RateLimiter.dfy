/**
 The token bucket in front of fixture RPC calls (`RateLimiter` in
 rust/bench/src/fixture_rpc.rs), over real arithmetic; times are in seconds.
 */
module RateLimiter {
  import opened Common

  datatype Limit = Limit(rate: nat, burst: nat)

  datatype Bucket = Bucket(tokens: real, updatedAt: real)

  predicate Usable(l: Limit) {
    l.rate > 0
  }

  function LesserOf(a: real, b: real): real {
    if a < b then a else b
  }

  /** Tokens earned in `elapsed` seconds at `rate` per second: their product. */
  function Earned(elapsed: real, rate: nat): real {
    if rate == 0 then 0.0 else Earned(elapsed, rate - 1) + elapsed
  }

  lemma {:induction false} EarnedIsProduct(elapsed: real, rate: nat)
    ensures Earned(elapsed, rate) == elapsed * (rate as real)
  {
    if rate > 0 {
      EarnedIsProduct(elapsed, rate - 1);
      assert (rate - 1) as real == rate as real - 1.0;
    }
  }

  lemma {:induction false} EarnedAdds(a: real, b: real, rate: nat)
    ensures Earned(a, rate) + Earned(b, rate) == Earned(a + b, rate)
  {
    if rate > 0 { EarnedAdds(a, b, rate - 1); }
  }

  lemma {:induction false} EarnedGrows(a: real, b: real, rate: nat)
    requires a <= b
    ensures Earned(a, rate) <= Earned(b, rate)
    ensures rate > 0 && a < b ==> Earned(a, rate) < Earned(b, rate)
    ensures Earned(0.0, rate) == 0.0
  {
    if rate > 0 { EarnedGrows(a, b, rate - 1); }
  }

  function Refill(l: Limit, b: Bucket, now: real): Bucket {
    Bucket(LesserOf(b.tokens + Earned(now - b.updatedAt, l.rate), l.burst as real), now)
  }

  predicate Grants(l: Limit, b: Bucket, now: real) {
    Refill(l, b, now).tokens >= 1.0
  }

  function Attempt(l: Limit, b: Bucket, now: real): Bucket {
    var r := Refill(l, b, now);
    if r.tokens >= 1.0 then r.(tokens := r.tokens - 1.0) else r
  }

  /** How long a refused caller sleeps. */
  function Wait(l: Limit, b: Bucket, now: real): real
    requires l.rate > 0
  {
    (1.0 - Refill(l, b, now).tokens) / (l.rate as real)
  }

  predicate Ordered(from: real, times: seq<real>) {
    times != [] ==> from <= times[0] && forall i, j :: 0 <= i < j < |times| ==> times[i] <= times[j]
  }

  predicate BucketOk(l: Limit, b: Bucket) {
    0.0 <= b.tokens <= l.burst as real
  }

  function After(l: Limit, b: Bucket, times: seq<real>): Bucket {
    if times == [] then b else Attempt(l, After(l, b, times[..|times| - 1]), times[|times| - 1])
  }

  function Granted(l: Limit, b: Bucket, times: seq<real>): nat {
    if times == [] then 0
    else
      Granted(l, b, times[..|times| - 1])
      + if Grants(l, After(l, b, times[..|times| - 1]), times[|times| - 1]) then 1 else 0
  }

  lemma AttemptOk(l: Limit, b: Bucket, now: real)
    requires Usable(l) && BucketOk(l, b) && b.updatedAt <= now
    ensures BucketOk(l, Attempt(l, b, now)) && Attempt(l, b, now).updatedAt == now
    ensures Attempt(l, b, now).tokens + (if Grants(l, b, now) then 1.0 else 0.0)
         <= b.tokens + Earned(now - b.updatedAt, l.rate)
  {
    EarnedGrows(0.0, now - b.updatedAt, l.rate);
  }

  /** Grants are paid for: by the tokens at the start and what time has added since. */
  lemma {:induction false} GrantsArePaid(l: Limit, b: Bucket, times: seq<real>)
    requires Usable(l) && BucketOk(l, b) && Ordered(b.updatedAt, times)
    ensures var e := After(l, b, times);
            && BucketOk(l, e) && e.updatedAt == (if times == [] then b.updatedAt else times[|times| - 1])
            && Granted(l, b, times) as real + e.tokens <= b.tokens + Earned(e.updatedAt - b.updatedAt, l.rate)
  {
    if times == [] {
      EarnedGrows(0.0, 0.0, l.rate);
    } else {
      var front, now := times[..|times| - 1], times[|times| - 1];
      GrantsArePaid(l, b, front);
      var m := After(l, b, front);
      AttemptOk(l, m, now);
      EarnedAdds(m.updatedAt - b.updatedAt, now - m.updatedAt, l.rate);
    }
  }

  lemma {:induction false} AfterJoins(l: Limit, b: Bucket, s: seq<real>, t: seq<real>)
    ensures After(l, b, s + t) == After(l, After(l, b, s), t)
    ensures Granted(l, b, s + t) == Granted(l, b, s) + Granted(l, After(l, b, s), t)
  {
    if t == [] {
      assert s + t == s;
    } else {
      assert (s + t)[..|s + t| - 1] == s + t[..|t| - 1];
      AfterJoins(l, b, s, t[..|t| - 1]);
    }
  }

  lemma FirstRefill(l: Limit, b: Bucket, now: real)
    ensures Attempt(l, b, now) == Attempt(l, Refill(l, b, now), now) && Grants(l, b, now) == Grants(l, Refill(l, b, now), now)
  {
    var r := Refill(l, b, now);
    EarnedGrows(0.0, 0.0, l.rate);
    assert now - now == 0.0 && r.tokens <= l.burst as real;
  }

  lemma {:induction false} RefillFirst(l: Limit, b: Bucket, times: seq<real>)
    requires times != []
    ensures After(l, b, times) == After(l, Refill(l, b, times[0]), times)
    ensures Granted(l, b, times) == Granted(l, Refill(l, b, times[0]), times)
  {
    var front := times[..|times| - 1];
    if front == [] {
      FirstRefill(l, b, times[0]);
    } else {
      assert front[0] == times[0];
      RefillFirst(l, b, front);
    }
  }

  lemma RefillOk(l: Limit, b: Bucket, now: real)
    requires Usable(l) && BucketOk(l, b) && b.updatedAt <= now
    ensures BucketOk(l, Refill(l, b, now))
  {
    EarnedGrows(0.0, now - b.updatedAt, l.rate);
  }

  lemma OrderedParts(start: real, before: seq<real>, stretch: seq<real>)
    requires stretch != [] && Ordered(start, before + stretch)
    ensures Ordered(start, before) && Ordered(stretch[0], stretch)
    ensures (if before == [] then start else before[|before| - 1]) <= stretch[0]
  {
    var all := before + stretch;
    assert all[|before|] == stretch[0];
    forall i, j | 0 <= i < j < |before| ensures before[i] <= before[j] {
      assert before[i] == all[i] && before[j] == all[j];
    }
    forall i, j | 0 <= i < j < |stretch| ensures stretch[i] <= stretch[j] {
      assert stretch[i] == all[|before| + i] && stretch[j] == all[|before| + j];
    }
    if before != [] {
      assert before[0] == all[0] && before[|before| - 1] == all[|before| - 1];
    }
  }

  lemma StretchIsBounded(l: Limit, b: Bucket, stretch: seq<real>)
    requires Usable(l) && BucketOk(l, b) && stretch != [] && b.updatedAt <= stretch[0] && Ordered(stretch[0], stretch)
    ensures Granted(l, b, stretch) as real <= l.burst as real + Earned(stretch[|stretch| - 1] - stretch[0], l.rate)
  {
    RefillFirst(l, b, stretch);
    RefillOk(l, b, stretch[0]);
    GrantsArePaid(l, Refill(l, b, stretch[0]), stretch);
  }

  /**
   Whatever came before, the attempts in any stretch of a run are granted at most
   `burst + rate * T` times, where T is the time from its first attempt to its last
   and `Earned` is the product, by `EarnedIsProduct`.
   */
  lemma RateIsBounded(l: Limit, start: real, before: seq<real>, stretch: seq<real>)
    requires Usable(l) && stretch != [] && Ordered(start, before + stretch)
    ensures var full := Bucket(l.burst as real, start);
            (Granted(l, full, before + stretch) - Granted(l, full, before)) as real
              <= l.burst as real + Earned(stretch[|stretch| - 1] - stretch[0], l.rate)
  {
    var full := Bucket(l.burst as real, start);
    OrderedParts(start, before, stretch);
    GrantsArePaid(l, full, before);
    AfterJoins(l, full, before, stretch);
    StretchIsBounded(l, After(l, full, before), stretch);
  }

  lemma EarnsBack(x: real, rate: nat)
    requires rate > 0
    ensures Earned(x / (rate as real), rate) == x
  {
    EarnedIsProduct(x / (rate as real), rate);
  }

  /**
   A refused caller that sleeps as told, with nobody else in between, succeeds on
   its second try exactly if the burst is at least one; had it come back any
   earlier it would have been refused again.
   */
  lemma SecondTry(l: Limit, b: Bucket, now: real, later: real)
    requires Usable(l) && BucketOk(l, b) && b.updatedAt <= now && !Grants(l, b, now) && now <= later
    ensures Grants(l, Attempt(l, b, now), later) <==> l.burst >= 1 && later >= now + Wait(l, b, now)
  {
    var r := Refill(l, b, now);
    var d, w := later - now, Wait(l, b, now);
    EarnsBack(1.0 - r.tokens, l.rate);
    if w <= d { EarnedGrows(w, d, l.rate); } else { EarnedGrows(d, w, l.rate); }
  }

  /** The limiter as an object; every try reads the clock once. */
  class Limiter {
    const limit: Limit
    var bucket: Bucket

    ghost predicate Valid()
      reads this
    {
      Usable(limit) && BucketOk(limit, bucket)
    }

    constructor (rate: nat, burst: nat, now: real)
      requires rate > 0
      ensures Valid() && limit == Limit(rate, burst) && bucket == Bucket(burst as real, now)
    {
      limit := Limit(rate, burst);
      bucket := Bucket(burst as real, now);
    }

    method Try(now: real) returns (wait: Option<real>)
      requires Valid() && bucket.updatedAt <= now
      modifies this`bucket
      ensures Valid() && bucket == Attempt(limit, old(bucket), now)
      ensures wait.None? <==> Grants(limit, old(bucket), now)
      ensures wait.Some? ==> wait.value == Wait(limit, old(bucket), now) > 0.0
    {
      AttemptOk(limit, bucket, now);
      var elapsed := now - bucket.updatedAt;
      EarnedIsProduct(elapsed, limit.rate);
      var tokens := bucket.tokens + elapsed * (limit.rate as real);
      if tokens > limit.burst as real {
        tokens := limit.burst as real;
      }
      bucket := Bucket(tokens, now);
      if bucket.tokens >= 1.0 {
        bucket := bucket.(tokens := bucket.tokens - 1.0);
        return None;
      }
      Positive(1.0 - bucket.tokens, limit.rate as real);
      return Some((1.0 - bucket.tokens) / (limit.rate as real));
    }

    /** Tries until granted; `clock` gives the reading at each try. The result is the try that succeeded. */
    method Acquire(clock: seq<real>) returns (granted: Option<nat>)
      requires Valid() && Ordered(bucket.updatedAt, clock)
      modifies this`bucket
      ensures Valid()
      ensures granted.Some? ==>
                && granted.value < |clock|
                && bucket == After(limit, old(bucket), clock[..granted.value + 1])
                && Granted(limit, old(bucket), clock[..granted.value + 1]) == 1
      ensures granted.None? ==> bucket == After(limit, old(bucket), clock) && Granted(limit, old(bucket), clock) == 0
    {
      assert clock[..0] == [];
      for n := 0 to |clock|
        invariant Valid() && bucket == After(limit, old(bucket), clock[..n])
        invariant Granted(limit, old(bucket), clock[..n]) == 0
        invariant bucket.updatedAt == if n == 0 then old(bucket).updatedAt else clock[n - 1]
      {
        assert clock[..n + 1][..n] == clock[..n];
        AttemptOk(limit, bucket, clock[n]);
        var wait := Try(clock[n]);
        if wait.None? {
          return Some(n);
        }
      }
      assert clock[..|clock|] == clock;
      granted := None;
    }
  }

  lemma Positive(x: real, rate: real)
    requires x > 0.0 && rate > 0.0
    ensures x / rate > 0.0
  {
  }
}
