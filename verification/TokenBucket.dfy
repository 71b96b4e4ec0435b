/**
  The per-client token bucket: a Lua script that refills by a floored amount, caps at the
  burst size, admits when a token is left and writes the bucket (with a 60 s expiry) only
  when it admits.
*/
module TokenBucket {
  import opened Wrappers

  const WINDOW_MS := 1000
  const EXPIRY_MS := 60_000

  datatype Limits = Limits(rps: nat, burst: nat)

  predicate ValidLimits(l: Limits) { l.rps >= 1 && l.burst >= 1 }

  datatype Bucket = Bucket(tokens: int, lastRefill: int)

  /** What the script decides and leaves in Redis. */
  datatype Outcome = Outcome(allowed: bool, bucket: Option<Bucket>)

  function Min(a: int, b: int): int { if a <= b then a else b }

  /** Tokens in hand at `now`; the refill is floored, also when the clock went back. */
  function Available(l: Limits, b: Option<Bucket>, now: int): int {
    match b
    case None => l.burst
    case Some(bucket) => Min(l.burst, bucket.tokens + ((now - bucket.lastRefill) * l.rps) / WINDOW_MS)
  }

  function Check(l: Limits, b: Option<Bucket>, now: int): Outcome {
    var tokens := Available(l, b, now);
    if tokens >= 1 then Outcome(true, Some(Bucket(tokens - 1, now))) else Outcome(false, b)
  }

  /** The stored key, with its expiry: `now` and the expiry are read off one clock. */
  function Live(b: Option<Bucket>, now: int): Option<Bucket> {
    if b.Some? && now - b.value.lastRefill >= EXPIRY_MS then None else b
  }

  function CheckExpiring(l: Limits, b: Option<Bucket>, now: int): Outcome {
    Check(l, Live(b, now), now)
  }

  /** The bucket's key: Redis drops it once it has expired, and the script reads and writes what is left. */
  class TokenBucketKey {
    var bucket: Option<Bucket>

    constructor ()
      ensures bucket == None
    {
      bucket := None;
    }

    method CheckRateLimit(l: Limits, now: int) returns (allowed: bool, remaining: int)
      modifies this
      ensures Outcome(allowed, bucket) == CheckExpiring(l, old(bucket), now)
      ensures allowed ==> bucket == Some(Bucket(remaining, now))
      ensures !allowed ==> bucket == Live(old(bucket), now) && remaining == 0
      ensures ValidLimits(l) && !allowed ==> bucket == old(bucket)
    {
      if bucket.Some? && now - bucket.value.lastRefill >= EXPIRY_MS {
        bucket := None;
      }
      var tokens, lastRefill := l.burst as int, now;
      if bucket.Some? {
        tokens, lastRefill := bucket.value.tokens, bucket.value.lastRefill;
        var elapsed := now - lastRefill;
        var refillAmount := (elapsed * l.rps) / WINDOW_MS;
        tokens := Min(l.burst, tokens + refillAmount);
        lastRefill := now;
      }
      if tokens >= 1 {
        tokens := tokens - 1;
        bucket := Some(Bucket(tokens, lastRefill));
        return true, tokens;
      } else {
        return false, 0;
      }
    }
  }

  // ---------------------------------------------------------------- runs

  /** The bucket after a sequence of requests at the given times. */
  function After(l: Limits, b: Option<Bucket>, times: seq<int>): Option<Bucket>
    decreases |times|
  {
    if times == [] then b else After(l, Check(l, b, times[0]).bucket, times[1..])
  }

  function Decisions(l: Limits, b: Option<Bucket>, times: seq<int>): (d: seq<bool>)
    ensures |d| == |times|
    decreases |times|
  {
    if times == [] then []
    else [Check(l, b, times[0]).allowed] + Decisions(l, Check(l, b, times[0]).bucket, times[1..])
  }

  function AfterExpiring(l: Limits, b: Option<Bucket>, times: seq<int>): Option<Bucket>
    decreases |times|
  {
    if times == [] then b else AfterExpiring(l, CheckExpiring(l, b, times[0]).bucket, times[1..])
  }

  function DecisionsExpiring(l: Limits, b: Option<Bucket>, times: seq<int>): (d: seq<bool>)
    ensures |d| == |times|
    decreases |times|
  {
    if times == [] then []
    else [CheckExpiring(l, b, times[0]).allowed]
         + DecisionsExpiring(l, CheckExpiring(l, b, times[0]).bucket, times[1..])
  }

  function CountTrue(d: seq<bool>): nat {
    if d == [] then 0 else (if d[0] then 1 else 0) + CountTrue(d[1..])
  }

  /** Requests admitted. */
  function Admitted(l: Limits, b: Option<Bucket>, times: seq<int>): nat { CountTrue(Decisions(l, b, times)) }

  /** Stored tokens are what an admission left. */
  predicate Inv(l: Limits, b: Option<Bucket>) { b.Some? ==> 0 <= b.value.tokens < l.burst }

  lemma CheckKeepsInv(l: Limits, b: Option<Bucket>, now: int)
    requires ValidLimits(l) && Inv(l, b)
    ensures Inv(l, Check(l, b, now).bucket)
    ensures Check(l, b, now).allowed ==> Check(l, b, now).bucket.Some?
  {
  }

  lemma {:induction false} RunKeepsInv(l: Limits, b: Option<Bucket>, times: seq<int>)
    requires ValidLimits(l) && Inv(l, b)
    ensures Inv(l, After(l, b, times))
    decreases |times|
  {
    if times != [] {
      CheckKeepsInv(l, b, times[0]);
      RunKeepsInv(l, Check(l, b, times[0]).bucket, times[1..]);
    }
  }

  // ---------------------------------------------------------------- the rate bound

  /** 1000 tokens less what the clock has granted; it needs no monotone clock. */
  function Potential(l: Limits, b: Bucket): int { WINDOW_MS * b.tokens - l.rps * b.lastRefill }

  lemma AdmissionDropsPotential(l: Limits, b: Bucket, now: int)
    requires ValidLimits(l) && Check(l, Some(b), now).allowed
    ensures Potential(l, Check(l, Some(b), now).bucket.value) <= Potential(l, b) - WINDOW_MS
  {
    var granted := (now - b.lastRefill) * l.rps;
    assert WINDOW_MS * (granted / WINDOW_MS) <= granted;
    assert granted == now * l.rps - b.lastRefill * l.rps;
  }

  lemma {:induction false} RunDropsPotential(l: Limits, b: Bucket, times: seq<int>)
    requires ValidLimits(l) && Inv(l, Some(b))
    ensures After(l, Some(b), times).Some?
    ensures Potential(l, After(l, Some(b), times).value)
         <= Potential(l, b) - WINDOW_MS * Admitted(l, Some(b), times)
    decreases |times|
  {
    if times != [] {
      var o := Check(l, Some(b), times[0]);
      CheckKeepsInv(l, Some(b), times[0]);
      if o.allowed {
        AdmissionDropsPotential(l, b, times[0]);
      }
      RunDropsPotential(l, o.bucket.value, times[1..]);
      var d := Decisions(l, Some(b), times);
      assert d[1..] == Decisions(l, o.bucket, times[1..]);
    }
  }

  /** The bucket remembers when the last admission was. */
  lemma {:induction false} LastRefillIsLastAdmission(l: Limits, b: Option<Bucket>, times: seq<int>, k: nat)
    requires ValidLimits(l) && k < |times|
    requires Decisions(l, b, times)[k]
    requires forall i :: k < i < |times| ==> !Decisions(l, b, times)[i]
    ensures After(l, b, times).Some? && After(l, b, times).value.lastRefill == times[k]
    decreases |times|
  {
    var next := Check(l, b, times[0]).bucket;
    var d := Decisions(l, b, times);
    assert d[1..] == Decisions(l, next, times[1..]);
    if k == 0 {
      assert forall i :: 0 <= i < |times[1..]| ==> !Decisions(l, next, times[1..])[i] by {
        forall i | 0 <= i < |times[1..]| ensures !Decisions(l, next, times[1..])[i] { assert d[i + 1] == d[1..][i]; }
      }
      DenialsChangeNothing(l, next, times[1..]);
    } else {
      forall i | k - 1 < i < |times[1..]| ensures !Decisions(l, next, times[1..])[i] { assert d[i + 1] == d[1..][i]; }
      LastRefillIsLastAdmission(l, next, times[1..], k - 1);
    }
  }

  /** A denial never writes: any number of them leaves the bucket as it was. */
  lemma {:induction false} DenialsChangeNothing(l: Limits, b: Option<Bucket>, times: seq<int>)
    requires forall i :: 0 <= i < |times| ==> !Decisions(l, b, times)[i]
    ensures After(l, b, times) == b
    decreases |times|
  {
    if times != [] {
      var next := Check(l, b, times[0]).bucket;
      var d := Decisions(l, b, times);
      assert !d[0];
      assert d[1..] == Decisions(l, next, times[1..]);
      forall i | 0 <= i < |times[1..]| ensures !Decisions(l, next, times[1..])[i] { assert d[i + 1] == d[1..][i]; }
      DenialsChangeNothing(l, next, times[1..]);
    }
  }

  /**
    Rate bound. Take any reachable bucket and any further requests, on any clock, the first and
    the last of which are admitted. The requests admitted number at most
    burst + floor(rps * (t - s) / 1000), where s and t are the times of those two.
  */
  lemma AdmissionsAreBounded(l: Limits, past: seq<int>, times: seq<int>)
    requires ValidLimits(l) && times != []
    requires var d := Decisions(l, After(l, None, past), times); d[0] && d[|d| - 1]
    ensures Admitted(l, After(l, None, past), times)
         <= l.burst + ((times[|times| - 1] - times[0]) * l.rps) / WINDOW_MS
  {
    var b := After(l, None, past);
    RunKeepsInv(l, None, past);
    var first := Check(l, b, times[0]).bucket;
    CheckKeepsInv(l, b, times[0]);
    var d := Decisions(l, b, times);
    assert d[1..] == Decisions(l, first, times[1..]);
    var n := Admitted(l, first, times[1..]);
    RunDropsPotential(l, first.value, times[1..]);
    var last := After(l, first, times[1..]);
    RunKeepsInv(l, first, times[1..]);
    var t := times[|times| - 1];
    LastRefillIsLastAdmission(l, b, times, |times| - 1);
    BoundFromLastBucket(l, first.value, last.value, n, t);
  }

  /** From the bucket the first admission left to one `n` admissions later. */
  lemma BoundFromLastBucket(l: Limits, first: Bucket, last: Bucket, n: nat, t: int)
    requires first.tokens < l.burst && last.tokens >= 0 && last.lastRefill <= t
    requires Potential(l, last) <= Potential(l, first) - WINDOW_MS * n
    ensures n + 1 <= l.burst + ((t - first.lastRefill) * l.rps) / WINDOW_MS
  {
    assert l.rps * t == l.rps * last.lastRefill + l.rps * (t - last.lastRefill);
    BoundFromPotential(l, n + 1, first.lastRefill, t);
  }

  lemma BoundFromPotential(l: Limits, n: nat, s: int, t: int)
    requires -(l.rps * t) <= WINDOW_MS * l.burst - l.rps * s - WINDOW_MS * n
    ensures n <= l.burst + ((t - s) * l.rps) / WINDOW_MS
  {
    assert (t - s) * l.rps == l.rps * t - l.rps * s;
  }

  // ---------------------------------------------------------------- no starvation

  function CeilDiv(a: nat, b: nat): nat
    requires b > 0
  {
    (a + b - 1) / b
  }

  /** A denied request finds the key alive and leaves it as it was. */
  lemma {:induction false} DenialsChangeNothingExpiring(l: Limits, b: Option<Bucket>, times: seq<int>)
    requires ValidLimits(l) && forall i :: 0 <= i < |times| ==> !DecisionsExpiring(l, b, times)[i]
    ensures AfterExpiring(l, b, times) == b
    decreases |times|
  {
    if times != [] {
      var next := CheckExpiring(l, b, times[0]).bucket;
      var d := DecisionsExpiring(l, b, times);
      assert !d[0];
      assert d[1..] == DecisionsExpiring(l, next, times[1..]);
      forall i | 0 <= i < |times[1..]| ensures !DecisionsExpiring(l, next, times[1..])[i] {
        assert d[i + 1] == d[1..][i];
      }
      DenialsChangeNothingExpiring(l, next, times[1..]);
    }
  }

  lemma {:induction false} LastAdmissionIsStored(l: Limits, b: Option<Bucket>, times: seq<int>, k: nat)
    requires ValidLimits(l) && Inv(l, b) && k < |times| && DecisionsExpiring(l, b, times)[k]
    requires forall i :: k < i < |times| ==> !DecisionsExpiring(l, b, times)[i]
    ensures var after := AfterExpiring(l, b, times);
            after.Some? && after.value.lastRefill == times[k] && Inv(l, after)
    decreases |times|
  {
    var next := CheckExpiring(l, b, times[0]).bucket;
    CheckKeepsInv(l, Live(b, times[0]), times[0]);
    var d := DecisionsExpiring(l, b, times);
    assert d[1..] == DecisionsExpiring(l, next, times[1..]);
    forall i | (if k == 0 then 0 else k) <= i < |times[1..]| ensures !DecisionsExpiring(l, next, times[1..])[i] {
      assert d[i + 1] == d[1..][i];
    }
    if k == 0 {
      DenialsChangeNothingExpiring(l, next, times[1..]);
    } else {
      LastAdmissionIsStored(l, next, times[1..], k - 1);
    }
  }

  /**
    No starvation, for the deployed bucket with its expiry, whatever the burst. However many requests
    were denied since the last admission at times[k], a request at least ceil(1000 / rps) ms after it
    is admitted.
  */
  lemma WaitingIsEnough(l: Limits, times: seq<int>, k: nat, now: int)
    requires ValidLimits(l) && k < |times| && DecisionsExpiring(l, None, times)[k]
    requires forall i :: k < i < |times| ==> !DecisionsExpiring(l, None, times)[i]
    requires now >= times[k] + CeilDiv(WINDOW_MS, l.rps)
    ensures CheckExpiring(l, AfterExpiring(l, None, times), now).allowed
  {
    LastAdmissionIsStored(l, None, times, k);
    RefillAfterCeil(l.rps, now - times[k]);
    RefilledIsAdmitted(l, AfterExpiring(l, None, times).value, now);
  }

  lemma RefilledIsAdmitted(l: Limits, b: Bucket, now: int)
    requires ValidLimits(l) && Inv(l, Some(b)) && ((now - b.lastRefill) * l.rps) / WINDOW_MS >= 1
    ensures CheckExpiring(l, Some(b), now).allowed
  {
  }

  lemma RefillAfterCeil(rps: nat, elapsed: int)
    requires rps >= 1 && elapsed >= CeilDiv(WINDOW_MS, rps)
    ensures (elapsed * rps) / WINDOW_MS >= 1
  {
    var q := CeilDiv(WINDOW_MS, rps);
    CeilDivCovers(WINDOW_MS, rps);
    assert elapsed * rps >= q * rps;
  }

  lemma CeilDivCovers(a: nat, b: nat)
    requires b > 0
    ensures CeilDiv(a, b) * b >= a
  {
    var n := a + b - 1;
    assert n == b * (n / b) + n % b;
    assert n % b < b;
  }

  // ---------------------------------------------------------------- the 60 s expiry

  predicate Monotone(times: seq<int>) { forall i, j :: 0 <= i <= j < |times| ==> times[i] <= times[j] }

  /** With burst <= 60 * rps the key expires only when the bucket would have been full anyway. */
  lemma ExpiryIsInvisibleOnce(l: Limits, b: Option<Bucket>, now: int)
    requires ValidLimits(l) && Inv(l, b) && l.burst <= 60 * l.rps
    ensures CheckExpiring(l, b, now) == Check(l, b, now)
  {
    if b.Some? && now - b.value.lastRefill >= EXPIRY_MS {
      var elapsed := now - b.value.lastRefill;
      assert elapsed * l.rps >= EXPIRY_MS * l.rps;
      assert (elapsed * l.rps) / WINDOW_MS >= 60 * l.rps;
    }
  }

  lemma {:induction false} ExpiryIsInvisible(l: Limits, b: Option<Bucket>, times: seq<int>)
    requires ValidLimits(l) && Inv(l, b) && l.burst <= 60 * l.rps
    ensures DecisionsExpiring(l, b, times) == Decisions(l, b, times)
    ensures AfterExpiring(l, b, times) == After(l, b, times)
    decreases |times|
  {
    if times != [] {
      ExpiryIsInvisibleOnce(l, b, times[0]);
      CheckKeepsInv(l, b, times[0]);
      ExpiryIsInvisible(l, Check(l, b, times[0]).bucket, times[1..]);
    }
  }

  /** `n` requests at the same instant. */
  function Burst(n: nat, now: int): seq<int> { seq(n, _ => now) }

  lemma SameInstantRefillsNothing(l: Limits, tokens: int, now: int)
    ensures Available(l, Live(Some(Bucket(tokens, now)), now), now) == Min(l.burst, tokens)
  {
    assert (now - now) * l.rps == 0;
  }

  lemma {:induction false} BurstDrainsBucket(l: Limits, b: Option<Bucket>, now: int, n: nat)
    requires ValidLimits(l) && Inv(l, b)
    requires Available(l, Live(b, now), now) >= n
    ensures CountTrue(DecisionsExpiring(l, b, Burst(n, now))) == n
    ensures n > 0 ==>
              AfterExpiring(l, b, Burst(n, now)) == Some(Bucket(Available(l, Live(b, now), now) - n, now))
    decreases n
  {
    var times := Burst(n, now);
    if n > 0 {
      var next := CheckExpiring(l, b, now).bucket;
      SameInstantRefillsNothing(l, next.value.tokens, now);
      assert times[1..] == Burst(n - 1, now);
      var d := DecisionsExpiring(l, b, times);
      assert d[1..] == DecisionsExpiring(l, next, times[1..]);
      BurstDrainsBucket(l, next, now, n - 1);
    }
  }

  lemma {:induction false} ExpiringRunsCompose(l: Limits, b: Option<Bucket>, xs: seq<int>, ys: seq<int>)
    ensures AfterExpiring(l, b, xs + ys) == AfterExpiring(l, AfterExpiring(l, b, xs), ys)
    ensures CountTrue(DecisionsExpiring(l, b, xs + ys))
         == CountTrue(DecisionsExpiring(l, b, xs)) + CountTrue(DecisionsExpiring(l, AfterExpiring(l, b, xs), ys))
    decreases |xs|
  {
    if xs == [] {
      assert xs + ys == ys;
    } else {
      var next := CheckExpiring(l, b, xs[0]).bucket;
      assert (xs + ys)[1..] == xs[1..] + ys;
      ExpiringRunsCompose(l, next, xs[1..], ys);
      assert DecisionsExpiring(l, b, xs + ys)[1..] == DecisionsExpiring(l, next, xs[1..] + ys);
      assert DecisionsExpiring(l, b, xs)[1..] == DecisionsExpiring(l, next, xs[1..]);
    }
  }

  lemma {:induction false} EmptyBucketDenies(l: Limits, b: Option<Bucket>, now: int, n: nat)
    requires ValidLimits(l) && Available(l, Live(b, now), now) <= 0
    ensures CountTrue(DecisionsExpiring(l, b, Burst(n, now))) == 0
    decreases n
  {
    if n > 0 {
      var times := Burst(n, now);
      assert times[1..] == Burst(n - 1, now);
      assert Live(b, now).Some?;
      assert CheckExpiring(l, b, now).bucket == b;
      EmptyBucketDenies(l, b, now, n - 1);
      var d := DecisionsExpiring(l, b, times);
      assert d[1..] == DecisionsExpiring(l, b, times[1..]);
    }
  }

  /**
    What a wait earns, exactly: of n requests that arrive together, as many are admitted as there are
    tokens left over plus floor(elapsed * rps / 1000) new ones, up to the burst.
  */
  lemma WaitEarnsExactly(l: Limits, b: Bucket, now: int, n: nat)
    requires ValidLimits(l) && Inv(l, Some(b)) && 0 <= now - b.lastRefill < EXPIRY_MS
    ensures CountTrue(DecisionsExpiring(l, Some(b), Burst(n, now)))
         == Min(n, Min(l.burst, b.tokens + ((now - b.lastRefill) * l.rps) / 1000))
  {
    var has := Available(l, Live(Some(b), now), now);
    EarnedIsNotNegative(now - b.lastRefill, l.rps);
    if n <= has {
      BurstDrainsBucket(l, Some(b), now, n);
    } else {
      BurstDrainsBucket(l, Some(b), now, has);
      var after := AfterExpiring(l, Some(b), Burst(has, now));
      if has > 0 {
        SameInstantRefillsNothing(l, 0, now);
      }
      EmptyBucketDenies(l, after, now, n - has);
      ExpiringRunsCompose(l, Some(b), Burst(has, now), Burst(n - has, now));
      assert Burst(has, now) + Burst(n - has, now) == Burst(n, now);
    }
  }

  lemma EarnedIsNotNegative(elapsed: int, rps: nat)
    requires elapsed >= 0
    ensures (elapsed * rps) / WINDOW_MS >= 0
  {
    assert elapsed * rps >= 0;
  }

  /** The rate bound, for the deployed bucket with its expiry, on every contiguous segment of every monotone run. */
  ghost predicate ExpiringBucketKeepsBound(l: Limits) {
    forall past: seq<int>, times: seq<int> | times != [] && Monotone(past + times) ::
      CountTrue(DecisionsExpiring(l, AfterExpiring(l, None, past), times)) <= Bound(l, times)
  }

  /** burst + floor(rps * (t - s) / 1000), from the first of the given times to the last. */
  function Bound(l: Limits, times: seq<int>): int
    requires times != []
  {
    l.burst + ((times[|times| - 1] - times[0]) * l.rps) / WINDOW_MS
  }

  lemma AdmittedFirst(l: Limits, b: Option<Bucket>, times: seq<int>)
    requires times != []
    ensures var o := Check(l, b, times[0]);
            Admitted(l, b, times) == (if o.allowed then 1 else 0) + Admitted(l, o.bucket, times[1..])
  {
    var d := Decisions(l, b, times);
    assert d[1..] == Decisions(l, Check(l, b, times[0]).bucket, times[1..]);
  }

  lemma SegmentFromAdmission(l: Limits, b: Option<Bucket>, times: seq<int>)
    requires ValidLimits(l) && Inv(l, b) && times != [] && Monotone(times) && Check(l, b, times[0]).allowed
    ensures Admitted(l, b, times) <= Bound(l, times)
  {
    var first := Check(l, b, times[0]).bucket;
    CheckKeepsInv(l, b, times[0]);
    AdmittedFirst(l, b, times);
    var n, t := Admitted(l, first, times[1..]), times[|times| - 1];
    RunDropsPotential(l, first.value, times[1..]);
    RunKeepsInv(l, first, times[1..]);
    LastRefillIsNotInTheFuture(l, first.value, times[1..], t);
    BoundFromLastBucket(l, first.value, After(l, first, times[1..]).value, n, t);
  }

  lemma LaterStartBoundsLess(l: Limits, times: seq<int>)
    requires |times| >= 2 && times[0] <= times[1]
    ensures Bound(l, times[1..]) <= Bound(l, times)
  {
    var t := times[|times| - 1];
    assert times[1..][|times| - 2] == t;
    assert (t - times[1]) * l.rps <= (t - times[0]) * l.rps;
  }

  lemma {:induction false} SegmentsAreBounded(l: Limits, b: Option<Bucket>, times: seq<int>)
    requires ValidLimits(l) && Inv(l, b) && times != [] && Monotone(times)
    ensures Admitted(l, b, times) <= Bound(l, times)
    decreases |times|
  {
    if Check(l, b, times[0]).allowed {
      SegmentFromAdmission(l, b, times);
    } else {
      AdmittedFirst(l, b, times);
      if |times| >= 2 {
        SegmentsAreBounded(l, b, times[1..]);
        LaterStartBoundsLess(l, times);
      }
    }
  }

  /** After any past, every run on a monotone clock is bounded from its first request to its last, admitted or not. */
  lemma MonotoneRunsAreBounded(l: Limits, past: seq<int>, times: seq<int>)
    requires ValidLimits(l) && times != [] && Monotone(times)
    ensures Admitted(l, After(l, None, past), times) <= Bound(l, times)
  {
    RunKeepsInv(l, None, past);
    SegmentsAreBounded(l, After(l, None, past), times);
  }

  lemma {:induction false} LastRefillIsNotInTheFuture(l: Limits, b: Bucket, times: seq<int>, t: int)
    requires ValidLimits(l) && b.lastRefill <= t && forall i :: 0 <= i < |times| ==> times[i] <= t
    ensures After(l, Some(b), times).Some? && After(l, Some(b), times).value.lastRefill <= t
    decreases |times|
  {
    if times != [] {
      LastRefillIsNotInTheFuture(l, Check(l, Some(b), times[0]).bucket.value, times[1..], t);
    }
  }

  /** A burst, a minute of silence and a second burst: 2 * burst admissions in 60 s. */
  function TwoBursts(l: Limits): seq<int> { Burst(l.burst, 0) + Burst(l.burst, EXPIRY_MS) }

  lemma ExpiryRefillsWholeBurst(l: Limits)
    requires ValidLimits(l)
    ensures CountTrue(DecisionsExpiring(l, None, TwoBursts(l))) == 2 * l.burst
  {
    BurstDrainsBucket(l, None, 0, l.burst);
    var b := AfterExpiring(l, None, Burst(l.burst, 0));
    BurstDrainsBucket(l, b, EXPIRY_MS, l.burst);
    ExpiringRunsCompose(l, None, Burst(l.burst, 0), Burst(l.burst, EXPIRY_MS));
  }

  /** The deployed bucket, expiry included, keeps the rate bound exactly when burst <= 60 * rps. */
  lemma BoundHoldsExactlyWhenBurstFitsAMinute(l: Limits)
    requires ValidLimits(l)
    ensures ExpiringBucketKeepsBound(l) <==> l.burst <= 60 * l.rps
  {
    if l.burst <= 60 * l.rps {
      forall past: seq<int>, times: seq<int> | times != [] && Monotone(past + times)
        ensures CountTrue(DecisionsExpiring(l, AfterExpiring(l, None, past), times)) <= Bound(l, times)
      {
        ExpiryIsInvisible(l, None, past);
        RunKeepsInv(l, None, past);
        ExpiryIsInvisible(l, After(l, None, past), times);
        MonotoneTail(past, times);
        MonotoneRunsAreBounded(l, past, times);
      }
    } else {
      TwoBurstsBreakTheBound(l);
    }
  }

  lemma TwoBurstsBreakTheBound(l: Limits)
    requires ValidLimits(l) && l.burst > 60 * l.rps
    ensures !ExpiringBucketKeepsBound(l)
  {
    var times := TwoBursts(l);
    ExpiryRefillsWholeBurst(l);
    assert times[0] == 0 && times[|times| - 1] == EXPIRY_MS;
    assert (EXPIRY_MS * l.rps) / WINDOW_MS == 60 * l.rps;
    assert AfterExpiring(l, None, []) == None;
    assert [] + times == times;
    TwoBurstsAreMonotone(l);
  }

  lemma TwoBurstsAreMonotone(l: Limits)
    ensures Monotone(TwoBursts(l))
  {
  }

  lemma MonotoneTail(past: seq<int>, times: seq<int>)
    requires Monotone(past + times)
    ensures Monotone(times)
  {
    var all := past + times;
    forall i, j | 0 <= i <= j < |times| ensures times[i] <= times[j] {
      assert all[|past| + i] == times[i] && all[|past| + j] == times[j];
    }
  }
}
