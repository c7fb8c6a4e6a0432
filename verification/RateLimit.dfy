/**
 Ingest rate limiting: one token bucket per key. Time and tokens are reals; the
 config loader requires a positive rate and a burst of at least one.
 */
module RateLimit {

  datatype Bucket = Bucket(tokens: real, updatedAt: real)

  datatype Rate = Rate(rate: real, burst: real)

  predicate ValidRate(r: Rate) {
    r.rate > 0.0 && r.burst >= 1.0
  }

  type Buckets = map<string, Bucket>

  function Least(a: real, b: real): real {
    if a <= b then a else b
  }

  /** Tokens a call on `key` at `now` finds, refilled since the key's last call. */
  function Available(r: Rate, bs: Buckets, key: string, now: real): real {
    var b := if key in bs then bs[key] else Bucket(r.burst, now);
    var elapsed := if now - b.updatedAt > 0.0 then now - b.updatedAt else 0.0;
    Least(r.burst, b.tokens + elapsed * r.rate)
  }

  predicate Allowed(r: Rate, bs: Buckets, key: string, now: real) {
    Available(r, bs, key, now) >= 1.0
  }

  function Charge(r: Rate, bs: Buckets, key: string, now: real): Buckets {
    var tokens := Available(r, bs, key, now);
    bs[key := Bucket(if tokens >= 1.0 then tokens - 1.0 else tokens, now)]
  }

  /** How long a refused caller is told to wait. */
  function RetryAfter(r: Rate, bs: Buckets, key: string, now: real): real
    requires r.rate > 0.0
  {
    (1.0 - Available(r, bs, key, now)) / r.rate
  }

  /** The whole seconds put in the Retry-After header: at least one, rounded up. */
  function HeaderSeconds(retry: real): int {
    var up := if retry.Floor as real == retry then retry.Floor else retry.Floor + 1;
    if up < 1 then 1 else up
  }

  class SourceRateLimiter {
    const limit: Rate
    var buckets: Buckets

    constructor (rate: real, burst: nat)
      ensures limit == Rate(rate, burst as real) && buckets == map[]
    {
      limit := Rate(rate, burst as real);
      buckets := map[];
    }

    method Allow(key: string, now: real) returns (ok: bool, retry: real)
      requires ValidRate(limit)
      modifies this
      ensures ok == Allowed(limit, old(buckets), key, now)
      ensures retry == if ok then 0.0 else RetryAfter(limit, old(buckets), key, now)
      ensures buckets == Charge(limit, old(buckets), key, now)
    {
      var b := if key in buckets then buckets[key] else Bucket(limit.burst, now);
      var elapsed := if now - b.updatedAt > 0.0 then now - b.updatedAt else 0.0;
      var tokens := Least(limit.burst, b.tokens + elapsed * limit.rate);
      if tokens >= 1.0 {
        buckets := buckets[key := Bucket(tokens - 1.0, now)];
        return true, 0.0;
      }
      buckets := buckets[key := Bucket(tokens, now)];
      return false, (1.0 - tokens) / limit.rate;
    }
  }

  // ── runs ───────────────────────────────────────────────────────────────────

  datatype Call = Call(key: string, at: real)

  function After(r: Rate, calls: seq<Call>): Buckets {
    if calls == [] then map[]
    else
      var last := calls[|calls| - 1];
      Charge(r, After(r, calls[..|calls| - 1]), last.key, last.at)
  }

  ghost predicate TimeOrdered(calls: seq<Call>) {
    forall i, j :: 0 <= i < j < |calls| ==> calls[i].at <= calls[j].at
  }

  /** Requests on `key` let through from time `from` on. */
  function AllowedSince(r: Rate, calls: seq<Call>, key: string, from: real): nat {
    if calls == [] then 0
    else
      var front, last := calls[..|calls| - 1], calls[|calls| - 1];
      AllowedSince(r, front, key, from)
        + if last.key == key && last.at >= from && Allowed(r, After(r, front), key, last.at) then 1 else 0
  }

  /** Bucket levels stay between empty and full, and no bucket is ahead of the clock. */
  lemma {:induction false} TokensInRange(r: Rate, calls: seq<Call>, key: string)
    requires ValidRate(r) && TimeOrdered(calls) && key in After(r, calls)
    ensures 0.0 <= After(r, calls)[key].tokens <= r.burst
    ensures calls != [] && After(r, calls)[key].updatedAt <= calls[|calls| - 1].at
  {
    var front, last := calls[..|calls| - 1], calls[|calls| - 1];
    if key in After(r, front) {
      TokensInRange(r, front, key);
      assert front[|front| - 1].at <= last.at;
      if last.key == key {
        Product(last.at - After(r, front)[key].updatedAt, r.rate);
      }
    }
  }

  lemma Product(a: real, b: real)
    requires a >= 0.0 && b >= 0.0
    ensures a * b >= 0.0
  {
  }

  /** What `key`'s bucket holds, counted as if refilled up to `now` without a ceiling. */
  function Balance(r: Rate, bs: Buckets, key: string, now: real): real {
    if key in bs then bs[key].tokens + (now - bs[key].updatedAt) * r.rate else r.burst
  }

  lemma Distribute(a: real, b: real, c: real, rate: real)
    ensures (b - a) * rate + (c - b) * rate == (c - a) * rate
  {
  }

  /** Tokens spent, plus what is left, are within one burst plus the refill since `from`. */
  ghost predicate WithinBudget(r: Rate, spent: nat, bs: Buckets, key: string, from: real, now: real) {
    spent as real + Least(r.burst, Balance(r, bs, key, now)) <= r.burst + (now - from) * r.rate
  }

  lemma NothingSpent(r: Rate, bs: Buckets, key: string, from: real, now: real)
    requires ValidRate(r) && from <= now
    ensures WithinBudget(r, 0, bs, key, from, now)
  {
    Product(now - from, r.rate);
  }

  /**
   The potential argument: tokens spent on a key since `from`, plus what is left
   in its bucket, never exceed one burst plus the refill since `from`.
   */
  lemma {:induction false} SpentPlusLeft(r: Rate, calls: seq<Call>, key: string, from: real, now: real)
    requires ValidRate(r) && TimeOrdered(calls)
    requires from <= now && (calls != [] ==> calls[|calls| - 1].at <= now)
    ensures WithinBudget(r, AllowedSince(r, calls, key, from), After(r, calls), key, from, now)
  {
    if calls == [] || calls[|calls| - 1].at < from {
      NoneBefore(r, calls, key, from);
      NothingSpent(r, After(r, calls), key, from, now);
    } else {
      var front, last := calls[..|calls| - 1], calls[|calls| - 1];
      if last.key != key {
        SpentPlusLeft(r, front, key, from, now);
        SpentElsewhere(r, calls, key, from, now);
      } else {
        SpentPlusLeft(r, front, key, from, last.at);
        SpentHere(r, calls, key, from, now);
      }
    }
  }

  lemma SpentElsewhere(r: Rate, calls: seq<Call>, key: string, from: real, now: real)
    requires calls != [] && calls[|calls| - 1].key != key
    ensures AllowedSince(r, calls, key, from) == AllowedSince(r, calls[..|calls| - 1], key, from)
    ensures Balance(r, After(r, calls), key, now) == Balance(r, After(r, calls[..|calls| - 1]), key, now)
  {
    OtherBalance(r, After(r, calls[..|calls| - 1]), calls[|calls| - 1], key, now);
  }

  lemma OtherBalance(r: Rate, bs: Buckets, c: Call, key: string, now: real)
    requires c.key != key
    ensures Balance(r, Charge(r, bs, c.key, c.at), key, now) == Balance(r, bs, key, now)
  {
  }

  lemma CountHere(r: Rate, calls: seq<Call>, key: string, from: real)
    requires calls != [] && calls[|calls| - 1].key == key && from <= calls[|calls| - 1].at
    ensures var front, last := calls[..|calls| - 1], calls[|calls| - 1];
      && AllowedSince(r, calls, key, from)
         == AllowedSince(r, front, key, from) + (if Available(r, After(r, front), key, last.at) >= 1.0 then 1 else 0)
      && After(r, calls) == Charge(r, After(r, front), key, last.at)
  {
  }

  lemma SpentHere(r: Rate, calls: seq<Call>, key: string, from: real, now: real)
    requires ValidRate(r) && TimeOrdered(calls) && calls != []
    requires calls[|calls| - 1].key == key && from <= calls[|calls| - 1].at <= now
    requires var front, at := calls[..|calls| - 1], calls[|calls| - 1].at;
      WithinBudget(r, AllowedSince(r, front, key, from), After(r, front), key, from, at)
    ensures WithinBudget(r, AllowedSince(r, calls, key, from), After(r, calls), key, from, now)
  {
    var front, at := calls[..|calls| - 1], calls[|calls| - 1].at;
    BucketBehind(r, front, key, at);
    CountHere(r, calls, key, from);
    SpentOnce(r, After(r, front), key, AllowedSince(r, front, key, from), from, at, now);
  }

  lemma SpentOnce(r: Rate, bs: Buckets, key: string, spent: nat, from: real, at: real, now: real)
    requires key in bs ==> bs[key].updatedAt <= at
    requires WithinBudget(r, spent, bs, key, from, at)
    ensures WithinBudget(r, spent + (if Available(r, bs, key, at) >= 1.0 then 1 else 0), Charge(r, bs, key, at), key, from, now)
  {
    AvailableIsBalance(r, bs, key, at);
    ChargedBalance(r, bs, key, at, now);
    SpentHereScalars(r, spent, Available(r, bs, key, at), from, at, now);
  }

  lemma SpentHereScalars(r: Rate, spent: nat, level: real, from: real, at: real, now: real)
    requires spent as real + level <= r.burst + (at - from) * r.rate
    ensures (spent + if level >= 1.0 then 1 else 0) as real
              + Least(r.burst, (if level >= 1.0 then level - 1.0 else level) + (now - at) * r.rate)
         <= r.burst + (now - from) * r.rate
  {
    Distribute(from, at, now, r.rate);
    OneCall(r.burst, level, spent, (at - from) * r.rate, (now - at) * r.rate);
  }

  /** The arithmetic of one call: a token spent is a request let through. */
  lemma OneCall(burst: real, level: real, spent: nat, refilled: real, refill: real)
    requires spent as real + level <= burst + refilled
    ensures (spent + if level >= 1.0 then 1 else 0) as real
              + Least(burst, (if level >= 1.0 then level - 1.0 else level) + refill)
         <= burst + (refilled + refill)
  {
  }

  lemma AvailableIsBalance(r: Rate, bs: Buckets, key: string, now: real)
    requires key in bs ==> bs[key].updatedAt <= now
    ensures Available(r, bs, key, now) == Least(r.burst, Balance(r, bs, key, now))
  {
  }

  lemma ChargedBalance(r: Rate, bs: Buckets, key: string, at: real, now: real)
    ensures var level := Available(r, bs, key, at);
      Balance(r, Charge(r, bs, key, at), key, now)
        == (if level >= 1.0 then level - 1.0 else level) + (now - at) * r.rate
  {
  }

  lemma BucketBehind(r: Rate, calls: seq<Call>, key: string, now: real)
    requires ValidRate(r) && TimeOrdered(calls) && (calls != [] ==> calls[|calls| - 1].at <= now)
    ensures key in After(r, calls) ==> After(r, calls)[key].updatedAt <= now
  {
    if key in After(r, calls) { TokensInRange(r, calls, key); }
  }

  lemma {:induction false} NoneBefore(r: Rate, calls: seq<Call>, key: string, from: real)
    requires TimeOrdered(calls) && (calls != [] ==> calls[|calls| - 1].at < from)
    ensures AllowedSince(r, calls, key, from) == 0
  {
    if calls != [] {
      var front := calls[..|calls| - 1];
      if front != [] { assert front[|front| - 1].at <= calls[|calls| - 1].at; }
      NoneBefore(r, front, key, from);
    }
  }

  lemma BalanceNonNegative(r: Rate, bs: Buckets, key: string, now: real)
    requires r.rate >= 0.0 && r.burst >= 0.0
    requires key in bs ==> bs[key].tokens >= 0.0 && bs[key].updatedAt <= now
    ensures Balance(r, bs, key, now) >= 0.0
  {
    if key in bs { Refilled(bs[key].tokens, now - bs[key].updatedAt, r.rate); }
  }

  lemma Refilled(tokens: real, elapsed: real, rate: real)
    requires tokens >= 0.0 && elapsed >= 0.0 && rate >= 0.0
    ensures tokens + elapsed * rate >= 0.0
  {
    Product(elapsed, rate);
  }

  lemma {:induction false} LevelNonNegative(r: Rate, calls: seq<Call>, key: string, now: real)
    requires ValidRate(r) && TimeOrdered(calls) && (calls != [] ==> calls[|calls| - 1].at <= now)
    ensures Balance(r, After(r, calls), key, now) >= 0.0
  {
    if key in After(r, calls) { TokensInRange(r, calls, key); }
    BalanceNonNegative(r, After(r, calls), key, now);
  }

  /**
   The rate bound: whatever other keys do, the requests on one key let through
   in any closed interval [from, to] number at most burst + rate * (to - from).
   `calls` is the whole history up to `to`.
   */
  lemma RateBound(r: Rate, calls: seq<Call>, key: string, from: real, to: real)
    requires ValidRate(r) && TimeOrdered(calls)
    requires from <= to && (calls != [] ==> calls[|calls| - 1].at <= to)
    ensures AllowedSince(r, calls, key, from) as real <= r.burst + (to - from) * r.rate
  {
    SpentPlusLeft(r, calls, key, from, to);
    LevelNonNegative(r, calls, key, to);
  }

  /** A call on another key changes neither this key's answers nor its waiting times. */
  lemma KeysIndependent(r: Rate, bs: Buckets, key: string, other: string, at: real, now: real)
    requires key != other
    ensures Available(r, Charge(r, bs, other, at), key, now) == Available(r, bs, key, now)
  {
  }

  /**
   The retry hint is exact: after a refusal, with no call on the key in between,
   a call `wait` later is allowed if and only if `wait` is at least the hint.
   */
  lemma RetryExact(r: Rate, calls: seq<Call>, key: string, now: real, wait: real)
    requires ValidRate(r) && TimeOrdered(calls) && (calls != [] ==> calls[|calls| - 1].at <= now)
    requires !Allowed(r, After(r, calls), key, now) && wait >= 0.0
    ensures Allowed(r, Charge(r, After(r, calls), key, now), key, now + wait)
        <==> wait >= RetryAfter(r, After(r, calls), key, now)
  {
    var bs := After(r, calls);
    var level := Available(r, bs, key, now);
    RefillReaches(level, r.rate, wait);
    WaitedLevel(r, bs, key, now, wait);
  }

  lemma WaitedLevel(r: Rate, bs: Buckets, key: string, now: real, wait: real)
    requires wait >= 0.0 && !Allowed(r, bs, key, now)
    ensures Available(r, Charge(r, bs, key, now), key, now + wait)
         == Least(r.burst, Available(r, bs, key, now) + wait * r.rate)
  {
  }

  lemma RefillReaches(level: real, rate: real, wait: real)
    requires rate > 0.0
    ensures level + wait * rate >= 1.0 <==> wait >= (1.0 - level) / rate
  {
    var hint := (1.0 - level) / rate;
    Quotient(1.0 - level, rate);
    if wait >= hint {
      Monotone(hint, wait, rate);
    } else {
      StrictlyMonotone(wait, hint, rate);
    }
  }

  lemma Quotient(a: real, b: real)
    requires b > 0.0
    ensures (a / b) * b == a
  {
  }

  lemma Monotone(a: real, b: real, rate: real)
    requires a <= b && rate > 0.0
    ensures a * rate <= b * rate
  {
    Product(b - a, rate);
    assert (b - a) * rate == b * rate - a * rate;
  }

  lemma StrictlyMonotone(a: real, b: real, rate: real)
    requires a < b && rate > 0.0
    ensures a * rate < b * rate
  {
    assert (b - a) * rate > 0.0;
    assert (b - a) * rate == b * rate - a * rate;
  }

  /** Waiting the whole seconds the Retry-After header names is enough, and one second less is not, short of the one it always names. */
  lemma HeaderSuffices(r: Rate, calls: seq<Call>, key: string, now: real)
    requires ValidRate(r) && TimeOrdered(calls) && (calls != [] ==> calls[|calls| - 1].at <= now)
    requires !Allowed(r, After(r, calls), key, now)
    ensures var wait := HeaderSeconds(RetryAfter(r, After(r, calls), key, now));
      && wait >= 1 && Allowed(r, Charge(r, After(r, calls), key, now), key, now + wait as real)
      && (wait == 1 || !Allowed(r, Charge(r, After(r, calls), key, now), key, now + (wait - 1) as real))
  {
    var retry := RetryAfter(r, After(r, calls), key, now);
    RetryExact(r, calls, key, now, HeaderSeconds(retry) as real);
    if HeaderSeconds(retry) > 1 {
      RetryExact(r, calls, key, now, (HeaderSeconds(retry) - 1) as real);
    }
  }

  /** `n` calls on one key at one time. */
  function Burst(key: string, at: real, n: nat): seq<Call> {
    if n == 0 then [] else Burst(key, at, n - 1) + [Call(key, at)]
  }

  lemma ChargedAtOnce(r: Rate, bs: Buckets, key: string, at: real)
    ensures var level := Available(r, bs, key, at);
      Available(r, Charge(r, bs, key, at), key, at) == Least(r.burst, if level >= 1.0 then level - 1.0 else level)
  {
  }

  lemma BurstSnoc(r: Rate, key: string, at: real, n: nat)
    requires n > 0
    ensures var bs := After(r, Burst(key, at, n - 1));
      && After(r, Burst(key, at, n)) == Charge(r, bs, key, at)
      && AllowedSince(r, Burst(key, at, n), key, at)
         == AllowedSince(r, Burst(key, at, n - 1), key, at) + (if Available(r, bs, key, at) >= 1.0 then 1 else 0)
  {
    var front := Burst(key, at, n - 1);
    assert Burst(key, at, n)[..|front|] == front;
  }

  /** A key never seen before has its whole burst at once: of calls made together, as many go through as the burst has whole tokens. */
  lemma {:induction false} BurstAllowed(r: Rate, key: string, at: real, n: nat)
    requires ValidRate(r)
    ensures var allowed := if n <= r.burst.Floor then n else r.burst.Floor;
      && AllowedSince(r, Burst(key, at, n), key, at) == allowed
      && Available(r, After(r, Burst(key, at, n)), key, at) == r.burst - allowed as real
  {
    if n > 0 {
      BurstAllowed(r, key, at, n - 1);
      BurstSnoc(r, key, at, n);
      ChargedAtOnce(r, After(r, Burst(key, at, n - 1)), key, at);
    }
  }
}
