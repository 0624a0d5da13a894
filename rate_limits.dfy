/**
 * Per-route rate-limit state: the record `{remaining, expires}` of one
 * bucket, how one response's headers update it, and the table that hands
 * out one record per route key, creating it on first use.
 */
module RateLimits {
  import opened Wrappers
  import opened JsNumbers
  import opened Http

  const RemainingHeader := "x-ratelimit-remaining"
  const RetryAfterHeader := "retry-after"
  const ResetHeader := "x-ratelimit-reset"

  /** The value of one bucket record; `expires` is NaN after a non-numeric reset header. */
  datatype Limits = Limits(remaining: int, expires: Num)

  /**
   * The record after `parseRateLimitHeaders` has seen headers `h` at time
   * `now`: a reported count is ADDED to `remaining` (a missing or empty one
   * sets it to 1); `expires` comes from retry-after (`|| 1`), else from the
   * reset header (never before `now`), else it is `now`.
   */
  function Updated(l: Limits, h: Headers, now: int): Limits {
    var count := Lookup(h, RemainingHeader);
    var retryAfter := Lookup(h, RetryAfterHeader);
    var reset := Lookup(h, ResetHeader);
    var remaining := if Truthy(count) then l.remaining + OrElse(ToNumber(count.value), 0) else 1;
    var expires :=
      if Truthy(retryAfter) then Finite(OrElse(ToNumber(retryAfter.value), 1) + now)
      else if Truthy(reset) then MaxWith(ToNumber(reset.value), now)
      else Finite(now);
    Limits(remaining, expires)
  }

  /** A reported count of n raises `remaining` by n. */
  lemma RemainingAddsReportedCount(l: Limits, h: Headers, now: int, n: int)
    requires Lookup(h, RemainingHeader) == Some(IntToDecimal(n))
    ensures Updated(l, h, now).remaining == l.remaining + n
  {
    ToNumberOfDecimal(n);
  }

  /** Two responses reporting n1 and then n2 raise `remaining` by n1 + n2: the count accumulates. */
  lemma RemainingAccumulates(l: Limits, h1: Headers, h2: Headers, t1: int, t2: int, n1: int, n2: int)
    requires Lookup(h1, RemainingHeader) == Some(IntToDecimal(n1))
    requires Lookup(h2, RemainingHeader) == Some(IntToDecimal(n2))
    ensures Updated(Updated(l, h1, t1), h2, t2).remaining == l.remaining + n1 + n2
  {
    RemainingAddsReportedCount(l, h1, t1, n1);
    RemainingAddsReportedCount(Updated(l, h1, t1), h2, t2, n2);
  }

  /** A count that is not a number adds nothing. */
  lemma RemainingIgnoresNonNumericCount(l: Limits, h: Headers, now: int)
    requires Truthy(Lookup(h, RemainingHeader)) && ToNumber(h[RemainingHeader]).NaN?
    ensures Updated(l, h, now).remaining == l.remaining
  {
  }

  /** Without a count, or with an empty one, `remaining` becomes exactly 1 whatever it was. */
  lemma RemainingWithoutCount(l: Limits, h: Headers, now: int)
    requires RemainingHeader !in h || h[RemainingHeader] == ""
    ensures Updated(l, h, now).remaining == 1
  {
  }

  /** A retry-after of n sets `expires` to now + n, or to now + 1 when n is 0. */
  lemma ExpiresFromRetryAfter(l: Limits, h: Headers, now: int, n: int)
    requires Lookup(h, RetryAfterHeader) == Some(IntToDecimal(n))
    ensures Updated(l, h, now).expires == Finite(now + (if n == 0 then 1 else n))
  {
    ToNumberOfDecimal(n);
  }

  /** A retry-after that is not a number counts as 1. */
  lemma ExpiresFromNonNumericRetryAfter(l: Limits, h: Headers, now: int)
    requires Truthy(Lookup(h, RetryAfterHeader)) && ToNumber(h[RetryAfterHeader]).NaN?
    ensures Updated(l, h, now).expires == Finite(now + 1)
  {
  }

  /**
   * The fallback is `|| 1`, not a lower bound of 1: a negative retry-after
   * puts `expires` before `now`.
   */
  lemma NegativeRetryAfterPrecedesNow(l: Limits, h: Headers, now: int, n: int)
    requires Lookup(h, RetryAfterHeader) == Some(IntToDecimal(n)) && n < 0
    ensures Updated(l, h, now).expires.Finite? && Updated(l, h, now).expires.value < now
  {
    ExpiresFromRetryAfter(l, h, now, n);
  }

  /** Without retry-after, a numeric reset time t sets `expires` to max(t, now), never before now. */
  lemma ExpiresFromReset(l: Limits, h: Headers, now: int, t: int)
    requires !Truthy(Lookup(h, RetryAfterHeader))
    requires Lookup(h, ResetHeader) == Some(IntToDecimal(t))
    ensures Updated(l, h, now).expires == Finite(if t >= now then t else now)
    ensures Updated(l, h, now).expires.value >= now
  {
    ToNumberOfDecimal(t);
  }

  /** Without retry-after, a reset header that is not a number makes `expires` NaN (`Math.max(NaN, now)`). */
  lemma ExpiresFromNonNumericReset(l: Limits, h: Headers, now: int)
    requires !Truthy(Lookup(h, RetryAfterHeader))
    requires Truthy(Lookup(h, ResetHeader)) && ToNumber(h[ResetHeader]).NaN?
    ensures Updated(l, h, now).expires.NaN?
  {
  }

  /** With neither timing header, the bucket expires at `now`. */
  lemma ExpiresWithoutTimingHeaders(l: Limits, h: Headers, now: int)
    requires !Truthy(Lookup(h, RetryAfterHeader)) && !Truthy(Lookup(h, ResetHeader))
    ensures Updated(l, h, now).expires == Finite(now)
  {
  }

  /** `expires` never depends on the record's previous state, only on the headers and the clock. */
  lemma ExpiresForgetsPreviousState(l1: Limits, l2: Limits, h: Headers, now: int)
    ensures Updated(l1, h, now).expires == Updated(l2, h, now).expires
  {
  }

  /** A response with no rate-limit headers at all leaves remaining = 1 and expires = now. */
  lemma NoHeadersExample(l: Limits, now: int)
    ensures Updated(l, map[], now) == Limits(1, Finite(now))
  {
  }

  /** `Retry-After: 2` at time T gives expires = T + 2 (and `X-RateLimit-Remaining: 5` adds 5). */
  lemma RetryAfterTwoExample(l: Limits, now: int)
    ensures Updated(l, map[RetryAfterHeader := "2", RemainingHeader := "5"], now)
      == Limits(l.remaining + 5, Finite(now + 2))
  {
    var h := map[RetryAfterHeader := "2", RemainingHeader := "5"];
    assert IntToDecimal(2) == "2" && IntToDecimal(5) == "5";
    ExpiresFromRetryAfter(l, h, now, 2);
    RemainingAddsReportedCount(l, h, now, 5);
  }

  /** The record of one bucket, updated in place. */
  class RateLimit {
    var remaining: int
    var expires: Num
    /** How many times `consume()` has been called on this record. */
    var consumed: nat

    constructor (initial: Limits)
      ensures State() == initial && consumed == 0
    {
      remaining := initial.remaining;
      expires := initial.expires;
      consumed := 0;
    }

    /** `consume()`, counted; what it does to the bucket itself is not modelled. */
    method Consume()
      modifies this
      ensures consumed == old(consumed) + 1
      ensures State() == old(State())
    {
      consumed := consumed + 1;
    }

    function State(): Limits
      reads this
    {
      Limits(remaining, expires)
    }
  }

  /** The per-route table: one record per route key, created lazily and never evicted. */
  class RateLimitManager {
    /** What a freshly created record holds. */
    const initial: Limits
    var buckets: map<string, RateLimit>

    /** Each key owns its own record, so updating one bucket touches no other. */
    ghost predicate Valid()
      reads this
    {
      forall k1, k2 :: k1 in buckets && k2 in buckets && k1 != k2 ==> buckets[k1] != buckets[k2]
    }

    /** The record of `key`, as a frame: empty while the key has none. */
    function Bucket(key: string): set<RateLimit>
      reads this
    {
      if key in buckets then {buckets[key]} else {}
    }

    /** The state `acquire(key)` would hand out: the bucket's, or the initial one for a new key. */
    function StateOf(key: string): Limits
      reads this, buckets.Values
    {
      if key in buckets then buckets[key].State() else initial
    }

    /** How often `consume()` has been called on the record of `key` (0 before it has one). */
    function ConsumedOf(key: string): nat
      reads this, buckets.Values
    {
      if key in buckets then buckets[key].consumed else 0
    }

    constructor (initial: Limits)
      ensures Valid() && this.initial == initial && buckets == map[]
    {
      this.initial := initial;
      buckets := map[];
    }

    /** `acquire(key)`: the key's record, created with the initial state if the key is new. */
    method Acquire(key: string) returns (r: RateLimit)
      requires Valid()
      modifies this
      ensures Valid()
      ensures key in old(buckets) ==> r == old(buckets[key])
      ensures key !in old(buckets) ==> fresh(r)
      ensures buckets == old(buckets)[key := r]
      ensures r.State() == old(StateOf(key)) && r.consumed == old(ConsumedOf(key))
    {
      if key in buckets {
        r := buckets[key];
      } else {
        r := new RateLimit(initial);
        buckets := buckets[key := r];
      }
    }
  }
}
