/**
 * The dispatcher: one call acquires its route's record, fetches, counts the
 * attempt, updates the record from the reply's headers and acts on the
 * status. A 2xx returns the body; a 429 at the retry ceiling throws "Too many
 * retries"; a 429 below it starts a detached retry of the same request and,
 * like every other status, ends with `consume()` and no value.
 */
module RequestHandler {
  import opened Wrappers
  import opened Http
  import opened Routes
  import opened RateLimits
  import Client

  /** One reply of the transport, with `now`, the clock reading taken when its headers are parsed. */
  datatype Reply = Reply(status: int, headers: Headers, body: Body, now: int)

  /** One outgoing request: method, URL, the Authorization header and the JSON body. */
  datatype Call = Call(m: Method, url: string, authorization: string, body: Body)

  /** How a call settles: the parsed body, the retry error, no value, or a failed network call. */
  datatype Outcome = Returned(body: Body) | TooManyRetries | NoValue | TransportFailed

  /** What a call does with a reply, given its attempt count after the increment. */
  datatype Handling = ReturnBody | Throw | RetryThenConsume | Consume

  function Classify(status: int, attempts: int, maxRetries: int): Handling {
    if 200 <= status < 300 then ReturnBody
    else if status == 429 then (if attempts >= maxRetries then Throw else RetryThenConsume)
    else Consume
  }

  /**
   * A retry chain: the transport calls it makes, how many of them got a
   * reply, how its last call settles, and how many times it calls `consume()`.
   */
  datatype Chain = Chain(calls: nat, answered: nat, end: Outcome, consumes: nat)

  /**
   * The chain started by `request(..., attempts)` when the transport gives
   * `replies` in order: every reply but the last was a 429 below the
   * ceiling, every such reply and a final status-neutral reply consume once,
   * and a 2xx or a 429 at the ceiling ends the chain without consuming.
   */
  function Run(replies: seq<Reply>, attempts: int, maxRetries: int): (t: Chain)
    ensures 1 <= t.calls && t.answered <= |replies|
    ensures t.calls == t.answered + (if t.end == TransportFailed then 1 else 0)
    ensures t.consumes == if t.end.Returned? || t.end == TooManyRetries then t.answered - 1 else t.answered
    ensures forall i :: 0 <= i < t.calls - 1 ==> replies[i].status == 429
    ensures t.end.Returned? ==>
      200 <= replies[t.answered - 1].status < 300 && t.end.body == replies[t.answered - 1].body
    ensures t.end == TooManyRetries ==> replies[t.answered - 1].status == 429
    ensures t.end == NoValue ==>
      !(200 <= replies[t.answered - 1].status < 300) && replies[t.answered - 1].status != 429
    decreases |replies|
  {
    if replies == [] then Chain(1, 0, TransportFailed, 0)
    else
      var reply := replies[0];
      match Classify(reply.status, attempts + 1, maxRetries)
      case ReturnBody => Chain(1, 1, Returned(reply.body), 0)
      case Throw => Chain(1, 1, TooManyRetries, 0)
      case Consume => Chain(1, 1, NoValue, 1)
      case RetryThenConsume =>
        var rest := Run(replies[1..], attempts + 1, maxRetries);
        Chain(1 + rest.calls, 1 + rest.answered, rest.end, 1 + rest.consumes)
  }

  /** What the original caller's promise settles to: a retried call resolves with no value. */
  function CallerOutcome(replies: seq<Reply>, attempts: int, maxRetries: int): (r: Outcome)
    ensures r == TransportFailed <==> replies == []
    ensures r.Returned? <==> replies != [] && 200 <= replies[0].status < 300
    ensures r.Returned? ==> r.body == replies[0].body
    ensures r == TooManyRetries <==> replies != [] && replies[0].status == 429 && attempts + 1 >= maxRetries
  {
    if replies == [] then TransportFailed
    else match Classify(replies[0].status, attempts + 1, maxRetries)
      case ReturnBody => Returned(replies[0].body)
      case Throw => TooManyRetries
      case _ => NoValue
  }

  function Max(a: int, b: int): int {
    if a >= b then a else b
  }

  /** `n` copies of `x`. */
  function Repeat<T>(x: T, n: nat): (r: seq<T>)
    ensures |r| == n && forall i :: 0 <= i < n ==> r[i] == x
  {
    if n == 0 then [] else [x] + Repeat(x, n - 1)
  }

  /** The record after the headers of `replies` have been applied in order. */
  function ApplyAll(l: Limits, replies: seq<Reply>): Limits
    decreases |replies|
  {
    if replies == [] then l else ApplyAll(Updated(l, replies[0].headers, replies[0].now), replies[1..])
  }

  /** Applying the first k + 1 replies is applying the first, then the next k. */
  lemma ApplyAllPrefix(l: Limits, replies: seq<Reply>, k: nat)
    requires k < |replies|
    ensures ApplyAll(l, replies[..k + 1])
      == ApplyAll(Updated(l, replies[0].headers, replies[0].now), replies[1..][..k])
  {
    assert replies[..k + 1][1..] == replies[1..][..k];
  }

  /** The record's `expires` after a chain is whatever the chain's last reply set it to. */
  lemma {:induction false} ExpiresFromLastReply(l: Limits, replies: seq<Reply>)
    requires replies != []
    decreases |replies|
    ensures ApplyAll(l, replies).expires
      == Updated(l, replies[|replies| - 1].headers, replies[|replies| - 1].now).expires
  {
    if |replies| > 1 {
      var next := Updated(l, replies[0].headers, replies[0].now);
      ExpiresFromLastReply(next, replies[1..]);
      ExpiresForgetsPreviousState(next, l, replies[|replies| - 1].headers, replies[|replies| - 1].now);
    }
  }

  /** What one logical call does: the bucket's final state, the logs it appends, and how it settles. */
  datatype Effect = Effect(
    state: Limits, sent: seq<Call>, unanswered: seq<Reply>, consumes: nat,
    caller: Outcome, settled: Outcome)

  /**
   * `request(m, endpoint, body, attempts)` on values: the route's bucket
   * starts in `state` and the transport will give `replies`. Each call sends
   * one request, applies its reply's headers before looking at the status,
   * and on a 429 below the ceiling consumes and hands on to the retry.
   */
  function Dispatch(client: Client.UnbClient, state: Limits, replies: seq<Reply>,
                    m: Method, endpoint: string, body: Body, attempts: int): Effect
    decreases |replies|
  {
    var call := Call(m, Url(client.options.baseURL, client.options.version, endpoint), client.token, body);
    if replies == [] then Effect(state, [call], [], 0, TransportFailed, TransportFailed)
    else
      var reply := replies[0];
      var count := attempts + 1;
      var next := Updated(state, reply.headers, reply.now);
      match Classify(reply.status, count, client.options.maxRetries)
      case ReturnBody => Effect(next, [call], replies[1..], 0, Returned(reply.body), Returned(reply.body))
      case Throw => Effect(next, [call], replies[1..], 0, TooManyRetries, TooManyRetries)
      case Consume => Effect(next, [call], replies[1..], 1, NoValue, NoValue)
      case RetryThenConsume =>
        var rest := Dispatch(client, next, replies[1..], m, endpoint, body, count);
        Effect(rest.state, [call] + rest.sent, rest.unanswered, 1 + rest.consumes, NoValue, rest.settled)
  }

  /**
   * A logical call, summarised: it sends the same request once per call of
   * its chain, uses the first `answered` replies, updates the bucket from
   * each of them in order, consumes once per non-final call (and on a final
   * status-neutral reply), and settles as `CallerOutcome` for the caller and
   * as the chain's last call for the retry.
   */
  lemma {:induction false} DispatchFollowsChain(client: Client.UnbClient, state: Limits, replies: seq<Reply>,
                                               m: Method, endpoint: string, body: Body, attempts: int)
    ensures var e := Dispatch(client, state, replies, m, endpoint, body, attempts);
      var t := Run(replies, attempts, client.options.maxRetries);
      var call := Call(m, Url(client.options.baseURL, client.options.version, endpoint), client.token, body);
      && e.sent == Repeat(call, t.calls)
      && e.unanswered == replies[t.answered..]
      && e.state == ApplyAll(state, replies[..t.answered])
      && e.consumes == t.consumes
      && e.caller == CallerOutcome(replies, attempts, client.options.maxRetries)
      && e.settled == t.end
    decreases |replies|
  {
    if replies != [] {
      var reply := replies[0];
      var next := Updated(state, reply.headers, reply.now);
      if Classify(reply.status, attempts + 1, client.options.maxRetries) == RetryThenConsume {
        DispatchFollowsChain(client, next, replies[1..], m, endpoint, body, attempts + 1);
        var rest := Run(replies[1..], attempts + 1, client.options.maxRetries);
        ApplyAllPrefix(state, replies, rest.answered);
        assert replies[1..][rest.answered..] == replies[1 + rest.answered..];
      } else {
        assert replies[..1] == [reply];
      }
    }
  }

  /** A 2xx reply returns its body to the caller at once: one call, no retry, no `consume()`. */
  lemma SuccessReturnsBody(replies: seq<Reply>, attempts: int, maxRetries: int)
    requires replies != [] && 200 <= replies[0].status < 300
    ensures Run(replies, attempts, maxRetries) == Chain(1, 1, Returned(replies[0].body), 0)
    ensures CallerOutcome(replies, attempts, maxRetries) == Returned(replies[0].body)
  {
  }

  /** A 429 once the incremented count reaches `maxRetries` throws, with no retry and no `consume()`. */
  lemma ThrottledAtCeilingThrows(replies: seq<Reply>, attempts: int, maxRetries: int)
    requires replies != [] && replies[0].status == 429 && attempts + 1 >= maxRetries
    ensures Run(replies, attempts, maxRetries) == Chain(1, 1, TooManyRetries, 0)
    ensures CallerOutcome(replies, attempts, maxRetries) == TooManyRetries
  {
  }

  /**
   * A 429 below the ceiling resolves the caller with no value after one
   * `consume()`, and issues exactly one retry, whose chain starts at the
   * incremented count.
   */
  lemma ThrottledBelowCeilingRetriesOnce(replies: seq<Reply>, attempts: int, maxRetries: int)
    requires replies != [] && replies[0].status == 429 && attempts + 1 < maxRetries
    ensures CallerOutcome(replies, attempts, maxRetries) == NoValue
    ensures var rest := Run(replies[1..], attempts + 1, maxRetries);
      Run(replies, attempts, maxRetries) == Chain(1 + rest.calls, 1 + rest.answered, rest.end, 1 + rest.consumes)
  {
  }

  /** Any other status falls through to one `consume()` and resolves with no value. */
  lemma OtherStatusFallsThrough(replies: seq<Reply>, attempts: int, maxRetries: int)
    requires replies != [] && !(200 <= replies[0].status < 300) && replies[0].status != 429
    ensures Run(replies, attempts, maxRetries) == Chain(1, 1, NoValue, 1)
    ensures CallerOutcome(replies, attempts, maxRetries) == NoValue
  {
  }

  /** The ceiling bounds a chain: it makes at most max(maxRetries - attempts, 1) transport calls. */
  lemma {:induction false} CallsWithinCeiling(replies: seq<Reply>, attempts: int, maxRetries: int)
    ensures Run(replies, attempts, maxRetries).calls <= Max(maxRetries - attempts, 1)
    decreases |replies|
  {
    if replies != [] && Classify(replies[0].status, attempts + 1, maxRetries) == RetryThenConsume {
      CallsWithinCeiling(replies[1..], attempts + 1, maxRetries);
    }
  }

  /**
   * Under persistent 429 replies, a chain makes exactly
   * max(maxRetries - attempts, 1) calls and ends in "Too many retries".
   */
  lemma {:induction false} PersistentThrottle(replies: seq<Reply>, attempts: int, maxRetries: int)
    requires forall i :: 0 <= i < |replies| ==> replies[i].status == 429
    requires |replies| >= Max(maxRetries - attempts, 1)
    ensures var n := Max(maxRetries - attempts, 1);
      Run(replies, attempts, maxRetries) == Chain(n, n, TooManyRetries, n - 1)
    decreases |replies|
  {
    if attempts + 1 < maxRetries {
      PersistentThrottle(replies[1..], attempts + 1, maxRetries);
    }
  }

  /**
   * The retry is detached: from a fresh call with the default ceiling of 3,
   * the caller never sees "Too many retries", even when the chain it started
   * ends in it after exactly 3 calls.
   */
  lemma DetachedRetryErrorUnseen(replies: seq<Reply>)
    requires forall i :: 0 <= i < |replies| ==> replies[i].status == 429
    requires |replies| >= 3
    ensures CallerOutcome(replies, 0, Client.DefaultOptions.maxRetries) == NoValue
    ensures Run(replies, 0, Client.DefaultOptions.maxRetries) == Chain(3, 3, TooManyRetries, 2)
  {
    PersistentThrottle(replies, 0, 3);
  }

  /** The scripted transport: replies are handed out in order; every request sent is logged. */
  class Transport {
    var replies: seq<Reply>
    var sent: seq<Call>

    constructor (replies: seq<Reply>)
      ensures this.replies == replies && sent == []
    {
      this.replies := replies;
      sent := [];
    }

    /** One network call; it fails (None) once the script has run out. */
    method Fetch(call: Call) returns (r: Option<Reply>)
      modifies this
      ensures sent == old(sent) + [call]
      ensures old(replies) == [] ==> r == None && replies == []
      ensures old(replies) != [] ==> r == Some(old(replies)[0]) && replies == old(replies)[1..]
    {
      sent := sent + [call];
      if replies == [] {
        r := None;
      } else {
        r := Some(replies[0]);
        replies := replies[1..];
      }
    }
  }

  class RequestHandler {
    const client: Client.UnbClient
    const ratelimits: RateLimitManager
    const transport: Transport

    constructor (client: Client.UnbClient, initial: Limits, transport: Transport)
      ensures this.client == client && this.transport == transport
      ensures fresh(ratelimits) && ratelimits.Valid() && ratelimits.buckets == map[]
      ensures ratelimits.initial == initial
    {
      this.client := client;
      this.transport := transport;
      ratelimits := new RateLimitManager(initial);
    }

    /** `parseRateLimitHeaders`, on the clock reading `now`. */
    method ParseRateLimitHeaders(headers: Headers, ratelimit: RateLimit, now: int)
      modifies ratelimit
      ensures ratelimit.State() == Updated(old(ratelimit.State()), headers, now)
      ensures ratelimit.consumed == old(ratelimit.consumed)
    {
      var count := Lookup(headers, RemainingHeader);
      if Truthy(count) {
        ratelimit.remaining := ratelimit.remaining + JsNumbers.OrElse(JsNumbers.ToNumber(count.value), 0);
      } else {
        ratelimit.remaining := 1;
      }

      var retryAfter := Lookup(headers, RetryAfterHeader);
      var reset := Lookup(headers, ResetHeader);
      if Truthy(retryAfter) {
        ratelimit.expires := JsNumbers.Finite(JsNumbers.OrElse(JsNumbers.ToNumber(retryAfter.value), 1) + now);
      } else if Truthy(reset) {
        ratelimit.expires := JsNumbers.MaxWith(JsNumbers.ToNumber(reset.value), now);
      } else {
        ratelimit.expires := JsNumbers.Finite(now);
      }
    }

    /**
     * The first half of `request`: acquire the route's record, send the
     * request and, when a reply comes back, update the record from its headers.
     */
    method Attempt(m: Method, endpoint: string, body: Body) returns (reply: Option<Reply>)
      requires ratelimits.Valid()
      modifies ratelimits, ratelimits.Bucket(RouteKey(m, endpoint)), transport
      ensures ratelimits.Valid()
      ensures var key := RouteKey(m, endpoint);
        && transport.sent == old(transport.sent)
             + [Call(m, Url(client.options.baseURL, client.options.version, endpoint), client.token, body)]
        && (old(transport.replies) == [] ==> reply == None && transport.replies == [])
        && (old(transport.replies) != [] ==> reply == Some(old(transport.replies)[0]) && transport.replies == old(transport.replies)[1..])
        && key in ratelimits.buckets
        && ratelimits.buckets == old(ratelimits.buckets)[key := ratelimits.buckets[key]]
        && (key in old(ratelimits.buckets) ==> ratelimits.buckets[key] == old(ratelimits.buckets[key]))
        && (key !in old(ratelimits.buckets) ==> fresh(ratelimits.buckets[key]))
        && ratelimits.buckets[key].consumed == old(ratelimits.ConsumedOf(key))
        && ratelimits.buckets[key].State()
           == if reply.None? then old(ratelimits.StateOf(key))
              else Updated(old(ratelimits.StateOf(key)), reply.value.headers, reply.value.now)
    {
      var ratelimit := ratelimits.Acquire(RouteKey(m, endpoint));
      var url := Url(client.options.baseURL, client.options.version, endpoint);
      reply := transport.Fetch(Call(m, url, client.token, body));
      if reply.Some? {
        ParseRateLimitHeaders(reply.value.headers, ratelimit, reply.value.now);
      }
    }

    /**
     * `request(method, endpoint, body, attempts)`. `caller` is what the
     * caller's promise settles to; `settled` is how the detached retry chain
     * it started ends (the same as `caller` when there was no retry).
     */
    method Request(m: Method, endpoint: string, body: Body, attempts: int) returns (caller: Outcome, settled: Outcome)
      requires ratelimits.Valid()
      modifies ratelimits, ratelimits.Bucket(RouteKey(m, endpoint)), transport
      decreases |transport.replies|
      ensures ratelimits.Valid()
      ensures RouteKey(m, endpoint) in ratelimits.buckets
      ensures ratelimits.buckets == old(ratelimits.buckets)[RouteKey(m, endpoint) := ratelimits.buckets[RouteKey(m, endpoint)]]
      ensures RouteKey(m, endpoint) in old(ratelimits.buckets) ==>
        ratelimits.buckets[RouteKey(m, endpoint)] == old(ratelimits.buckets[RouteKey(m, endpoint)])
      ensures RouteKey(m, endpoint) !in old(ratelimits.buckets) ==> fresh(ratelimits.buckets[RouteKey(m, endpoint)])
      ensures var e := Dispatch(client, old(ratelimits.StateOf(RouteKey(m, endpoint))), old(transport.replies), m, endpoint, body, attempts);
        caller == e.caller && settled == e.settled
      ensures transport.sent == old(transport.sent) + Dispatch(client, old(ratelimits.StateOf(RouteKey(m, endpoint))), old(transport.replies), m, endpoint, body, attempts).sent
      ensures transport.replies == Dispatch(client, old(ratelimits.StateOf(RouteKey(m, endpoint))), old(transport.replies), m, endpoint, body, attempts).unanswered
      ensures ratelimits.buckets[RouteKey(m, endpoint)].consumed
        == old(ratelimits.ConsumedOf(RouteKey(m, endpoint))) + Dispatch(client, old(ratelimits.StateOf(RouteKey(m, endpoint))), old(transport.replies), m, endpoint, body, attempts).consumes
      ensures ratelimits.buckets[RouteKey(m, endpoint)].State() == Dispatch(client, old(ratelimits.StateOf(RouteKey(m, endpoint))), old(transport.replies), m, endpoint, body, attempts).state
    {
      var reply := Attempt(m, endpoint, body);
      if reply.None? {
        return TransportFailed, TransportFailed;
      }
      var response := reply.value;
      var count := attempts + 1;
      if 200 <= response.status < 300 {
        return Returned(response.body), Returned(response.body);
      } else if response.status == 429 && count >= client.options.maxRetries {
        return TooManyRetries, TooManyRetries;
      }

      caller, settled := NoValue, NoValue;
      if response.status == 429 {
        ghost var sent0 := transport.sent;
        var retryCaller;
        retryCaller, settled := Request(m, endpoint, body, count);
        assert transport.sent == sent0 + transport.sent[|sent0|..];
      }
      ratelimits.buckets[RouteKey(m, endpoint)].Consume();
    }
  }

  /** Two routes share one record exactly when method and endpoint agree. */
  lemma SharedBucketIffSameRoute(manager: RateLimitManager, m1: Method, e1: string, m2: Method, e2: string)
    requires manager.Valid()
    requires RouteKey(m1, e1) in manager.buckets && RouteKey(m2, e2) in manager.buckets
    ensures manager.buckets[RouteKey(m1, e1)] == manager.buckets[RouteKey(m2, e2)] <==> m1 == m2 && e1 == e2
  {
    RouteKeyInjective(m1, e1, m2, e2);
  }
}
