# unb-api request dispatcher, modelled in Dafny

This project models the core of a small client library for the
UnbelievaBoat HTTP API. It covers three parts:

- **The client** (`UnbCLient`). Its constructor rejects a missing, empty or
  non-string token and fills in default options (`https://unbelievaboat.com/api`,
  `v1`, at most 3 tries). Its `editUserBalance` sends a PATCH to
  `guilds/<guild>/users/<user>`, with a default audit reason when no data is given.
- **The dispatcher** (`RequestHandler.request`). Each call does the following, in order:
  - picks the rate-limit record of its route key `<METHOD>/<endpoint>`, creating it on first use;
  - fetches `<baseURL>/<version>/<endpoint>` with the token as `Authorization`;
  - counts the attempt;
  - updates the record from the reply's headers;
  - acts on the status. A 2xx returns the parsed body. A 429 at the retry
    ceiling throws "Too many retries". A 429 below the ceiling starts a
    detached retry. Every other status, and the 429 that was retried, ends
    with `consume()` and no value.
- **Header parsing** (`parseRateLimitHeaders`). It updates `remaining` from
  `X-RateLimit-Remaining`. It sets `expires` from `retry-after`, else from
  `X-RateLimit-Reset`, else to the current time.

Modules:

- `Wrappers`: Option, Result.
- `JsNumbers`: the part of JavaScript's `Number()` this code needs, `|| fallback`, and `Math.max` with NaN.
- `Http`: methods, bodies, headers and how JavaScript tests a header for truth.
- `Routes`: route key and URL, and the proofs that they are injective.
- `Client`: `Client.ts`, on values.
- `RateLimits`: the record value, the pure header update `Updated`, its lemmas, and the record and table classes.
- `RequestHandler`: the pure specification `Dispatch`/`Run`/`CallerOutcome` with its lemmas, the scripted `Transport`, and the `RequestHandler` class.
  - `RequestHandler.Request` is proved against `Dispatch`.
  - `DispatchFollowsChain` ties `Dispatch` to the chain summary `Run`, which states the retry behaviour.

Where the code does something other than its documentation suggests, the model follows the code:

- A reported remaining count is **added** to the record (`+=`). It does not replace the old value.
- A `retry-after` of `0` or a non-numeric one counts as 1 (`|| 1`). A negative value is kept, so `expires` can lie before `now`.
- A status that is neither 2xx nor 429 resolves with no value; it does not throw.
- The retry is fire-and-forget: the caller whose call was retried gets no value. A "Too many retries" at the end of the chain is never seen by that caller.
- `Math.max(NaN, now)` is NaN, so `expires` is a `Num` that may be NaN.
- `maxRetries` is documented as the number of retries of a rate-limited request (default 3). The code counts transport calls instead: the count is incremented before the check `attempts >= maxRetries`. From attempt 0, the default of 3 therefore allows 3 calls, which is 2 retries. `PersistentThrottle` and `DetachedRetryErrorUnseen` state the count as the code has it.

## Model

| member | source | states |
|---|---|---|
| JsNumbers.OrElse | src/lib/structures/RequestHandler.ts:57-65 | `Number(s) \|\| d` is the number when it is finite and non-zero, and `d` exactly when the number is NaN or 0 (or equals `d`) |
| JsNumbers.MaxWith | src/lib/structures/RequestHandler.ts:67 | `Math.max(n, m)` is NaN exactly when `n` is; otherwise it is one of the two, and not below either |
| JsNumbers.DigitsRoundTrip | src/lib/structures/RequestHandler.ts:57-67 | reading back the decimal digits of a natural number gives that number |
| JsNumbers.ToNumberOfDecimal | src/lib/structures/RequestHandler.ts:57-67 | `Number()` of a header that holds the decimal form of an integer (with a `-` sign when negative) is that integer |
| Http.Lookup | src/lib/structures/RequestHandler.ts:55-63 | `headers.get(name)` finds a value exactly when the header is present, and it is that header's value |
| Routes.FirstSlashOfJoin | src/lib/structures/RequestHandler.ts:11 | in `a/b` with no slash in `a`, the first slash is right after `a` |
| Routes.SplitAtFirstSlash | src/lib/structures/RequestHandler.ts:11 | `a/b == c/d` with no slash in `a` or `c` holds exactly when `a == c` and `b == d` |
| Routes.RouteKeyInjective | src/lib/structures/RequestHandler.ts:11 | two calls share a route key exactly when their method and endpoint are both equal |
| Routes.UrlInjective | src/lib/structures/RequestHandler.ts:14 | on one host, two URLs are equal exactly when version and endpoint agree (versions hold no slash) |
| Client.NewClient | src/lib/Client.ts:31-45 | construction succeeds exactly when the token is a non-empty string. Otherwise it fails with `TypeError('The API token must be a string')`. On success the token is kept, and the given options are kept or the three defaults are used |
| Client.PrivateRequest | src/lib/Client.ts:59-61 | `_request` passes method and endpoint on unchanged, starts at attempt 0, and sends `{}` when no body is given |
| Client.EditUserBalance | src/lib/Client.ts:55-56 | a PATCH of `guilds/<g>/users/<u>` at attempt 0. It sends the given data, or `{ reason: '@chikoshidori/unb-api did this.' }` when there is none |
| Client.BalanceBucketsPerMember | src/lib/Client.ts:55-56 | two balance edits share a rate-limit bucket exactly when guild and user agree (guild ids hold no slash) |
| Client.DefaultBalanceUrl | src/lib/Client.ts:38-56 | with default options, a balance edit fetches `https://unbelievaboat.com/api/v1/guilds/<g>/users/<u>` |
| RateLimits.RemainingAddsReportedCount | src/lib/structures/RequestHandler.ts:55-57 | a reported remaining count of n raises `remaining` by n |
| RateLimits.RemainingAccumulates | src/lib/structures/RequestHandler.ts:57 | two replies reporting n1 then n2 raise `remaining` by n1 + n2 |
| RateLimits.RemainingIgnoresNonNumericCount | src/lib/structures/RequestHandler.ts:57 | a non-numeric remaining count leaves `remaining` as it was (`\|\| 0`) |
| RateLimits.RemainingWithoutCount | src/lib/structures/RequestHandler.ts:58-60 | a missing or empty remaining header sets `remaining` to 1 |
| RateLimits.ExpiresFromRetryAfter | src/lib/structures/RequestHandler.ts:64-65 | a retry-after of n sets `expires` to now + n, and to now + 1 when n is 0 |
| RateLimits.ExpiresFromNonNumericRetryAfter | src/lib/structures/RequestHandler.ts:65 | a non-numeric retry-after sets `expires` to now + 1 |
| RateLimits.NegativeRetryAfterPrecedesNow | src/lib/structures/RequestHandler.ts:65 | a negative retry-after sets `expires` before now |
| RateLimits.ExpiresFromReset | src/lib/structures/RequestHandler.ts:66-67 | without retry-after, a reset time t sets `expires` to max(t, now), never before now |
| RateLimits.ExpiresFromNonNumericReset | src/lib/structures/RequestHandler.ts:67 | a non-numeric reset header (without retry-after) sets `expires` to NaN |
| RateLimits.ExpiresWithoutTimingHeaders | src/lib/structures/RequestHandler.ts:68-69 | with neither timing header, `expires` is now |
| RateLimits.ExpiresForgetsPreviousState | src/lib/structures/RequestHandler.ts:62-70 | the new `expires` depends only on the headers and now, not on the old record |
| RateLimits.NoHeadersExample | src/lib/structures/RequestHandler.ts:52-71 | a reply without rate-limit headers leaves the record at remaining 1, expiring now |
| RateLimits.RetryAfterTwoExample | src/lib/structures/RequestHandler.ts:52-71 | `retry-after: 2` with a remaining count of 5 adds 5 and expires at now + 2 |
| RateLimits.RateLimit.constructor | src/lib/structures/RequestHandler.ts:11 | a new record starts in the table's initial state, never consumed |
| RateLimits.RateLimit.Consume | src/lib/structures/RequestHandler.ts:49 | `consume()` is counted once on that record. The model assumes it leaves `remaining` and `expires` unchanged (see "## Left out") |
| RateLimits.RateLimitManager.constructor | src/lib/structures/RequestHandler.ts:6 | the table starts empty, with each key owning its own record |
| RateLimits.RateLimitManager.Acquire | src/lib/structures/RequestHandler.ts:11 | `acquire(key)` returns the key's existing record, or a fresh one in the initial state. It adds just that key to the table and keeps every key's record distinct |
| RequestHandler.Run | src/lib/structures/RequestHandler.ts:10-50 | a chain makes at least one call and uses at most the replies it is given. Every reply but the last is a 429, and it consumes once per retried call and once on a final other status. A body is returned only for a final 2xx, the error only for a final 429, and no value only for a final other status |
| RequestHandler.CallerOutcome | src/lib/structures/RequestHandler.ts:37-47 | the caller sees the body exactly when the first reply is 2xx, the error exactly when the first reply is a 429 at the ceiling, and a network failure exactly when there is no reply |
| RequestHandler.ExpiresFromLastReply | src/lib/structures/RequestHandler.ts:26 | after a chain, the bucket's `expires` is what the chain's last reply's headers set, with `consume()` assumed to leave it unchanged (see "## Left out") |
| RequestHandler.DispatchFollowsChain | src/lib/structures/RequestHandler.ts:10-50 | a logical call sends the same request once per chain call and uses exactly the answered replies. It applies each reply's headers in order, consumes as `Run` counts, and settles as `CallerOutcome` for the caller and as the chain's end for the retry |
| RequestHandler.SuccessReturnsBody | src/lib/structures/RequestHandler.ts:39-40 | a 2xx returns its body at once: one call, no retry, no `consume()` |
| RequestHandler.ThrottledAtCeilingThrows | src/lib/structures/RequestHandler.ts:41-43 | a 429 once the incremented count reaches `maxRetries` throws, without a retry or `consume()` |
| RequestHandler.ThrottledBelowCeilingRetriesOnce | src/lib/structures/RequestHandler.ts:28-45 | a 429 below the ceiling gives the caller no value and starts exactly one retry at the incremented count, plus one `consume()` |
| RequestHandler.OtherStatusFallsThrough | src/lib/structures/RequestHandler.ts:47-49 | any other status consumes once and resolves with no value |
| RequestHandler.CallsWithinCeiling | src/lib/structures/RequestHandler.ts:25-45 | a chain makes at most max(maxRetries - attempts, 1) transport calls |
| RequestHandler.PersistentThrottle | src/lib/structures/RequestHandler.ts:25-45 | under persistent 429s a chain makes exactly max(maxRetries - attempts, 1) calls, consumes one fewer time and ends in "Too many retries" |
| RequestHandler.DetachedRetryErrorUnseen | src/lib/structures/RequestHandler.ts:28-45 | with the default ceiling of 3 and persistent 429s, the caller gets no value while its chain ends in "Too many retries" after 3 calls |
| RequestHandler.Transport.Fetch | src/lib/structures/RequestHandler.ts:13-23 | one network call logs its request and hands out the next scripted reply, or fails when there is none |
| RequestHandler.RequestHandler.constructor | src/lib/structures/RequestHandler.ts:5-8 | a handler keeps its client and owns a fresh, empty rate-limit table |
| RequestHandler.RequestHandler.ParseRateLimitHeaders | src/lib/structures/RequestHandler.ts:52-71 | the record's new state is `Updated` of its old state, the headers and the clock reading, and its consume count is untouched |
| RequestHandler.RequestHandler.Attempt | src/lib/structures/RequestHandler.ts:11-26 | acquires the route's record only, sends the URL, token and body once, and takes the next reply. When a reply came back, the record's state is `Updated` by its headers |
| RequestHandler.RequestHandler.Request | src/lib/structures/RequestHandler.ts:10-50 | a call, with its retries, ends as `Dispatch` of the route's old state and the scripted replies says. That fixes what the caller and the chain settle to, the requests sent, the replies left, the route's consume count and its final state. It changes only that route's record and adds at most that key to the table |
| RequestHandler.SharedBucketIffSameRoute | src/lib/structures/RequestHandler.ts:11 | two calls share one rate-limit record exactly when method and endpoint both agree |

## Left out

- The network and JSON (`fetch`, `JSON.stringify`, `request.json()`). They are replaced by a scripted `Transport`: a list of replies, each with status, headers, parsed body and the clock reading at which its headers are parsed. A script that has run out stands for a failed network call. The model assumes that `fetch(..., FetchResultTypes.Result)` hands every reply, 429 and other non-2xx statuses included, back to the status handling instead of rejecting. The code's 429 branch relies on this; the fetch library is not part of this model.
- `Date.now()`: it is not read. Each reply carries its own `now`.
- The retry delay (`setTimeout` for `Number(retry-after)` ms) and async interleaving. The retry chain runs to its end inside the call that started it. Only the count of `consume()` calls per record is kept, not their order relative to other calls.
- Several calls in flight at once, and the unhandled rejection of a detached chain that ends in "Too many retries": no concurrency is modelled.
- `Number()` on forms other than an optionally signed decimal integer (whitespace, fractions, exponents, hex, `Infinity`) is left out. The model maps such text to NaN, while `Number()` parses `"1.5"`, `"1e3"`, `"0x10"` and `"Infinity"` to numbers. So a fractional `X-RateLimit-Reset` gives a NaN `expires` in the model but max(t, now) in the program, and `retry-after: 1.5` gives now + 1 in the model but now + 1.5 in the program. 64-bit floating-point arithmetic is modelled as unbounded integers.
- The internals of `@sapphire/ratelimits`. What a fresh record holds (set by `new RateLimitManager(1000)`) is the table's `initial` parameter. Records are never swept from the table.
- RateLimits.RateLimit.Consume: the model assumes `consume()` leaves `remaining` and `expires` unchanged and only counts it. The library's `consume()` takes one unit from `remaining`, resets an expired bucket, and throws on a limited one. None of this is modelled, and the order of a caller's `consume()` relative to its retry's header parsing is not kept. So the final state in `RequestHandler.RequestHandler.Request` (`Dispatch(...).state`) and `RequestHandler.ExpiresFromLastReply` describe the header updates alone. For example, take a 429 with remaining `5` followed by a 2xx with remaining `5`. The model ends at the old count + 10. The program ends at the old count + 9 when the caller's `consume()` finds the bucket unexpired, or at a reset-based value when it has expired.
- Header names are case-insensitive in `Headers.get`. The model keys headers by their lower-case names and allows one value per name.
- The `new User(data)` wrapping in `editUserBalance`; `src/lib/structures/User.ts`, `src/lib/types/User.ts` and `src/index.ts` are not part of this model.
- The static type `` `v${number}` `` of the API version: the version is any string. `Routes.UrlInjective` assumes it holds no slash.
- Client.EditUserBalance: the fields `cash`, `bank`, `reason` of the data are not typed; any body is accepted.
