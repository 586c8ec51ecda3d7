# TinyGo URL shortener: ShortenURL and handleRateLimit in Dafny

This project models the request handler of the TinyGo URL shortener. The
model covers two Go functions, `ShortenURL` and `handleRateLimit`, which run
against a Redis database. Redis database 0 holds both kinds of key:

- short-link mappings, keyed by the identifier;
- per-client rate-limit counters, keyed by the client's IP.

`handleRateLimit` is a small state machine on the counter:

- A missing key gets the full quota with a 30-minute window.
- A positive counter is decremented, and its window starts again.
- A counter of 0 or less is refused, and the reply carries its remaining TTL.

`ShortenURL` runs a fixed chain of early-return checks:

1. URL syntax.
2. The forbidden domain.
3. Scheme normalisation.
4. Identifier choice.
5. Lookup of the identifier.
6. Quota.
7. Rate limit.
8. Expiry default.
9. The one write of the mapping.
10. The response.

The files:

- `wrappers.dfy`: `Option`.
- `go_int.dfy`: Go's int64 and `time.Duration` (nanoseconds).
  - Wrap-around multiplication.
  - Division that truncates toward zero.
- `strconv.dfy`: Go's `strconv.Atoi`, and the decimal formatting used when an int is stored.
  - Proved: Atoi accepts exactly what it should.
  - Proved: parsing a formatted int64 gives it back.
- `key_value.dfy`: the Redis database.
  - The pure semantics of GET, SET with an expiration, DECR, EXPIRE and TTL run on a `State`. A `State` is a map from key to value and lifetime, plus a log of the commands issued.
  - Class `Database` holds that state in fields. It has one method per command, each proved against the pure function.
  - Every command takes a flag saying whether the connection fails on it. A failed command changes no stored data, is still logged, and answers `Failed`.
- `rate_limit.dfy`: `Limit` is the specification of `handleRateLimit`.
  - `HandleRateLimit` is the step-by-step method proved against `Limit`.
  - The lemmas cover one call and whole runs of calls.
- `shorten.dfy`: `Shorten`/`Admitted` are the specification of the handler.
  - `ShortenURL` is the step-by-step method proved against them.
  - The lemmas cover each outcome.

Inputs that the Go code takes from its surroundings are parameters here:

- the three validators, as uninterpreted functions;
- the UUID string;
- the client's IP;
- `API_QUOTA` and `DOMAIN`;
- which store commands fail.

Behaviours of the code worth noting, all reproduced by the model:

- **Order.** The identifier lookup (`api/routes/shorten.go:70`) comes before the rate limiter (`:83`). An identifier already in use is therefore refused without consulting the limiter.
- **Number of successful calls.** The first call of a window returns the full quota, and later calls return the decremented value. With quota q ≥ 0, q+1 calls succeed, returning q, q-1, …, 0. The (q+2)-th call is the first refused.
- **Reset in the error body.** When the limiter refuses, `rate_limit_reset` is `exp / time.Second / time.Minute` (`:87`), which is 0 for every duration. The success body uses `exp / time.Nanosecond / time.Minute` (`:107`), the whole minutes. See "## Findings".
- **Decrement kept on failure.** A failed EXPIRE after a successful DECR (`:142-149`) returns an error but leaves the counter decremented (`RateLimit.DecrementedThenFailed`).
- **Ignored lookup error.** The error from the identifier GET is discarded (`:70`). A failed lookup is treated like a free identifier, and the write then overwrites whatever that identifier held.
- **Shared key space.** Counters and mappings share one key space. An IP key that holds a non-numeric value makes every request from that IP that reaches the limiter fail there.

## Model

| member | source | states |
|---|---|---|
| GoInt.Wrap64 | api/routes/shorten.go:94 | the int64 result is congruent to the argument modulo 2^64, and equals it when it is in range |
| GoInt.Mul64 | api/routes/shorten.go:94 | int64 multiplication: exact when the product fits, congruent modulo 2^64 otherwise |
| GoInt.Quo | api/routes/shorten.go:87 | Go's `/` on durations: truncation toward zero, bounded by the quotient's neighbours for both signs |
| Strconv.ParseDigitsAccepts | api/routes/shorten.go:79 | a digit string has a value exactly when every character is a decimal digit |
| Strconv.Atoi | api/routes/shorten.go:128 | strconv.Atoi: a success comes from a non-empty text, and a negative value from one starting with '-' |
| Strconv.AtoiSyntax | api/routes/shorten.go:128 | success implies an optional sign followed by one or more digits; conversely such a text parses, and Atoi gives its signed value exactly when it fits in int64 |
| Strconv.NatStrValue | api/routes/shorten.go:118 | the decimal digits written for a natural number parse back to it |
| Strconv.AtoiItoa | api/routes/shorten.go:118 | parsing the decimal text stored for an int64 quota gives the same int64 back |
| Strconv.ItoaCanonical | api/routes/shorten.go:142 | every formatted int64 is the canonical text that DECR accepts |
| Strconv.AtoiLenient | api/routes/shorten.go:128 | Atoi accepts "+5" and "05", which DECR rejects as non-canonical |
| Strconv.Itoa | api/routes/shorten.go:118 | the formatted text is non-empty, starts with '-' exactly for negatives, and never with '+' |
| KeyValue.SetLifetime | api/routes/shorten.go:118 | a positive expiration gives a lifetime of at least 1 ms, exactly ⌊d / 1 ms⌋ ms from 1 ms up; 0 or a negative value other than KeepTTL gives none; KeepTTL keeps the old one |
| KeyValue.ExpireSeconds | api/routes/shorten.go:146 | EXPIRE's whole seconds: at least 1 for a positive duration, the duration truncated to seconds from 1 s up, and 0 or less (0 exactly above -1 s) for a non-positive one |
| KeyValue.TtlReply | api/routes/shorten.go:134 | TTL replies -2 for a missing key, -1 for a key without expiry, and otherwise, for lifetimes up to 9·10^12 ms, a whole number of seconds: the stored milliseconds rounded to the nearest second |
| KeyValue.CommandFrame | api/routes/shorten.go:115-146 | each of GET, SET, DECR, EXPIRE and TTL changes at most its own key, and a failed command changes nothing |
| KeyValue.Lapse | api/routes/shorten.go:118 | when a key's lifetime runs out, that key disappears and every other key is untouched; a key without a lifetime never lapses |
| KeyValue.SetThenGet | api/routes/shorten.go:94 | GET right after a successful SET returns the value stored |
| KeyValue.GetIdempotent | api/routes/shorten.go:70 | GET twice gives the same reply and changes nothing stored |
| KeyValue.SetThenLapse | api/routes/shorten.go:94 | a key SET with a positive expiration reads as missing once its lifetime has run out |
| KeyValue.Database.constructor | api/routes/shorten.go:67 | a new database is empty and has issued no commands |
| KeyValue.Database.Open | api/routes/shorten.go:67 | opening the client on database 0 only logs the connection |
| KeyValue.Database.Close | api/routes/shorten.go:68 | closing the client only logs it |
| KeyValue.Database.Get | api/routes/shorten.go:70 | new state and reply are those of GetCmd |
| KeyValue.Database.Set | api/routes/shorten.go:94 | new state and reply are those of SetCmd |
| KeyValue.Database.Decr | api/routes/shorten.go:142 | new state and reply are those of DecrCmd |
| KeyValue.Database.Expire | api/routes/shorten.go:146 | new state and reply are those of ExpireCmd |
| KeyValue.Database.Ttl | api/routes/shorten.go:134 | new state and reply are those of TtlCmd |
| KeyValue.Database.Elapse | api/routes/shorten.go:118 | the stored data are those left by Lapse, and the log is unchanged |
| RateLimit.Limit | api/routes/shorten.go:113-152 | the limiter's first command is GET of the IP; a success reports the 30-minute window; "rate limit exceeded" reports 0 remaining; every other error is the triple (0, 0, err) |
| RateLimit.HandleRateLimit | api/routes/shorten.go:113-152 | the database's new state and the returned (remaining, reset, error) are exactly those of `Limit` |
| RateLimit.WindowLifetime | api/routes/shorten.go:118-122 | SET with 30*60*time.Second and EXPIRE with the same value both store a 30-minute lifetime, which TTL reports as 30 minutes |
| RateLimit.LimitFrame | api/routes/shorten.go:113-152 | the limiter changes no key other than the client's IP |
| RateLimit.FirstRequest | api/routes/shorten.go:115-122 | with no counter, the IP afterwards holds the full quota with a 30-minute TTL, and the call returns (quota, 30 minutes, no error) after exactly GET and SET |
| RateLimit.Decrement | api/routes/shorten.go:141-151 | a counter v > 0 becomes v-1 with its TTL reset to 30 minutes, and the call returns (v-1, 30 minutes, no error) |
| RateLimit.Exhausted | api/routes/shorten.go:128-138 | a counter ≤ 0 leaves the data unchanged and returns (0, the key's current TTL, rate limit exceeded) |
| RateLimit.NonNumericCounter | api/routes/shorten.go:128-131 | a value Atoi rejects gives an error with (0, 0) and changes nothing |
| RateLimit.NonCanonicalCounter | api/routes/shorten.go:128-145 | a positive counter Atoi reads but DECR refuses (such as "+5") gives a store error and changes nothing |
| RateLimit.DecrementedThenFailed | api/routes/shorten.go:142-149 | a failed EXPIRE after DECR returns an error, yet the counter stays decremented |
| RateLimit.SuccessResetsWindow | api/routes/shorten.go:118-151 | every successful call reports a 30-minute reset and leaves the IP key with a 30-minute TTL |
| RateLimit.CallOnCounter | api/routes/shorten.go:128-151 | on a counter c with a full window, the call stores c-1 and returns (c-1, 30 minutes) when c > 0, and otherwise keeps c and returns (0, 30 minutes, rate limit exceeded) |
| RateLimit.CounterAfter | api/routes/shorten.go:116-151 | after k fault-free calls from no counter, the IP holds quota-k+1 (never below min(quota, 0)) with a full window; for quota ≥ 0 it stays within 0..quota |
| RateLimit.CallResult | api/routes/shorten.go:116-151 | call j succeeds iff j ≤ max(quota, 0), returning quota - j; later calls are refused with a 30-minute reset |
| RateLimit.QuotaRun | api/routes/shorten.go:116-151 | from no counter, exactly quota+1 consecutive calls succeed returning quota, quota-1, …, 0, every later call fails, and the counter never drops below 0 |
| RateLimit.WindowReopens | api/routes/shorten.go:115-122 | once the counter's window has lapsed, the next call is granted the full quota again |
| Shorten.ResolveId | api/routes/shorten.go:60-65 | the identifier is the first 6 characters of the UUID when no custom short is given, and the custom short verbatim otherwise |
| Shorten.ExpiryOf | api/routes/shorten.go:91-93 | the expiry is never 0: 24 hours when the request gave 0, the request's value otherwise |
| Shorten.QuotaOf | api/routes/shorten.go:79-82 | the quota is 100 when API_QUOTA is not a Go int, and Atoi's value of it otherwise |
| Shorten.MappingTtl | api/routes/shorten.go:94 | `expiry*3600*time.Second` in int64: congruent to the exact product modulo 2^64, and equal to it for expiries within ±2562047 hours |
| Shorten.ResetMinutes | api/routes/shorten.go:107 | the whole minutes in a duration: for a non-negative one, m minutes ≤ exp < m+1 minutes, truncating toward zero for a negative one |
| Shorten.ErrorResetAsWritten | api/routes/shorten.go:87 | `exp / time.Second / time.Minute` is 0 for every int64 duration |
| Shorten.QuotaSetting | api/routes/shorten.go:79-82 | an unset or non-numeric API_QUOTA gives 100; a formatted int64 gives itself back; "+50" and "050" give 50 |
| Shorten.MappingLifetime | api/routes/shorten.go:94 | for 1 ≤ expiry ≤ 2562047 hours, the mapping's TTL is expiry*3600 seconds |
| Shorten.NegativeExpiry | api/routes/shorten.go:94 | an expiry from -2562047 to -1 hours gives a negative duration, so the mapping is stored without any expiry |
| Shorten.MappingLifetimeWraps | api/routes/shorten.go:94 | 2562048 hours wraps to a negative duration (stored without expiry), and -2562048 hours wraps to a positive one (stored with a lifetime) |
| Shorten.ResetOfWindow | api/routes/shorten.go:107 | the success body's reset for the 30-minute window is 30 |
| Shorten.ResetMinutesBounds | api/routes/shorten.go:107 | for a remaining window of 0..30 minutes, the reset is the whole number of minutes in it, between 0 and 30 |
| Shorten.Shorten | api/routes/shorten.go:43-76 | an invalid URL or forbidden domain leaves the state untouched; any other request ends with the client closed |
| Shorten.Admitted | api/routes/shorten.go:78-110 | once the identifier is free, the answer is success, a limiter failure with reset 0, or a write failure; success reports reset 30 and DOMAIN + "/" + id; the limiter's GET comes first and the close last |
| Shorten.ShortenURL | api/routes/shorten.go:33-111 | the database's new state and the answer are exactly those of `Shorten` |
| Shorten.RejectedBeforeStore | api/routes/shorten.go:43-67 | an invalid URL, or a forbidden domain, is refused before any store access: state and log are unchanged, so no client is even opened |
| Shorten.InUseConsumesNoQuota | api/routes/shorten.go:67-76 | an identifier holding a non-empty value is refused as forbidden, the data are unchanged, and the only commands are open, GET of the id and close, so the limiter is never consulted |
| Shorten.FreeIdReachesLimiter | api/routes/shorten.go:70-83 | a missing identifier, or one holding "", is not refused as in use, and the next command is the limiter's GET of the IP |
| Shorten.NoMappingWithoutSuccess | api/routes/shorten.go:72-99 | on every non-success outcome, no key other than the client's own counter changes, so no mapping is written |
| Shorten.LimitFailureReset | api/routes/shorten.go:83-89 | every limiter failure, "rate limit exceeded" included, reports a reset of 0 |
| Shorten.SuccessResponse | api/routes/shorten.go:57-107 | on success, the data are the limiter's plus id ↦ EnforceHTTP(url) with lifetime from expiry*3600 s (24 h by default), SET and close are the last commands, and the response is (url, DOMAIN + "/" + id, expiry, remaining, 30) |
| Shorten.FreshOnSuccess | api/routes/shorten.go:70-76 | without a lookup failure, success means the identifier was missing or held "" beforehand |
| Shorten.LookupFailureOverwrites | api/routes/shorten.go:70-94 | a failed identifier lookup is ignored, so a success then overwrites the identifier with the new URL |
| Shorten.SharedKeyLockout | api/routes/shorten.go:67-131 | when the client's IP key holds a non-numeric value, the request fails in the limiter with reset 0 and nothing changes |
| Shorten.ExceededReportsZero | api/routes/shorten.go:83-89 | an exhausted counter with its full 30-minute window left gives LimitFailed(exceeded, 0), although the remaining window is 30 minutes |
| Shorten.ReadBackThenLapse | api/routes/shorten.go:94 | after success, GET of the identifier returns the stored URL, and without overflow it is gone once its lifetime has run out |

## Left out

- Fiber request handling, JSON body parsing and the "cannot parse JSON" reply (`api/routes/shorten.go:35-40`): framework I/O. The parsed body is an input, and the reply is the `Answer` datatype with the status noted per case.
- A JSON `expiry` that does not fit in an int64 is rejected by the parser, which is not modelled. The model takes any int64.
- The code of `govalidator.IsURL`, `helpers.RemoveDomainError` and `helpers.EnforceHTTP` is not part of this model. They are uninterpreted functions passed in.
- UUID generation (`:62`): randomness. The UUID's text is a parameter of at least 6 characters.
- The Redis client, the network, and `database.Ctx` (`:67-68`). The store is an in-memory map, and the connection is two log entries. A connection failure is a per-command boolean parameter, not a nondeterministic event.
- The real-time clock. No lifetime counts down by itself. `Lapse`/`Database.Elapse` is the explicit step where one key's lifetime runs out. A TTL reply is computed from the lifetime stored, not from an elapsed time.
- Millisecond rounding of a remaining TTL smaller than the stored lifetime is not observable without a clock. The model keeps whole milliseconds.
- Concurrency and the check-then-act races between requests: each request is one sequential method call.
- Go's `int` is taken to be 64 bits wide (the quota, `remaining` and the parsed counter), as on the 64-bit platforms the service targets.
- `os.Getenv`: `API_QUOTA` and `DOMAIN` are fields of `Config`.
- The error text of each failure (`err.Error()`) is reduced to its kind (`LimitError`).
- KeyValue.TtlReply: the rounding is stated only for lifetimes up to 9·10^12 ms (about 285 years). Beyond that, the reply wraps in int64 and the contract says nothing about it.
- Redis's limits on value length and encoding are not modelled. The DECR underflow below the int64 minimum is modelled.

## Findings

| source | as written | input that shows it | evidently intended | confidence | as-written member | corrected member |
|---|---|---|---|---|---|---|
| api/routes/shorten.go:87 | `exp / time.Second / time.Minute` divides a nanosecond duration by 10^9 and then by 6·10^10, so the result is 0 | a limiter refusal with the full window, exp = 30 minutes: the body says 0 | the reset in minutes, `exp / time.Minute`, the way the success body computes it at `:107` (30 for a full window) | not executed | Shorten.ExceededReportsZero | Shorten.ResetMinutes |

The handler model keeps the expression as written on the error path, so its error answers always carry 0. `ResetMinutes` is the formula of `:107`, and `:87` evidently meant it. The success path uses it.
