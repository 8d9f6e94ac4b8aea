# Concurrency tracker client of redis_rate, in Dafny

This project models the client side of the concurrency tracker in
`concurrency.go` of ductone/redis_rate. A caller *takes* a slot for a request
id under one or more keys, each with a `ConcurrencyLimit` (a maximum and a
request period). It later *releases* those slots. The tracker talks to a
Redis-compatible store through a pipeline:

- `takeMulti` makes one round trip. That round trip holds a presence check of
  the concurrency-take script and one script invocation per key.
- If the store reports the script missing, `takeMulti` loads the scripts
  again and retries one level deeper.
- Past depth 10 it gives up with `ErrAllowMultiTooManyRetries`.
- A confirmed round trip's replies become one `ConcurrencyResult` per key.
- `releaseMulti` deletes the request's field from every key's hash in one
  round trip.
- `Take` and `Release` are the one-key forms.

Files:

- `wrappers.dfy`: `Option` and `Result`.
- `numbers.dfy`: Go's `int64`, `int16` and `time.Duration`, and int64
  wrap-around (`Wrap64`).
- `redis.dfy`: the store as seen by the client.
  - `Store` logs every round trip (the commands it carried) and counts script
    loads.
  - Everything the store answers comes from an `Oracle`, a value of total
    functions. It gives the error of the n-th `Exec`, the presence reply of
    the n-th round trip, the reply of each command in the n-th round trip, and
    the error of the n-th `LoadScripts`.
  - Any behaviour of a real store, including scripts evicted between calls, is
    reproduced by some oracle.
  - `Pipeline` queues commands and sends them with `Exec`.
- `concurrency_spec.dfy`: the tracker as functions, with lemmas about them.
  - Request shaping: store keys, the defaulted request period, and the
    commands.
  - Reply decoding (`ReadReply`, `ToResult`).
  - The result loop (`Collect`).
  - The retry state machine: `Attempt` is one attempt, and `Retry` is
    Attempt / Reload / Exhausted.
  - The outcome of a whole call (`TakeMultiSpec`, `TakeOne`).
- `limiter.dfy`: `Limiter`, a class whose methods `Take`, `Release`,
  `ReleaseMulti` and `TakeMulti` follow the Go code step by step.
  - takeMulti is split along its steps: `QueueTakes` is the first loop,
    `SendTakes` the round trip and the presence check, `ReloadAndRetry` the
    reload and the retry, and `CollectResults` the result loop.
  - Each method is proved against the functions above.
  - The methods state the round trips they add to the store's log, the script
    loads they make, and the value they return.

Go iterates over a map in an unspecified order. The methods visit the keys
with `var key :| key in rest`. `TakeMulti` has a ghost out-parameter `ord`:
when a round trip is confirmed, it is the order of the invocations that round
trip carries in the store's log, and the result loop reads the replies in that
order; otherwise it is some sequence of the batch's keys. The lemmas show which results depend on that
order and which do not:

- the successful map is the same for every order (`CollectOutcome`,
  `TakeMultiSucceeds`);
- when several replies fail, which failure is reported depends on it: with
  one malformed and one refused reply, one order panics and the other
  returns the refused reply's error (`CollectOrderMatters`); in general the
  first failing key of the order decides it (`CollectFirstFailure`).

## Model

| member | source | states |
|---|---|---|
| Numbers.Wrap64 | concurrency.go:155 | int64 subtraction: equal to the mathematical difference when it fits, and always congruent to it modulo 2^64 |
| ConcurrencySpec.EffectivePeriod | concurrency.go:96-99 | the request period sent to the script is never zero: it is the limit's own period, or 60 when that is zero |
| ConcurrencySpec.StoreKeyInjective | concurrency.go:102-104 | StoreKey: under one prefix, two keys give the same store key exactly when they are equal |
| ConcurrencySpec.StoreKeySamePrefix | concurrency.go:62-66 | for one key, two prefixes give the same store key exactly when they are equal |
| ConcurrencySpec.ReleaseTargetsTakenSlot | concurrency.go:62-66 | ReleaseCommand against TakeCommand: the field Release deletes is the request id Take passes to the script; the hash is the one Take used exactly when releaseMulti's prefix equals takeMulti's |
| ConcurrencySpec.TakeCommandInjective | concurrency.go:96-114 | TakeCommand: two invocations on one request id coincide exactly when they have the same key, the same maximum and the same effective period (a zero period and an explicit 60 are sent alike) |
| ConcurrencySpec.TakeCommandsDistinct | concurrency.go:95-116 | in one round trip, no two script invocations address the same store key |
| ConcurrencySpec.ReadReplyFine | concurrency.go:147-150 | ReadReply: a reply passes both type assertions with a given flag and count exactly when it is a list whose first two items are that flag and that count, in the shape the script sends |
| ConcurrencySpec.ScriptReply | concurrency.go:147-150 | a list of the admission flag and the int64 count passes both type assertions and is read back as that flag and count |
| ConcurrencySpec.ToResult | concurrency.go:151-160 | a result keeps the key's limit, the flag and the count; Remaining + Used = Max when Max - Used fits in int64, and otherwise agrees modulo 2^64; RetryAfter is one second when denied and zero exactly when allowed; Key is left empty |
| ConcurrencySpec.VisitDone | concurrency.go:95-116 | a range over a map that has nothing left to visit has visited every key exactly once, and nothing else |
| ConcurrencySpec.SingletonOrdering | concurrency.go:42 | a one-key map is ranged over in exactly one order |
| ConcurrencySpec.Batch.Expected | concurrency.go:141-164 | the successful map has exactly the batch's keys, and each maps to the result built from that key's own limit and reply |
| ConcurrencySpec.Collect | concurrency.go:141-162 | the result loop: an error comes with no map, and a success has exactly the keys it started with plus the visited keys (their values: CollectAllFine) |
| ConcurrencySpec.CollectAllFine | concurrency.go:141-162 | when every reply is well formed, the result loop returns without error, adds each visited key's own result, and keeps the entries it started with |
| ConcurrencySpec.CollectSucceeds | concurrency.go:142-150 | the result loop returns without error exactly when every visited key's reply is well formed |
| ConcurrencySpec.CollectFailure | concurrency.go:142-150 | every failure of the result loop returns no map: a panic comes from some key's malformed reply, and an error carries the message of some key's refused reply |
| ConcurrencySpec.CollectExpected | concurrency.go:141-164 | when every reply is well formed, the result loop over any order of all the keys returns exactly the expected map, without error |
| ConcurrencySpec.CollectFirstFailure | concurrency.go:142-150 | the first key of the order whose reply is not well formed decides a failing result loop: a malformed reply panics, a refused one is returned as the error |
| ConcurrencySpec.CollectOrderMatters | concurrency.go:142-150 | with one malformed and one refused reply, visiting the malformed key first panics and visiting the refused key first returns its error: the reported failure depends on the map's iteration order |
| ConcurrencySpec.CollectOutcome | concurrency.go:141-164 | Collect over any order of all the keys, the result loop succeeds exactly when every reply is well formed, and then yields the same map whatever the order |
| ConcurrencySpec.Attempt | concurrency.go:87-139 | an attempt only reloads the scripts at depth 10 or less |
| ConcurrencySpec.Retry | concurrency.go:86-139 | a call never makes more round trips than its depth allows (11 from depth 0); it reloads at most once per round trip, and each reload follows a round trip; a confirmed round trip is the last one made; an empty batch makes no round trip and no reload, and ends in nothing-to-do exactly when the depth is 10 or less |
| ConcurrencySpec.RetryExhaustion | concurrency.go:86-139 | the call fails with too-many-retries exactly when it starts above depth 10, or when every round trip its depth allows reports the script missing and every reload succeeds; it has then made all those round trips and reloads |
| ConcurrencySpec.EvictingStoreExhausts | concurrency.go:87-89 | against a store that loses the script on every round trip, a call from depth 0 fails with too-many-retries after 11 round trips and 11 reloads |
| ConcurrencySpec.RetryFirstStop | concurrency.go:86-139 | after any number of round trips that found the script missing and reloaded it, the first attempt that stops decides the call, which has made those round trips and reloads plus its own |
| ConcurrencySpec.RetryStopCauses | concurrency.go:120-139 | after i successful reloads, the next round trip ends the call: an Exec, presence or reload error is returned unchanged, a presence reply whose length is not 1 fails with script-failed and no reload, and a present script confirms that round trip; each with i + 1 round trips and the exact number of reloads |
| ConcurrencySpec.RetryErrorsFromStore | concurrency.go:120-137 | a store error comes from the last round trip's Exec, from its presence check, or from the reload after it |
| ConcurrencySpec.RetryScriptFailure | concurrency.go:125-131 | script-failed comes from a presence reply whose length is not 1, in the last round trip, with no reload after it |
| ConcurrencySpec.ReloadIsTransparent | concurrency.go:133-139 | one eviction followed by a present script gives two round trips and one reload, and the replies of the second round trip decide the call |
| ConcurrencySpec.TakeMultiEmpty | concurrency.go:117-119 | a call with no keys within the depth ceiling returns an empty map and no error, without sending the pipeline or reloading |
| ConcurrencySpec.StopDone | concurrency.go:120-131 | proof step for Limiter.SendTakes: an attempt that sends one round trip and stops leaves the log extended by that round trip, and returns the outcome of its verdict |
| ConcurrencySpec.RetryDone | concurrency.go:133-139 | proof step for Limiter.ReloadAndRetry: after a round trip that finds the script missing and a successful reload, whatever the retry at depth + 1 does is what the call at the current depth does |
| ConcurrencySpec.TakeMultiSucceeds | concurrency.go:86-164 | TakeMultiSpec and Outcome: takeMulti succeeds exactly when there are no keys, or when a round trip is confirmed and every reply in it is well formed; the map is then the expected one, whatever order the keys were visited in |
| ConcurrencySpec.TakeMultiFails | concurrency.go:86-164 | TakeMultiSpec and Outcome: every failure of takeMulti returns no map; a retry failure returns its own error; a panic or an error after a confirmed round trip comes from some key's reply |
| ConcurrencySpec.SingleTakeRound | concurrency.go:42 | a round trip of a one-key takeMulti is the presence check followed by that key's invocation |
| ConcurrencySpec.TakeOneOutcome | concurrency.go:41-47 | TakeOne: Take returns the zero result with any error; it succeeds exactly when a round trip is confirmed and the key's reply is well formed, and then returns that key's result |
| Concurrency.Limiter.Take | concurrency.go:41-47 | Take makes the round trips and reloads of a one-key takeMulti at depth 0 and appends them to the store's log, each the presence check followed by the key's invocation; it returns the outcome TakeOne gives |
| Concurrency.Limiter.Release | concurrency.go:49-55 | Release makes exactly one round trip, carrying one HDel of the request id from the key's hash, makes no reload, and returns no error exactly when that round trip has none, and otherwise its error unchanged |
| Concurrency.Limiter.ReleaseMulti | concurrency.go:57-78 | with no keys, nothing is sent and nil is returned; otherwise one round trip carries one HDel per key, in some order of the keys, and its error is returned unchanged (none exactly when it has none) |
| Concurrency.Limiter.TakeMulti | concurrency.go:86-165 | TakeMultiDone: takeMulti makes the round trips and reloads the retry state machine gives; each round trip is a presence check followed by one invocation per key, in some order of the keys; earlier log entries are untouched; the outcome is TakeMultiSpec for the order used, which is the order of the invocations in the last round trip when it was confirmed |
| Concurrency.Limiter.SendTakes | concurrency.go:120-164 | TakeMultiDone for one attempt whose pipeline is queued: the round trip, the presence check, then the reload path or the result loop |
| Concurrency.Limiter.ReloadAndRetry | concurrency.go:133-139 | TakeMultiDone after a round trip that found the script missing: a failed reload ends the call with that error, and otherwise the call is the retry at depth + 1 |
| Concurrency.Limiter.QueueTakes | concurrency.go:91-116 | the first loop visits every key once and, for each, queues the script on the prefixed key with the request id, the maximum and the effective period; it remembers the key and its limit |
| Concurrency.Limiter.CollectResults | concurrency.go:141-164 | the second loop returns exactly what the result loop specification Collect gives for the order the keys were queued in |

## Left out

- The network, the store's own execution of the concurrency-take script (how
  it counts and expires slots), `context.Context` cancellation and timeouts
  are left out. The store is the `Oracle` described above. The script's
  replies are parameters, not derived from a model of the hash.
- The internals of `LoadScripts`, `Exists`, `EvalSha`, `HDel` and
  `Pipeline.Exec` in go-redis are left out. Each is modelled only by what the
  oracle returns.
  - The model lets the error of `Exec` and the presence reply vary
    independently.
  - It does not capture which of the pipelined commands' errors go-redis
    reports from `Exec`.
- The values of `defaultConcurrencyKeyPrefix` and `tk.concurrentPrefix` are
  not part of this model.
  - They are the `Limiter`'s `keyPrefix` and `concurrentPrefix` constructor
    parameters.
  - `ReleaseTargetsTakenSlot` states what follows when they differ.
- The constructor of the Go `Limiter` and the GCRA rate limiter of the same
  package are not part of this model.
- Go's nil map, on error and for an empty batch, is modelled as the empty
  map. A panic is modelled as
  the outcome `Panic`, with no further state.
- Concurrency.Limiter.TakeMulti: the order in which Go ranges over the map is
  any order, chosen by `:|`. Which key's error wins when several replies fail
  is stated in general only as "some key of the batch"; `CollectOrderMatters`
  shows that the order decides it, and `CollectFirstFailure` that the
  first failing key of that order does. The order is the one logged in the
  confirmed round trip, but which order a real Go run would pick is not
  modelled.
- ConcurrencySpec.ToResult: RetryAfter of an allowed result is 0, as the code
  leaves it. The doc comment at concurrency.go:37 says it should be -1 unless
  the limit is exceeded. The model follows the code.
- `ConcurrencyLimit` has the fields `Max` (int64) and `RequestPeriod` (int16)
  as declared at concurrency.go:11-14. The tests in concurrency_test.go build
  it with a `RequestMaxDuration` field that this declaration does not have.
  The model follows the declaration.
