# teetoJS request scheduler, modelled in Dafny

teetoJS is a client for a rate-limited game-data HTTP API. A `RiotApi` object keeps one
`Region` per platform id (`na1`, `euw1`, ...). Each region has two queues of pending
calls (priority and normal), a flag saying whether a drain is running, two application
rate limiters and one method rate limiter per endpoint. A drain pops the queues' tails,
looks the endpoint up in a nested catalog, builds the URL, makes sure a method limiter
exists (reading a limit remembered in a shared store), consults the limiters' attempt
gates and sends the request after the wait they ask for. When a response arrives, the
method limit is adjusted from its headers. The caller's promise is then resolved (a
body, or null on 404), rejected, or the item is re-queued with one more retry (429
escalated to the priority queue with the `retry-after` delay, 500/503 in place with a
doubling delay).

The model follows `index.js` file structure function by function:

- `Js`: the JavaScript pieces the scheduler relies on: numbers that may be NaN,
  `String.prototype.split`, `Array.prototype.join`, `parseInt` without a radix, and the
  decimal rendering of integers.
- `Limits`: `_getLimits` and the limiter records.
- `Catalog`: `_getEndpoint` as a property walk that can end on `undefined` or throw a
  TypeError.
- `Url`: `_buildUrl` on top of `util.format` restricted to `%s`.
- `Wait`: `_getAttemptPromise`, the running maximum over the application gates, and the
  snooze rule.
- `Backoff`: the status switch of `_sendRequest` and the retry delay rule of
  `_retryRequest`.
- `MethodLimits`: `createMethodLimiter` and `_adjustMethodLimit` as functions on the
  limit map and the store contents.
- `Scheduler`: the `Store` class (the redis client's `get`/`set`) and the `Region` class,
  whose methods update its fields in place. Each method is proved against a function on
  the region's state (`Pushed`, `Processed`, `Drained`, `Run`, `Completed`, `Retried`).
  The region invariant `Consistent` is proved to be kept by every one of those functions:
  - every accepted call is in exactly one place (waiting, in flight, settled or escaped);
  - no retry count exceeds `maxRetriesAmnt`;
  - no call is sent more than `max(maxRetriesAmnt, 0) + 1` times (a negative budget still lets every call go out once);
  - every request in flight has a method limiter.
- `Client`: the `RiotApi` class and its region registry.

What the outside world answers is passed in as parameters:

- the endpoint catalog and the limit strings are in `Config`;
- the attempt gates' answers and whether a store read fails are in `StepInput`, one per
  item of a drain (`env(k)` for the k-th);
- a request's outcome is the `Response` given to `Region.Complete`.

The observable effects are recorded in the region's state:

- the gates consulted (`attempts`);
- the order of dispatches (`sent`);
- the requests in flight with the snooze taken before each (`inFlight`);
- the outcomes delivered to callers (`outcomes`);
- the calls whose exception escaped the drain (`escaped`).

Behaviour of the code that the model keeps as written:

- Application limiters are shared across regions. Their namespaces are `env + "app_0"`
  and `env + "app_1"` in every region (`index.js:42`, `index.js:53`), so all regions of
  a client draw on the same two buckets; only the method limiters and their stored
  limits are per region (`Client.RiotApi.SharedAppLimiters`).
- A wrong number of path arguments, a catalog path whose intermediate segment is
  missing, or a lookup that ends on a group or a string instead of a descriptor (which
  fails at `suffix.split`, `index.js:253`) throws inside `_process`. The exception
  escapes `processQueue`, which leaves the flag set, and no caller is told: the item is
  recorded in `escaped` (`Scheduler.PrepareCases`, `Scheduler.Region.DrainedEscapes`).
  Nothing handles the rejected promise of `processQueue` (`index.js:88`, `index.js:237`).
  The model follows Node.js before version 15, where an unhandled rejection only warns:
  the process goes on and every later drain of that region does nothing
  (`Scheduler.Region.GetDuringDrain`). From Node.js 15 on, the process ends instead.
- `onError` forwards only its first argument. When the retries run out, the caller
  therefore receives only the message text, not the object with the status code, the
  message and the URL (`Backoff.Classify`).
- A 429 response without `retry-after` follows the ordinary retry delay rule: the
  default delay first, then twice the previous delay.

## Model

| member | source | states |
|---|---|---|
| Js.Split | index.js:292 | `split` with a non-empty separator always yields at least one piece |
| Js.JoinSplit | index.js:253 | joining the pieces of a split with the separator gives the string back, so the pieces and the `%s` separators account for the whole template |
| Js.SplitJoin | index.js:243 | splitting a `.`-joined list of dot-free names gives the names back |
| Js.SplitAt | index.js:292 | splitting `a:b` at `:` with no `:` in `a` yields `a` and then the pieces of `b` |
| Js.SplitWhole | index.js:292 | a string without the separator is its own only piece |
| Js.SplitPrefix | index.js:292 | a separator-free prefix stays glued to the first piece of what follows |
| Js.NatToString | index.js:193 | the decimal rendering of a number is non-empty and made of digits only |
| Js.TrimStart | index.js:294 | what `parseInt` skips is white space (tab, vertical tab, form feed, the byte-order mark, every Unicode space separator, the line terminators), and what remains is a suffix that does not start with white space |
| Js.LeadingDigits | index.js:294 | the digits `parseInt` reads are a prefix of the text, all digits, and are followed by a non-digit or the end |
| Js.ParseIntDecimal | index.js:294 | on text that starts with a decimal digit and not with `0x`, `parseInt` is the value of the leading decimal digits |
| Js.ParseIntOfNat | index.js:189 | `parseInt` reads back the decimal rendering of a natural number, whatever non-digit text follows it, except an `x` after `0`, which makes the text hexadecimal |
| Js.ParseIntBlankOrSigned | index.js:294 | `parseInt` of blank text is NaN, and its result is negative only after a leading minus sign |
| Limits.GetLimitsOfDecimals | index.js:291-297 | `_getLimits("m:s...")` on decimal naturals gives `m` requests per `s * 1000` ms, ignoring a following `,m':s'` pair |
| Limits.GetLimitsWithoutColon | index.js:291-297 | a limit string without `:` has a NaN interval and `parseInt` of the whole string as its budget |
| Limits.GetLimits | index.js:291-297 | `_getLimits`: a limit string without `:` has a NaN window, and a window that is a number is a whole number of seconds in milliseconds; its values on well-formed strings are stated by `GetLimitsOfDecimals` |
| Catalog.WalkSnoc | index.js:243-244 | walking one more segment reads one more property from where the walk ended, and a walk that threw stays thrown |
| Catalog.WalkThrows | index.js:243-244 | the walk throws exactly when some segment is read from `undefined` |
| Catalog.GetEndpointUndefined | index.js:240-246 | `_getEndpoint` answers `undefined` exactly when every segment but the last resolves and the last one is missing (own properties only, see Left out) |
| Catalog.GetEndpointThrows | index.js:240-246 | `_getEndpoint` throws exactly when a segment before the last is missing |
| Catalog.GetEndpointOfPath | index.js:240-246 | the lookup of a dotted name of dot-free names walks exactly that path |
| Catalog.Index | index.js:244 | one property read of the walk: it throws exactly on `undefined`; a group answers the child of that name, or `undefined` exactly for a name it does not have; a descriptor answers its `url` and `limit` strings and `undefined` for other names; a string answers `undefined` (own properties only, see Left out) |
| Catalog.Walk | index.js:243-244 | the loop of `_getEndpoint`: no segment leaves the cursor where it is, and any segment read from `undefined` throws; its outcomes are characterised by `WalkSnoc` and `WalkThrows` |
| Catalog.GetEndpoint | index.js:240-246 | `_getEndpoint`: a target without a dot is a single property read of the catalog root; the general cases are `GetEndpointUndefined`, `GetEndpointThrows`, `GetEndpointOfPath` and `GetEndpointFinds` |
| Catalog.WalkReaches | index.js:242-245 | a walk from a catalog node ends on the node `d` exactly when the path leads there through groups, one child per segment (`Reaches`, a definition over the catalog tree independent of the walk) |
| Catalog.GetEndpointFinds | index.js:240-246 | `_getEndpoint` of a dotted name of dot-free segments returns the node `d` exactly when the segments lead from the catalog root to `d` |
| Url.FormatFillsInOrder | index.js:255 | with as many arguments as placeholders, `util.format` puts the k-th argument in the k-th `%s` |
| Url.BuildUrl | index.js:248-260 | the arity error happens exactly when the placeholder count differs from the number of path arguments left after a trailing object is popped as the query string; on success the URL is the prefix followed by the template with the arguments in order, and the query string is the popped object or `{}` |
| Url.TemplateRestored | index.js:253 | putting `%s` back in place of every filler restores the template |
| Url.OnePlaceholder | index.js:253-254 | a one-placeholder template fails with no path argument and yields `prefix/c/<id>` with one |
| Wait.MaxWaitIsLeastUpperBound | index.js:129-137 | the application wait bounds every application gate's wait, is not negative, and is 0 or one of the waits |
| Wait.AppTimeLeft | index.js:129-137 | the `forEach` loop computes the largest of 0 and the application gates' waits |
| Wait.DelayIsWorstCase | index.js:144-148 | there is no snooze iff no gate asks to wait and the retry delay is not positive; a snooze lasts the retry delay plus the worst wait (NaN when the delay is NaN) |
| Wait.AttemptWait | index.js:299-313 | `_getAttemptPromise`: a gate error backs off exactly 500 ms, there is a wait exactly when the gate errs or reports time left, and a reported time left is waited as it is |
| Backoff.Classify | index.js:168-215 | a 2xx resolves with its body and a 404 with null; 429/500/503 with budget left retry, escalating exactly on 429 with `retry-after * 1000` as the delay; when the budget is spent they reject with only the text `[429 - ]Aborting request after retrying <n> times`; any other status rejects with its status and message, and a failure without a response with its message alone |
| Backoff.NextRetryMS | index.js:229-231 | an explicit delay wins; otherwise a positive delay strictly grows, and with a positive default a retry always waits |
| Backoff.FaultDelayDoubles | index.js:228-231 | after k retries without an explicit delay, the delay is `retryMS * 2^(k-1)` |
| Backoff.ThreeFaults | index.js:199-203 | three server faults in a row wait D, 2D and 4D |
| Backoff.RetryAfterTwoSeconds | index.js:187-191 | a 429 with `retry-after: 2` and budget left retries escalated after 2000 ms |
| MethodLimits.Created | index.js:262-289 | a limiter is built only for a new target or when forced, from the stored limit when the read succeeds and finds one, else from the given limit; other targets are untouched |
| MethodLimits.Adjusted | index.js:219-226 | nothing changes when the header is absent or equals the cached limit; no limiter is ever dropped |
| MethodLimits.AdjustReadsBeforeWrite | index.js:219-226 | a changed limit rebuilds the limiter from the value stored before this response, then stores the reported value |
| MethodLimits.AdjustConverges | index.js:219-226 | two responses reporting the same new limit bring the cached limit to it; a third changes nothing |
| MethodLimits.AdjustedLimitIsShared | index.js:262-283 | a limit written by one region is what a limiter created later under the same key picks up |
| Scheduler.PrepareCases | index.js:116-122 | `_process` rejects iff the last catalog segment is missing; it throws iff an earlier one is missing, the lookup ends on a non-descriptor, or the arity is wrong; otherwise the URL is the filled template |
| Scheduler.PrepareReady | index.js:116-126 | a call whose target segments lead to a descriptor is ready exactly when its path arguments match the template's placeholders (the arity error escapes otherwise), with the prefix followed by the filled template as URL and the descriptor's limit |
| Scheduler.PrepareSummonerByName | index.js:116-126 | a catalog with a descriptor under `summoner.byName`: a call to it with one path argument is ready, the argument filled into the template |
| Scheduler.PushedConsistent | index.js:64-90 | enqueueing a call keeps the region invariant |
| Scheduler.PopUnique | index.js:113 | the popped item is neither in flight nor anywhere else in the queues |
| Scheduler.PoppedSettledConsistent | index.js:119-121 | popping an item and rejecting its caller keeps the invariant |
| Scheduler.PoppedEscapedConsistent | index.js:122 | popping an item whose exception escapes keeps the invariant |
| Scheduler.DispatchedConsistent | index.js:124-151 | popping an item and sending it keeps the invariant, the send count staying within `max(maxRetriesAmnt, 0) + 1` |
| Scheduler.SettledConsistent | index.js:169-177 | settling a caller keeps the invariant |
| Scheduler.RequeuedConsistent | index.js:228-234 | re-queueing an item whose budget is not spent keeps the invariant |
| Scheduler.EscalatedConsistent | index.js:190 | raising the priority of a request in flight keeps the invariant |
| Scheduler.IdleConsistent | index.js:59-61 | a new region satisfies the invariant |
| Scheduler.LimitsConsistent | index.js:219-226 | rebuilding method limiters keeps the invariant as long as none is dropped |
| Scheduler.RequeuedServedLast | index.js:233-234 | a retried item is served after every item already waiting in its queue, before the normal queue when it is a priority item |
| Scheduler.ServedNext | index.js:96-103 | a drain serves the tail of the priority queue first, and the tail of the normal queue only when the priority queue is empty |
| Scheduler.PushedServedLifo | index.js:76 | calls A, B, C pushed into the normal queue are served C, B, A |
| Scheduler.Store.Set | index.js:224 | a store write replaces one key's value |
| Scheduler.Region.constructor | index.js:31-62 | a new region has the two application limiters from `applimit[0]` and `applimit[1]`, no method limiter, empty queues and the flag clear |
| Scheduler.Region.Enqueue | index.js:67-86 | the call becomes an item with no retries and no delay at the tail of the priority queue iff its priority is HIGH |
| Scheduler.Region.Get | index.js:64-90 | `get` enqueues the call, answers its id, and leaves the region as the drain `Run` starting from the pushed state leaves it |
| Scheduler.Region.GetDuringDrain | index.js:94 | a `get` while a drain runs only enqueues |
| Scheduler.Region.GetConsistent | index.js:64-90 | `get` keeps the region invariant |
| Scheduler.Region.ProcessQueue | index.js:92-110 | the two loops produce exactly the state and the served ids of the drain `Run` |
| Scheduler.Region.Step | index.js:97-102 | one turn of either loop serves one more item of the drain, one fewer in the queue it took from, and ends the drain when the exception escapes |
| Scheduler.Region.DrainedOrder | index.js:96-103 | a drain serves a prefix of the priority queue from its tail followed by the normal queue from its tail, and all of it when it clears the flag |
| Scheduler.Region.DrainedEnds | index.js:104-107 | a drain accepts no call and clears the flag only with both queues empty |
| Scheduler.Region.DrainedEscapes | index.js:92-110 | a drain that clears the flag lets nothing escape; one that leaves it set ends with the escape of the last item it served |
| Scheduler.Region.DrainedConsistent | index.js:92-110 | a drain keeps the region invariant |
| Scheduler.Region.Drained | index.js:96-107 | the two loops of `processQueue`: something is served exactly when something waits, and no more items than wait; its order, end and escapes are `DrainedOrder`, `DrainedEnds` and `DrainedEscapes` |
| Scheduler.Region.Run | index.js:92-110 | `processQueue`: a call that finds a drain running serves nothing and leaves the state as it is, and one that finds none serves something exactly when something waits |
| Scheduler.Region.Process | index.js:112-152 | `_process` pops the tail of the chosen queue and leaves the region as `Processed` says; the drain goes on iff no exception escapes |
| Scheduler.Region.Handle | index.js:116-151 | after the pop, the region changes as `Processed` says, and the exception escapes exactly when `Prepare` says so |
| Scheduler.Region.Processed | index.js:112-152 | processing leaves the queues, the flag and the id counter alone, and records an escape exactly when the exception escapes |
| Scheduler.Region.ProcessedEffects | index.js:118-151 | an undefined endpoint only rejects its caller, creating no limiter and consulting no gate; a ready item gets a method limiter, consults the application gates and then the method gate, and is sent and in flight |
| Scheduler.Region.ProcessedConsistent | index.js:112-152 | whatever `_process` does with the popped item keeps the invariant |
| Scheduler.Region.SendReady | index.js:124-151 | the method limiter is ensured, every application gate and the method gate are consulted, and the request is in flight with the snooze the worst wait and the retry delay ask for |
| Scheduler.Region.CreateMethodLimiter | index.js:262-289 | the limit map becomes `Created` of the old map and the store |
| Scheduler.Region.AdjustMethodLimit | index.js:219-226 | the limit map and the store become `Adjusted` of the old ones; nothing else changes |
| Scheduler.Region.Retried | index.js:228-231 | a retry adds exactly one to the count; the delay becomes the explicit value, else `retryMS` when the last delay was 0, else twice the last delay (NaN staying NaN) |
| Scheduler.Region.RetryRequest | index.js:228-238 | the retried item goes to the head of the queue its priority selects, then a drain runs |
| Scheduler.Region.RetryConsistent | index.js:228-238 | re-queueing within the budget and the drain that follows keep the invariant |
| Scheduler.Region.LimitsAfter | index.js:170-174 | the limits are adjusted only when the outcome carries response headers, and no limiter is dropped |
| Scheduler.Region.Completed | index.js:168-216 | the handlers of `_sendRequest`: a completion that does not retry takes the request out of flight and settles exactly its caller, once, after the earlier outcomes, with the body (null on 404) or the failure `Classify` gives; its invariant is `CompletedConsistent` |
| Scheduler.Region.Complete | index.js:168-216 | the decision is `Classify` of the outcome; the region and the store become `Completed` of the old ones |
| Scheduler.Region.CompletedConsistent | index.js:168-216 | a completion keeps the invariant, so no call is sent more than `max(maxRetriesAmnt, 0) + 1` times |
| Scheduler.Region.CompletedSettledConsistent | index.js:169-177 | a completion that resolves or rejects keeps the invariant |
| Scheduler.Region.CompletedRetryConsistent | index.js:187-203 | a completion that retries keeps the invariant |
| Client.RiotApi.constructor | index.js:15-21 | a new client has no region |
| Client.RiotApi.RegionFor | index.js:24-25 | a region is created only for an unseen platform id; a known id answers the same region object |
| Client.RiotApi.Get | index.js:23-28 | only the call's region changes, as `Region.get` changes it; a first call for a platform id creates that region idle; other regions are untouched |
| Client.RiotApi.SharedAppLimiters | index.js:38-58 | every region of a client consults the same two application buckets, `env + "app_0"` and `env + "app_1"` |

## Left out

- HTTP transport (`request-promise`): the outcome of a request is a `Response` value given
  to `Region.Complete`. The request options, the API key header and JSON decoding are not
  modelled.
- Concurrency:
  - A drain runs to completion as one step. In the code, the awaits inside `_process`
    (the store read, the gates, the snooze) let other `get` calls and completions
    interleave. Those interleavings are not modelled.
  - A completion is a separate event (`Region.Complete`).
  - The three gates are consulted in order: application 0, application 1, method.
- Scheduler.Region.ProcessQueue: states the atomic drain only, for the reason above.
- Timing: a snooze is recorded as the delay value of the dispatch. `setTimeout`'s
  treatment of NaN or negative delays is not modelled.
- The rolling-rate-limiter library: a gate's answer is an input (`GateAnswer`).
  - `minDifference`, `edgeCaseFixValue` and `spreadToSlowest` are not modelled, because
    they are floating-point arithmetic on configuration values.
  - A limiter is its namespace and its parsed limits.
- Redis: the store is an in-memory map (`Store`).
  - A failing read is the `storeError` input.
  - Write errors are ignored, as the code ignores them.
  - The client's creation and connection options are not modelled.
- Configuration: `Config` is the configuration already merged with the defaults.
  `Object.assign` with `config.json`, the `key` field and `NODE_ENV` lookup (`env`) are not
  modelled.
- `debug` and `showWarn` logging and the `exceededCallback` hook: side effects with no
  bearing on scheduling.
- Numbers are integers or NaN. Fractional values, Infinity and `parseInt` of digit runs
  longer than a double's precision are not modelled.
- `util.format`: only the `%s` specifier is modelled.
  - An object among the path arguments (not the trailing one) is rendered as
    `[object Object]`, as Node.js before version 12 does; Node.js 12 and later render
    objects without their own `toString` through `util.inspect`.
  - Booleans, arrays and functions are not call arguments here.
- The promise objects are not modelled. A caller is identified by its item's id, and its
  settlement is an entry of `outcomes`.
- Catalog.Index: a property read sees the catalog's own keys and a descriptor's `url` and
  `limit` only. Names JavaScript finds through the prototype chain (`toString`,
  `constructor`, `hasOwnProperty`, `__proto__`, a string's `length` and digit indices)
  are read as `undefined`. For a target such as `champion.toString` the code gets a
  function, fails later at `suffix.split` and leaves the region stuck, while the model
  rejects the call as an undefined endpoint. `Catalog.GetEndpointUndefined` and
  `Catalog.GetEndpointThrows` hold under this reading. The same reading applies to
  `this.methodLimits[target]` and `this.regions[platformId]`, which are Dafny maps here.
- Client.RiotApi.Get: does not restate the region invariant for every region, which
  `Scheduler.Region.GetConsistent` proves on the region's state.
