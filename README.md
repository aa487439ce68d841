# rolling-curl, modelled in Dafny

rolling-curl is a small PHP library. It runs many HTTP requests through curl's
multi interface, with at most a fixed number of them in flight; this number is
the "rolling window". It has two components.

- **The scheduler** (`RollingCurl`, file `RollingCurl.php`).
  - It keeps a FIFO queue of `Request` objects.
  - Every request's curl options are built in two steps. PHP's `+` first
    unites the scheduler defaults with the request's own options, so a default
    wins on a shared key. The url, the post data (when truthy) and the
    scheduler's headers (when non-empty) are then assigned over the result.
  - A queue of exactly one request takes a short single-request path.
  - Otherwise the window is clamped to the queue length and has to be at least 2.
  - The first `w` requests are started. On every completion the callback runs
    and at most one more request is started.
- **The group layer** (file `RollingCurlGroup.php`).
  - Group-aware requests belong to a `RollingCurlGroup`.
  - A group collects its members, hands them to a scheduler and counts their
    completions. Its `finished` hook runs on every completion from the one that
    reaches the number of members on.
  - `GroupRollingCurl` is a scheduler whose completion callback is its own
    `process`. It reports each completion first to the request's group and then
    to an optional global callback.

The project has three modules.

- `PhpValues` (`php_values.dfy`): PHP values and keys, truthiness, and the
  array union `+`.
- `Rolling` (`rolling_curl.dfy`):
  - the `Request` value;
  - the option merge;
  - the window computation;
  - the dispatch loop as a state machine over the counter `$i`, the in-flight
    set and the completion order, with its invariants;
  - the class `RollingCurl`.
- `Grouping` (`rolling_curl_group.dfy`): the classes `GroupRequest`,
  `RollingCurlGroup` and `GroupRollingCurl`, and the completion-counting lemmas.

How the transport is modelled:

- It is abstract. In the rolling loop, the request that completes next is
  chosen nondeterministically among those in flight, so every contract of the
  loop holds for every completion order.
- The single-request path receives the response body from a function parameter
  `fetch` of the effective options.
- Each run method also returns the sequence `calls` of queue indices, in the
  order in which they were handed to the completion callback.
- The main model reports completions one at a time and runs until nothing is
  in flight. The loop exit on `$running` as the code writes it is modelled
  separately, by passes that each report a batch of completions; see
  "## Findings".

## Model

| member | source | states |
|---|---|---|
| PhpValues.Union | RollingCurl.php:194 | PHP `left + right`: the result's keys are the keys of both; every key of `left` keeps its value from `left`; keys only in `right` take their value from `right` |
| PhpValues.UnionAbsorbs | RollingCurl.php:69-77 | applying the same union a second time changes nothing |
| Rolling.Request.Get | RollingCurl.php:21-26 | `__get` returns the stored setting when it is present and not null, otherwise `false`; it never returns null |
| Rolling.Request.Set | RollingCurl.php:28-31 | after `__set`, reading the name gives the new value (`false` for null); every other name reads as before |
| Rolling.NewRequest | RollingCurl.php:13-19 | the constructor stores url, method, post_data, headers and options under their names; every other name reads as `false` |
| Rolling.GetOptions | RollingCurl.php:187-211 | the key set is exactly: the defaults, the request options and the keys the method assigns itself; a default beats a request option with the same key; request-only options are taken over; URL is the request's url; POST=1 and POSTFIELDS=post_data exactly when post_data is truthy; HEADER=0 and HTTPHEADER=the scheduler headers exactly when those are non-empty |
| Rolling.Assemble | RollingCurl.php:197-208 | after the merge, URL is always assigned, the post keys only for truthy post data and the header keys only for non-empty headers; every other merged entry is kept |
| Rolling.WithPost | RollingCurl.php:201-204 | truthy post data adds POST=1 and POSTFIELDS; otherwise the array is unchanged |
| Rolling.WithHeaders | RollingCurl.php:205-208 | non-empty scheduler headers add HEADER=0 and HTTPHEADER; otherwise the array is unchanged |
| Rolling.RequestHeadersIgnored | RollingCurl.php:187-211 | changing a request's own `headers` setting never changes its effective options |
| Rolling.RequestedWindow | RollingCurl.php:127-128 | a truthy window argument (set and non-zero) replaces the configured window; otherwise the configured window is kept |
| Rolling.EffectiveWindow | RollingCurl.php:127-132 | the window is the minimum of the requested window (a truthy argument, else the configured value) and the queue length |
| Rolling.SmallQueueFailsPrecheck | RollingCurl.php:130-138 | a queue of fewer than two requests always fails the window pre-check |
| Rolling.Submit | RollingCurl.php:145-150 | starting a request puts index `$i` in flight, advances `$i` by one, leaves the completions alone and keeps the starts in index order |
| Rolling.Started | RollingCurl.php:144-151 | after the first batch loop, `$i == w` and nothing has completed |
| Rolling.StartedShape | RollingCurl.php:144-151 | after the first batch loop, `$i == w`, indices 0..w-1 are in flight, they were started in index order and nothing has completed |
| Rolling.StartedInvariant | RollingCurl.php:144-151 | the window invariant holds after the first batch when `w <= N` |
| Rolling.Complete | RollingCurl.php:164-177 | a completion appends its index to the completion order and takes it out of flight; every other request in flight stays; while `$i < N` it starts exactly index `$i` and advances `$i`; otherwise it starts nothing |
| Rolling.CompletePreservesInvariant | RollingCurl.php:158-179 | a completion (callback, at most one refill while `$i < N`, handle removed) keeps the window invariant and appends the index to the completion order |
| Rolling.RefillStep | RollingCurl.php:168-177 | a completion while requests remain starts `requests[$i]` and keeps the invariant |
| Rolling.RefillStartsNext | RollingCurl.php:168-174 | the refill starts exactly the next index, so the starts stay in index order |
| Rolling.RefillPartitions | RollingCurl.php:168-177 | after a refill, each started index is either in flight or completed, never both, and never completed twice |
| Rolling.RefillKeepsWindow | RollingCurl.php:168-174 | the refill keeps the in-flight count equal to the window |
| Rolling.DrainStep | RollingCurl.php:176-177 | a completion with nothing left to start shrinks the in-flight set by one and keeps the invariant |
| Rolling.DrainedMeansAllDone | RollingCurl.php:153-180 | once nothing is in flight, every request was started once in index order and every request completed exactly once |
| Rolling.TraceStep | RollingCurl.php:158-179 | one more completion report extends a run of the loop |
| Rolling.TraceKeepsWindow | RollingCurl.php:153-180 | every state of every run keeps the invariant: in-flight count at most `w`, exactly `w` while requests remain; in flight + remaining + completed = N; starts in index order |
| Rolling.CompleteAll | RollingCurl.php:158-179 | one pass of the inner `curl_multi_info_read` loop over a batch of in-flight handles appends the batch, in order, to the completion order |
| Rolling.UnreportedStayInFlight | RollingCurl.php:158-179 | a request in flight that the pass does not report is still in flight after the pass |
| Rolling.PassKeepsWindow | RollingCurl.php:158-179 | a pass of batched completions keeps the window invariant |
| Rolling.PassStep | RollingCurl.php:153-180 | a pass keeps the invariant and appends the batch; when some handle in flight was not reported, one is still in flight |
| Rolling.StartedRunning | RollingCurl.php:144-151 | after the first batch (`1 <= w <= N`) the invariant holds, nothing has completed and something is in flight |
| Rolling.RunningExitLosesCallback | RollingCurl.php:153-180 | with N=3 and window 2, a first pass that reports requests 0 and 1 leaves zero handles running, so the loop exits; request 2 is still in flight, and the callbacks [0, 1] are not a permutation of all indices |
| Rolling.SingleReportsAreSafe | RollingCurl.php:153-180 | when the handle just reported was the only one running, with a window of at least 2, nothing is left in flight, so an exit there loses nothing |
| Rolling.RollingCurl.constructor | RollingCurl.php:46-63 | window 5, the six default options, no headers, an empty queue, and the callback given |
| Rolling.RollingCurl.SetOptions | RollingCurl.php:69-77 | `__set("options", v)` unites `v` under the old options and returns true |
| Rolling.RollingCurl.SetHeaders | RollingCurl.php:69-77 | `__set("headers", v)` unites `v` under the old headers and returns true |
| Rolling.RollingCurl.SetWindowSize | RollingCurl.php:73-76 | `__set` of any other name overwrites: the window becomes the value; it returns true |
| Rolling.RollingCurl.SetCallback | RollingCurl.php:73-76 | `__set("callback", v)` overwrites the callback and returns true |
| Rolling.RollingCurl.Add | RollingCurl.php:80-83 | appends exactly the element to the end of the queue; earlier entries are unchanged; returns true |
| Rolling.RollingCurl.AddRequest | RollingCurl.php:86-89 | appends one `Request` built from the arguments; returns true |
| Rolling.RollingCurl.Get | RollingCurl.php:92-94 | appends one request with method "GET" and null post data; returns true |
| Rolling.RollingCurl.Post | RollingCurl.php:96-98 | appends one request with method "POST" and the post data; returns true |
| Rolling.RollingCurl.SingleCurl | RollingCurl.php:111-124 | the only request is sent with its merged options; with a callback, the callback is called once and nothing is returned; without one, the output is returned |
| Rolling.RollingCurl.SubmitInOrder | RollingCurl.php:144-174 | starting `requests[$i]` keeps the submitted options in queue order |
| Rolling.RollingCurl.RollingDispatch | RollingCurl.php:126-183 | the effective window is stored back; below 2, the error string is returned and nothing is started; otherwise requests are submitted in queue order, and with a callback every request is submitted, the callback order is a permutation of all indices, and each loop state follows from the previous one by one completion until nothing is in flight |
| Rolling.RollingCurl.StartBatch | RollingCurl.php:144-151 | the first loop starts exactly requests 0..w-1, in order |
| Rolling.RollingCurl.RunningStep | RollingCurl.php:158-179 | one completion report keeps the loop invariant |
| Rolling.RollingCurl.RunCompletions | RollingCurl.php:153-182 | the completion loop ends with every request started once in order and called back exactly once, in some order; a null callback fails on the first completion |
| Rolling.RollingCurl.RunPassesAsWritten | RollingCurl.php:153-182 | the do-while as written: passes run while the running count is positive; it ends with the window invariant and the callbacks equal to the completion order; a null callback fails on the first completion, and otherwise it returns true |
| Rolling.RollingCurl.PassAsWritten | RollingCurl.php:154-179 | one pass: a non-empty batch of distinct in-flight handles is reported; the running count is the number of handles in flight before the pass that it did not report; the invariant is kept |
| Rolling.RollingCurl.Execute | RollingCurl.php:101-109 | exactly one queued request takes the single path and leaves the window alone; any other count takes the rolling path, with the outcomes listed for RollingDispatch; every index called back exists in the queue |
| Grouping.GroupRequest.constructor | RollingCurlGroup.php:12-14 | a new group-aware request has no group |
| Grouping.GroupRequest.SetGroup | RollingCurlGroup.php:21-27 | a non-group argument throws and leaves the group alone; otherwise it returns without a value, and the group replaces the current one, set or not |
| Grouping.GroupRequest.Process | RollingCurlGroup.php:34-38 | with no group nothing happens; otherwise the group's finished count grows by one, and the hook runs exactly when the count has reached the member count |
| Grouping.Accepted | RollingCurlGroup.php:70-86 | `add` only takes over requests that occur in its argument |
| Grouping.AcceptedUpTo | RollingCurlGroup.php:78-82 | the first j elements of an array only yield requests that occur in the array |
| Grouping.StoppedStaysStopped | RollingCurlGroup.php:78-84 | after a rejected element, the remaining elements change nothing |
| Grouping.PrefixAdmission | RollingCurlGroup.php:78-82 | what `add` does with a prefix of an array does not depend on the elements after it |
| Grouping.AllMembersAccepted | RollingCurlGroup.php:78-82 | an array of group-aware requests is added completely, in array order |
| Grouping.RejectStopsAdd | RollingCurlGroup.php:78-86 | a rejected element after accepted ones: the earlier ones stay added, the later ones are not added, and the call throws |
| Grouping.RollingCurlGroup.constructor | RollingCurlGroup.php:52-60 | a new group has its name, no members and zero counts |
| Grouping.RollingCurlGroup.Add | RollingCurlGroup.php:70-87 | each accepted request joins the group, in order: its group is set to this one, the member count grows by one per request, and it is appended; requests not taken over keep their group; the call throws exactly when a rejected value is reached, and otherwise returns true |
| Grouping.RollingCurlGroup.AddToRC | RollingCurlGroup.php:89-104 | a non-scheduler argument throws and changes nothing; otherwise all members are appended to the scheduler queue in FIFO order, the group is left empty, and the call returns true |
| Grouping.RollingCurlGroup.Process | RollingCurlGroup.php:106-112 | the finished count grows by exactly one; the hook runs exactly when the count is at least the member count |
| Grouping.RollingCurlGroup.Finished | RollingCurlGroup.php:114-116 | the hook runs once per call |
| Grouping.Firings | RollingCurlGroup.php:106-112 | for m successive `process` calls from count `done`, the t-th one fires exactly when `done + t + 1` reaches the member count |
| Grouping.FiringsExtend | RollingCurlGroup.php:106-112 | one more `process` call adds one hook run exactly when it reaches the member count |
| Grouping.HitsAppend | RollingCurl.php:164-166 | one more reported entry adds one to the count of exactly the group that owns it |
| Grouping.FiringCount | RollingCurlGroup.php:106-112 | the hook never fires before the count reaches the member count; it fires on the call that reaches it and again on every excess call |
| Grouping.PermutationHits | RollingCurl.php:158-166 | over any completion order of all queued requests, each group is reported to once per entry it owns in the queue |
| Grouping.GroupRollingCurl.constructor | RollingCurlGroup.php:133-138 | the global callback is stored, and the base scheduler gets `process` as its callback; it reads a group-aware request's settings from the request it wraps (`RequestOf`) |
| Grouping.GroupRollingCurl.Process | RollingCurlGroup.php:124-131 | a group-aware entry is reported to its group first, when it has one: that group's finished count grows by one and its hook-run count grows by one exactly when the hook fired; then the global callback gets the entry exactly when one is set |
| Grouping.GroupRollingCurl.Add | RollingCurlGroup.php:140-146 | a group drains its members into the queue through `addToRC`; any other value is appended to the queue |
| Grouping.GroupRollingCurl.Execute | RollingCurlGroup.php:148-154 | an empty queue returns false and changes nothing; otherwise the result is the base execute's, with its outcomes as listed for RunBase; while the base callback is `process`, each group's finished count grows by the number of its entries among the completions and its hook-run count by the number of those `process` calls that reached the member count; a concurrent run (more than one request, window at least 2) finishes, and each group then counts exactly one completion per entry it owns in the queue; when the callback is not `process`, both counts are unchanged; the global callback receives the queue entry of every reported completion, in order, when one is set, and nothing when none is set or `process` is not the base callback |
| Grouping.GroupRollingCurl.RunBase | RollingCurlGroup.php:153 | the base execute's outcome: each index called back is in the queue; one request keeps the window, is called back once with a callback and returns the output without one; any other count stores the clamped window, returns the error string below 2, fails on a null callback, and otherwise finishes with every request called back exactly once |
| Grouping.GroupRollingCurl.Replay | RollingCurl.php:164-166 | the base loop's callbacks, in order, each go through `process`; each group's finished count grows by the number of completed entries it owns, and its hook-run count by the number of those calls that reached its member count; the global callback receives the entries in order |
| Grouping.CountStep | RollingCurlGroup.php:106-112 | one more `process` call for a completed entry keeps a group's finished count and hook-run count in step with the entries it owns among the completions |
| Grouping.GroupRollingCurl.ProcessAt | RollingCurlGroup.php:124-131 | `process` for one queue index: only that entry's group counts one more completion, and its hook-run count grows by one exactly when the new count reaches the member count |
| Grouping.GroupOfThree | RollingCurlGroup.php:106-154 | three group-aware requests added to one group, the group added to a group-aware scheduler, and a run with window 2: the run finishes, the group counts three completions and its `finished` hook runs exactly once, for every completion order |

## Left out

- libcurl is not modelled: handles, `curl_setopt_array`, `curl_exec`, `curl_getinfo` and the `curl_multi_*` calls. Response bodies and info are opaque. A queue entry's effective options stand for what is sent.
- The loop's transport conditions are not modelled: the `CURLM_CALL_MULTI_PERFORM` spin and the break when `curl_multi_exec` fails.
- Rolling.RollingCurl.RunCompletions: reports completions one at a time and runs until nothing is in flight. `Rolling.RollingCurl.RollingDispatch` and `Rolling.RollingCurl.Execute` rest on that loop for their permutation ensures. The code can return true with fewer than N callbacks, when every handle in flight finishes within one pass (see "## Findings"). `RunPassesAsWritten` models that exit.
- Default arguments (`RollingCurl.php:13`, `61`, `86`, `92`, `96`, `101`) are not modelled. Every argument is explicit in the model, and an omitted PHP argument corresponds to passing its default value.
- PHP's array-key coercion is not modelled. In PHP the keys `"1"` and `1` are the same key, while `StrKey("1")` and `IntKey(1)` are distinct keys here (`php_values.dfy`). So a request option under the string key `"1"` does not collide, in the model, with a default under the integer key `1`.
- The numeric `CURLOPT_*` codes are not modelled. Option keys are symbolic, and the six defaults keep their values.
- The model does not keep PHP array key order. An array is a map, so the order of keys in the merged options is not represented.
- Destructors are left out, because they only unset fields. `example.php` is demo code that fetches live sites.
- `RollingCurl.__get` is not modelled. `get_options` reads the fields directly, and they are always set.
- Rolling.RollingCurl.SetWindowSize, Rolling.RollingCurl.SetCallback: `__set` of other names, such as `requests`, and of undeclared names is not modelled. Only the four declared configuration fields are.
- Rolling.RollingCurl.SetOptions, Rolling.RollingCurl.SetHeaders: the value must be an array. PHP's `+` with a non-array operand is a fatal error.
- Rolling.GetOptions: requires the request's `options` setting to be falsy or an array. PHP's `+` with a non-array operand is a fatal error.
- Rolling.RollingCurl.Execute, Rolling.RollingCurl.RollingDispatch: require every queued request to satisfy the `options` condition above. This also excludes inputs PHP would accept: with a queue length other than 1 and a window below 2, `rolling_curl` returns the message (`RollingCurl.php:134-137`) before `get_options` reads any entry, so an unusable entry is harmless there. The rolling path with a null callback is modelled as the result `CallbackNotCallable`. It occurs at the first completion, since PHP then calls a null value, which is fatal.
- Rolling.RollingCurl.Add: the queue holds `Request` values or group-aware requests only. PHP's `add` accepts any value. For a value that is not an object, reading `$request->options` or `->url` in `get_options` only raises a warning and yields null. Inside the first window (`RollingCurl.php:144-151`) such a value is therefore sent with a null URL.
- The refill test also checks `isset($this->requests[$i])` (`RollingCurl.php:169`). It always holds here, since a queue entry is never null. In PHP a null entry at an index at or past the window fails that test, and since `$i` only advances inside it (line 171), no later request is ever started: `rolling_curl` still returns true, without starting the rest of the queue.
- `Request` is a value in the model. Calling its `__set` on a request that is already queued, and aliasing the same object twice in the queue, are not captured.
- Window arguments are `Option<int>`, and `None` and `0` are the falsy values. Non-integer window values are not modelled.
- A callback or global callback that is set but not callable (`is_callable` false) is modelled as no callback.
- Grouping.GroupRequest.SetGroup, Grouping.RollingCurlGroup.AddToRC: an argument that is not an instance of the required class is modelled as null.
- `RollingCurlGroup.php` extends a class `RollingCurlRequest`, which is not part of this model; `RollingCurl.php` defines the request class as `Request`. A group-aware request here wraps a `Request` value, so its settings are read through that value.
- The callbacks' arity mismatch is not modelled. `RollingCurl.php` calls its callback with `(output, info)`, while `GroupRollingCurl.process` expects `(output, info, request)`. The model passes the completed queue entry, the request index in `calls`, as that class intends.
- Grouping.GroupRollingCurl.Execute: the group bookkeeping of the callbacks is applied after the base loop returns, in the order the loop reported completions; it is not interleaved with the refills. The counts a group ends with are the same, because the group layer touches no scheduler field. `RunBase` hands on the base result and the completion order, but not the list of submitted options.
- Callbacks are assumed not to call back into the scheduler while `execute` runs. The refill test at `RollingCurl.php:169` reads the queue length again on every completion, so a callback (or an overridden `finished` hook) that adds requests to the running scheduler would lengthen the run. The model fixes the queue for the whole run.
- The global callback's own effects are outside the library. The model records only which entries it received, in the ghost field `forwarded`. The `finished` hook is empty in the source, and the ghost counter `finishedHooks` counts its runs.
- `GroupRollingCurl.add` of a PHP array is not modelled. The source routes any non-group value, arrays included, to the base `add`, which queues it as one element. No list form is flattened.
- Because of the merge at `RollingCurl.php:194`, the scheduler's options win over a request's own options on a key collision.

## Findings

| source | as written | input that shows it | evidently intended | confidence | as-written member | corrected member |
|---|---|---|---|---|---|---|
| RollingCurl.php:153-180 | `$running` is set by `curl_multi_exec` before the inner loop refills the window, and the do-while exits when it is 0, even if a refill has just started a request | N=3, window 2: requests 0 and 1 finish within the first pass, so `$running` is 0; the pass starts request 2, the loop exits and `rolling_curl` returns true after only two callbacks. `Rolling.RollingCurl.RunPassesAsWritten` is the loop with this exit | the loop runs until every started request has been called back, so the callbacks are a permutation of all N indices | not executed | Rolling.RunningExitLosesCallback | Rolling.RollingCurl.RunCompletions |
