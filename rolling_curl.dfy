/**
 * The rolling-window request scheduler: the `Request` value object, the option
 * merge performed for every request, the window computation and the dispatch /
 * refill loop, with the transport reduced to "some in-flight request completes".
 */
module Rolling {
  import opened PhpValues

  // ---------------------------------------------------------------------------
  // Requests
  // ---------------------------------------------------------------------------

  /** What `__get` makes of a stored setting: PHP's `isset` fails on null, and then `false` is returned. */
  function Observed(v: Value): Value {
    if v == Null then Bool(false) else v
  }

  /** A single curl request: its settings array (url, method, post_data, headers, options, ...). */
  datatype Request = Request(settings: map<string, Value>) {

    /** `__get`: the stored setting when it is set and not null, otherwise `false`. */
    function Get(name: string): (v: Value)
      ensures v != Null
      ensures v == Bool(false) || (name in settings && settings[name] == v)
      ensures name in settings && settings[name] != Null ==> v == settings[name]
    {
      if name in settings && settings[name] != Null then settings[name] else Bool(false)
    }

    /** `__set`: stores the value under the name; the update is returned as a new request value. */
    function Set(name: string, value: Value): (r: Request)
      ensures r.Get(name) == Observed(value)
      ensures forall other :: other != name ==> r.Get(other) == Get(other)
    {
      Request(settings[name := value])
    }
  }

  /** The `Request` constructor: every argument is stored under its setting name. */
  function NewRequest(url: Value, httpMethod: Value, postData: Value, headers: Value, options: Value): (r: Request)
    ensures r.Get("url") == Observed(url) && r.Get("method") == Observed(httpMethod)
    ensures r.Get("post_data") == Observed(postData)
    ensures r.Get("headers") == Observed(headers) && r.Get("options") == Observed(options)
    ensures forall name :: name !in {"url", "method", "post_data", "headers", "options"} ==> r.Get(name) == Bool(false)
  {
    Request(map["url" := url, "method" := httpMethod, "post_data" := postData,
                "headers" := headers, "options" := options])
  }

  // ---------------------------------------------------------------------------
  // Option merge (get_options)
  // ---------------------------------------------------------------------------

  /**
   * The request's own options can be merged: PHP's `+` on an array and a non-array
   * is a fatal error, so a truthy `options` setting must be an array.
   */
  predicate OptionsUsable(r: Request) {
    Truthy(r.Get("options")) ==> r.Get("options").Arr?
  }

  /** The per-request options that take part in the merge (none when the setting is falsy). */
  function RequestOptions(r: Request): PhpArray
    requires OptionsUsable(r)
  {
    if Truthy(r.Get("options")) then r.Get("options").entries else map[]
  }

  /** The keys that get_options assigns itself, after the merge. */
  predicate AssignedByScheduler(k: Key, r: Request, headers: PhpArray) {
    k == Opt(Url) || PostKey(k, r.Get("post_data")) || HeaderKey(k, headers)
  }

  /**
   * get_options: the scheduler options `defaults`, united (left operand first) with the
   * request's own options, then the url, the post fields and the scheduler headers.
   * The request's own `headers` setting is never consulted.
   */
  function GetOptions(defaults: PhpArray, headers: PhpArray, r: Request): (opts: PhpArray)
    requires OptionsUsable(r)
    // the key set: defaults, request options, and what the scheduler assigns itself
    ensures forall k :: k in opts <==> k in defaults || k in RequestOptions(r) || AssignedByScheduler(k, r, headers)
    // a scheduler option beats a request option with the same key
    ensures forall k :: k in defaults && !AssignedByScheduler(k, r, headers) ==> k in opts && opts[k] == defaults[k]
    // a request-only option is taken over
    ensures forall k :: k in RequestOptions(r) && k !in defaults && !AssignedByScheduler(k, r, headers) ==>
              k in opts && opts[k] == RequestOptions(r)[k]
    ensures Opt(Url) in opts && opts[Opt(Url)] == r.Get("url")
    ensures Truthy(r.Get("post_data")) ==> Opt(Post) in opts && Opt(PostFields) in opts && opts[Opt(Post)] == Int(1) && opts[Opt(PostFields)] == r.Get("post_data")
    ensures |headers| > 0 ==> Opt(Header) in opts && Opt(HttpHeader) in opts && opts[Opt(Header)] == Int(0) && opts[Opt(HttpHeader)] == Arr(headers)
  {
    Assemble(Union(defaults, RequestOptions(r)), r.Get("url"), r.Get("post_data"), headers)
  }

  /** The assignments get_options makes after the merge: url, then post fields, then headers. */
  function Assemble(merged: PhpArray, url: Value, postData: Value, headers: PhpArray): (opts: PhpArray)
    ensures forall k :: k in opts <==> k in merged || k == Opt(Url) || PostKey(k, postData) || HeaderKey(k, headers)
    ensures forall k :: k in merged && k != Opt(Url) && !PostKey(k, postData) && !HeaderKey(k, headers) ==>
              k in opts && opts[k] == merged[k]
    ensures Opt(Url) in opts && opts[Opt(Url)] == url
    ensures Truthy(postData) ==> Opt(Post) in opts && Opt(PostFields) in opts && opts[Opt(Post)] == Int(1) && opts[Opt(PostFields)] == postData
    ensures |headers| > 0 ==> Opt(Header) in opts && Opt(HttpHeader) in opts && opts[Opt(Header)] == Int(0) && opts[Opt(HttpHeader)] == Arr(headers)
  {
    WithHeaders(WithPost(merged[Opt(Url) := url], postData), headers)
  }

  /** A key the post-data step assigns. */
  predicate PostKey(k: Key, postData: Value) {
    Truthy(postData) && (k == Opt(Post) || k == Opt(PostFields))
  }

  /** A key the headers step assigns. */
  predicate HeaderKey(k: Key, headers: PhpArray) {
    |headers| > 0 && (k == Opt(Header) || k == Opt(HttpHeader))
  }

  /** `if ($request->post_data)`: sets the POST flag and the post fields. */
  function WithPost(m: PhpArray, postData: Value): (opts: PhpArray)
    ensures forall k :: k in opts <==> k in m || PostKey(k, postData)
    ensures forall k :: k in m && !PostKey(k, postData) ==> k in opts && opts[k] == m[k]
    ensures Truthy(postData) ==> Opt(Post) in opts && Opt(PostFields) in opts && opts[Opt(Post)] == Int(1) && opts[Opt(PostFields)] == postData
  {
    if Truthy(postData) then m[Opt(Post) := Int(1)][Opt(PostFields) := postData] else m
  }

  /** `if ($headers)`: sets the header flag and the scheduler's header list. */
  function WithHeaders(m: PhpArray, headers: PhpArray): (opts: PhpArray)
    ensures forall k :: k in opts <==> k in m || HeaderKey(k, headers)
    ensures forall k :: k in m && !HeaderKey(k, headers) ==> k in opts && opts[k] == m[k]
    ensures |headers| > 0 ==> Opt(Header) in opts && Opt(HttpHeader) in opts && opts[Opt(Header)] == Int(0) && opts[Opt(HttpHeader)] == Arr(headers)
  {
    if |headers| > 0 then m[Opt(Header) := Int(0)][Opt(HttpHeader) := Arr(headers)] else m
  }

  /** The per-request `headers` setting has no influence on the effective options. */
  lemma RequestHeadersIgnored(defaults: PhpArray, headers: PhpArray, r: Request, v: Value)
    requires OptionsUsable(r)
    ensures OptionsUsable(r.Set("headers", v))
    ensures GetOptions(defaults, headers, r.Set("headers", v)) == GetOptions(defaults, headers, r)
  {
    var r' := r.Set("headers", v);
    assert r'.Get("options") == r.Get("options");
    assert RequestOptions(r') == RequestOptions(r);
    assert r'.Get("url") == r.Get("url");
    assert r'.Get("post_data") == r.Get("post_data");
  }

  // ---------------------------------------------------------------------------
  // Window size
  // ---------------------------------------------------------------------------

  /** The window asked for: a truthy argument replaces the configured value. */
  function RequestedWindow(arg: Option<int>, configured: int): (r: int)
    ensures arg.Some? && arg.value != 0 ==> r == arg.value
    ensures arg.None? || arg.value == 0 ==> r == configured
  {
    if arg.Some? && arg.value != 0 then arg.value else configured
  }

  /** The window after clamping to the number of queued requests: min(requested, n). */
  function EffectiveWindow(arg: Option<int>, configured: int, n: nat): (w: int)
    ensures w <= n && w <= RequestedWindow(arg, configured)
    ensures w == n || w == RequestedWindow(arg, configured)
  {
    var requested := RequestedWindow(arg, configured);
    if n < requested then n else requested
  }

  /** Fewer than two queued requests always fail the window pre-check. */
  lemma SmallQueueFailsPrecheck(arg: Option<int>, configured: int, n: nat)
    requires n < 2
    ensures EffectiveWindow(arg, configured, n) < 2
  {
  }

  // ---------------------------------------------------------------------------
  // The dispatch loop as a state machine
  // ---------------------------------------------------------------------------

  /** The indices 0 .. n-1, in order. */
  function Range(n: nat): (r: seq<nat>)
    ensures |r| == n
  {
    if n == 0 then [] else Range(n - 1) + [n - 1]
  }

  function Elems(s: seq<nat>): set<nat> {
    set x | x in s
  }

  lemma RangeGrows(n: nat)
    ensures Range(n + 1) == Range(n) + [n]
  {
  }

  /** The indices 0 .. n-1, as a set. */
  function Below(n: nat): (b: set<nat>)
    ensures forall k: nat :: k in b <==> k < n
    ensures |b| == n
  {
    if n == 0 then {} else Below(n - 1) + {n - 1}
  }

  predicate Distinct(s: seq<nat>) {
    forall a, b :: 0 <= a < b < |s| ==> s[a] != s[b]
  }

  /** `s` lists every index below n exactly once. */
  predicate IsPermutationOfRange(s: seq<nat>, n: nat) {
    |s| == n && Distinct(s) && Elems(s) == Below(n)
  }

  /** A permutation of the indices below n only holds indices below n. */
  lemma PermutationBounded(s: seq<nat>, n: nat)
    requires IsPermutationOfRange(s, n)
    ensures forall j :: 0 <= j < |s| ==> s[j] < n
  {
    forall j | 0 <= j < |s|
      ensures s[j] < n
    {
      assert s[j] in Elems(s);
    }
  }

  /**
   * The loop state: the counter `$i` (the next queue index to start), the
   * indices whose handles are in flight, every index started so far in start
   * order, and the indices completed so far in completion order.
   */
  datatype Dispatch = Dispatch(next: nat, inFlight: set<nat>, dispatched: seq<nat>, completed: seq<nat>)

  /** Starts `requests[$i++]`: its handle joins the in-flight set. */
  function Submit(d: Dispatch): (r: Dispatch)
    ensures r.next == d.next + 1 && d.next in r.inFlight && r.completed == d.completed
    ensures StartedInOrder(d) ==> StartedInOrder(r)
  {
    RangeGrows(d.next);
    Dispatch(d.next + 1, d.inFlight + {d.next}, d.dispatched + [d.next], d.completed)
  }

  /**
   * The state after the first batch loop has started `w` requests: `$i == w` and
   * nothing has completed yet (StartedShape gives the whole state).
   */
  function Started(w: nat): (r: Dispatch)
    ensures r.next == w && r.completed == []
  {
    if w == 0 then Dispatch(0, {}, [], []) else Submit(Started(w - 1))
  }

  /**
   * One completion report for in-flight index k: the callback runs (recorded by the
   * caller), at most one refill happens while `$i < n`, then k's handle is removed.
   */
  function Complete(d: Dispatch, k: nat, n: nat): (r: Dispatch)
    requires k in d.inFlight
    // k is recorded as completed and its handle is gone; no other handle is removed
    ensures r.completed == d.completed + [k] && k !in r.inFlight && d.inFlight - {k} <= r.inFlight
    // at most one refill, of index `$i`, and only while `$i < n`
    ensures d.next < n ==> r.next == d.next + 1 && r.dispatched == d.dispatched + [d.next] && r.inFlight <= d.inFlight + {d.next}
    ensures d.next >= n ==> r.next == d.next && r.dispatched == d.dispatched && r.inFlight <= d.inFlight
  {
    var refilled := if d.next < n then Submit(d) else d;
    Dispatch(refilled.next, refilled.inFlight - {k}, refilled.dispatched, refilled.completed + [k])
  }

  /**
   * What holds at every step of the loop, for window w and n queued requests:
   * exactly the indices 0 .. next-1 were started, once each and in index order;
   * each of them is either in flight or completed, never both, never twice;
   * in flight + remaining + completed account for every request;
   * and the in-flight count never exceeds w and equals w while requests remain.
   */
  ghost predicate WindowInvariant(d: Dispatch, w: nat, n: nat) {
    StartedInOrder(d) && Partitioned(d, n) && Windowed(d, w, n)
  }

  /** One report of the transport: the in-flight index `k` completed, taking `d` to `d'`. */
  predicate Step(d: Dispatch, k: nat, d': Dispatch, n: nat) {
    k in d.inFlight && d' == Complete(d, k, n)
  }

  /**
   * A run of the loop: `states[0]` is the state after the first batch and each later
   * state follows from the one before by the completion `calls[j]`.
   */
  ghost predicate Trace(states: seq<Dispatch>, calls: seq<nat>, w: nat, n: nat) {
    && |states| == |calls| + 1
    && states[0] == Started(w)
    && forall j :: 0 <= j < |calls| ==> Step(states[j], calls[j], states[j + 1], n)
  }

  /** The state a trace ends in. */
  function Last(states: seq<Dispatch>): Dispatch
    requires |states| > 0
  {
    states[|states| - 1]
  }

  /** One more completion extends a trace. */
  lemma TraceStep(states: seq<Dispatch>, calls: seq<nat>, w: nat, n: nat, k: nat)
    requires Trace(states, calls, w, n) && k in Last(states).inFlight
    ensures Trace(states + [Complete(Last(states), k, n)], calls + [k], w, n)
  {
    var states' := states + [Complete(Last(states), k, n)];
    var calls' := calls + [k];
    forall j | 0 <= j < |calls'|
      ensures Step(states'[j], calls'[j], states'[j + 1], n)
    {
      assert states'[j] == states[j];
      if j < |calls| {
        assert states'[j + 1] == states[j + 1];
      }
    }
  }

  /** Exactly the indices 0 .. next-1 were started, once each and in index order. */
  ghost predicate StartedInOrder(d: Dispatch) {
    d.dispatched == Range(d.next)
  }

  /** Each started index is in flight or completed, never both and never completed twice. */
  ghost predicate Partitioned(d: Dispatch, n: nat) {
    && d.next <= n
    && d.inFlight !! Elems(d.completed)
    && d.inFlight + Elems(d.completed) == Below(d.next)
    && Distinct(d.completed)
  }

  /** The counts: in flight + remaining + completed is n, and the window bounds the in-flight count. */
  ghost predicate Windowed(d: Dispatch, w: nat, n: nat) {
    && d.next <= n
    && |d.inFlight| + (n - d.next) + |d.completed| == n
    && |d.inFlight| <= w
    && (d.next < n ==> |d.inFlight| == w)
  }

  /** After the first batch loop, exactly the indices 0 .. w-1 are in flight and `$i == w`. */
  lemma {:induction false} StartedShape(w: nat)
    ensures Started(w) == Dispatch(w, Below(w), Range(w), [])
  {
    if w > 0 {
      StartedShape(w - 1);
    } else {
      assert Below(0) == {};
    }
  }

  /** The window invariant holds once the first batch of `w <= n` requests is started. */
  lemma StartedInvariant(w: nat, n: nat)
    requires w <= n
    ensures WindowInvariant(Started(w), w, n)
  {
    StartedShape(w);
    assert Elems([]) == {};
  }

  lemma DistinctAppend(s: seq<nat>, k: nat)
    requires Distinct(s) && k !in Elems(s)
    ensures Distinct(s + [k]) && Elems(s + [k]) == Elems(s) + {k}
  {
    assert forall a :: 0 <= a < |s| ==> s[a] in Elems(s);
  }

  /** Every completion preserves the window invariant and records k as completed. */
  lemma CompletePreservesInvariant(d: Dispatch, k: nat, w: nat, n: nat)
    requires WindowInvariant(d, w, n) && k in d.inFlight
    ensures WindowInvariant(Complete(d, k, n), w, n)
  {
    DistinctAppend(d.completed, k);
    if d.next < n {
      RefillStep(d, k, w, n);
    } else {
      DrainStep(d, k, w, n);
    }
  }

  /** A completion while requests remain: the freed slot is refilled with `requests[$i]`. */
  lemma RefillStep(d: Dispatch, k: nat, w: nat, n: nat)
    requires WindowInvariant(d, w, n) && k in d.inFlight && d.next < n
    requires Distinct(d.completed + [k]) && Elems(d.completed + [k]) == Elems(d.completed) + {k}
    ensures WindowInvariant(Complete(d, k, n), w, n)
  {
    var i := d.next;
    assert i !in d.inFlight && i !in Elems(d.completed) by {
      assert i !in Below(i);
    }
    RefillStartsNext(d, k, n);
    RefillPartitions(d, k, n);
    RefillKeepsWindow(d, k, w, n);
  }

  lemma RefillStartsNext(d: Dispatch, k: nat, n: nat)
    requires StartedInOrder(d) && k in d.inFlight && d.next < n
    ensures StartedInOrder(Complete(d, k, n))
  {
    RangeGrows(d.next);
  }

  lemma RefillPartitions(d: Dispatch, k: nat, n: nat)
    requires Partitioned(d, n) && k in d.inFlight && d.next < n
    requires d.next !in d.inFlight && d.next !in Elems(d.completed)
    requires Distinct(d.completed + [k]) && Elems(d.completed + [k]) == Elems(d.completed) + {k}
    ensures Partitioned(Complete(d, k, n), n)
  {
    var d' := Complete(d, k, n);
    assert d'.inFlight == (d.inFlight + {d.next}) - {k};
    assert Elems(d'.completed) == Elems(d.completed) + {k};
    assert Below(d.next + 1) == Below(d.next) + {d.next};
    assert d'.inFlight + Elems(d'.completed) == d.inFlight + Elems(d.completed) + {d.next};
  }

  lemma RefillKeepsWindow(d: Dispatch, k: nat, w: nat, n: nat)
    requires Windowed(d, w, n) && k in d.inFlight && d.next < n && d.next !in d.inFlight
    ensures Windowed(Complete(d, k, n), w, n)
  {
    assert |d.inFlight + {d.next}| == |d.inFlight| + 1;
  }

  /** A completion with nothing left to start: the in-flight set shrinks by one. */
  lemma DrainStep(d: Dispatch, k: nat, w: nat, n: nat)
    requires WindowInvariant(d, w, n) && k in d.inFlight && d.next == n
    requires Distinct(d.completed + [k]) && Elems(d.completed + [k]) == Elems(d.completed) + {k}
    ensures WindowInvariant(Complete(d, k, n), w, n)
  {
    var d' := Complete(d, k, n);
    assert d'.inFlight == d.inFlight - {k};
    assert |d'.inFlight| == |d.inFlight| - 1;
    assert d'.completed == d.completed + [k];
  }

  /**
   * When nothing is in flight any more, every request was started once in index
   * order and every request completed exactly once.
   */
  lemma DrainedMeansAllDone(d: Dispatch, w: nat, n: nat)
    requires WindowInvariant(d, w, n) && d.inFlight == {} && w >= 1
    ensures d.next == n && d.dispatched == Range(n)
    ensures IsPermutationOfRange(d.completed, n)
  {
  }

  /** Every state a run of the loop reaches keeps the window invariant. */
  lemma {:induction false} TraceKeepsWindow(states: seq<Dispatch>, calls: seq<nat>, w: nat, n: nat, j: nat)
    requires Trace(states, calls, w, n) && w <= n && j < |states|
    ensures WindowInvariant(states[j], w, n)
  {
    if j == 0 {
      StartedInvariant(w, n);
    } else {
      TraceKeepsWindow(states, calls, w, n, j - 1);
      assert Step(states[j - 1], calls[j - 1], states[j], n);
      CompletePreservesInvariant(states[j - 1], calls[j - 1], w, n);
    }
  }

  // ---------------------------------------------------------------------------
  // The `$running` exit as written
  // ---------------------------------------------------------------------------

  /** `batch` lists handles in flight in `d`, each once: what one pass can report done. */
  predicate Reportable(d: Dispatch, batch: seq<nat>) {
    Distinct(batch) && forall j :: 0 <= j < |batch| ==> batch[j] in d.inFlight
  }

  /**
   * The reports of one pass of the do-while loop, handled in order: each one runs
   * the callback, refills at most one slot, and retires its handle.
   */
  function CompleteAll(d: Dispatch, batch: seq<nat>, n: nat): (r: Dispatch)
    requires Reportable(d, batch)
    ensures r.completed == d.completed + batch
    decreases |batch|
  {
    if batch == [] then d
    else
      BatchTail(d, batch, n);
      CompleteAll(Complete(d, batch[0], n), batch[1..], n)
  }

  /** A handle that a pass does not report stays in flight through the pass. */
  lemma {:induction false} UnreportedStayInFlight(d: Dispatch, batch: seq<nat>, n: nat)
    requires Reportable(d, batch)
    ensures d.inFlight - Elems(batch) <= CompleteAll(d, batch, n).inFlight
    decreases |batch|
  {
    if batch != [] {
      BatchTail(d, batch, n);
      assert Elems(batch) == {batch[0]} + Elems(batch[1..]);
      UnreportedStayInFlight(Complete(d, batch[0], n), batch[1..], n);
    }
  }

  /** After the first report of a pass, the rest of the batch is still in flight. */
  lemma BatchTail(d: Dispatch, batch: seq<nat>, n: nat)
    requires batch != [] && Reportable(d, batch)
    ensures Reportable(Complete(d, batch[0], n), batch[1..])
    ensures batch == [batch[0]] + batch[1..]
  {
    var rest := batch[1..];
    forall a, b | 0 <= a < b < |rest|
      ensures rest[a] != rest[b]
    {
      assert rest[a] == batch[a + 1] && rest[b] == batch[b + 1];
    }
    forall j | 0 <= j < |rest|
      ensures rest[j] in Complete(d, batch[0], n).inFlight
    {
      assert rest[j] == batch[j + 1] && rest[j] != batch[0];
    }
    assert batch == [batch[0]] + rest;
  }

  /** Handling the reports of a pass one by one keeps the window invariant. */
  lemma {:induction false} PassKeepsWindow(d: Dispatch, batch: seq<nat>, w: nat, n: nat)
    requires WindowInvariant(d, w, n)
    requires Reportable(d, batch)
    ensures WindowInvariant(CompleteAll(d, batch, n), w, n)
    decreases |batch|
  {
    if batch != [] {
      CompletePreservesInvariant(d, batch[0], w, n);
      BatchTail(d, batch, n);
      PassKeepsWindow(Complete(d, batch[0], n), batch[1..], w, n);
    }
  }

  /** After the first batch of a window of at least one, a handle is in flight. */
  lemma StartedRunning(w: nat, n: nat)
    requires 1 <= w <= n
    ensures WindowInvariant(Started(w), w, n) && Started(w).completed == [] && Started(w).inFlight != {}
  {
    StartedInvariant(w, n);
    StartedShape(w);
    assert 0 in Started(w).inFlight;
  }

  /**
   * One pass keeps the window invariant, records its reports, and leaves a handle in
   * flight when `$running` was positive.
   */
  lemma PassStep(d: Dispatch, batch: seq<nat>, w: nat, n: nat)
    requires WindowInvariant(d, w, n) && Reportable(d, batch)
    ensures WindowInvariant(CompleteAll(d, batch, n), w, n)
    ensures CompleteAll(d, batch, n).completed == d.completed + batch
    ensures |d.inFlight - Elems(batch)| > 0 ==> CompleteAll(d, batch, n).inFlight != {}
  {
    PassKeepsWindow(d, batch, w, n);
    UnreportedStayInFlight(d, batch, n);
    if |d.inFlight - Elems(batch)| > 0 {
      var x :| x in d.inFlight - Elems(batch);
      assert x in CompleteAll(d, batch, n).inFlight;
    }
  }

  /** The first batch of a window of 2: `$i == 2`, and exactly 0 and 1 are in flight. */
  lemma StartedTwo()
    ensures Started(2).next == 2 && 0 in Started(2).inFlight && 1 in Started(2).inFlight
    ensures Started(2).inFlight - Elems([0, 1]) == {}
  {
    StartedShape(2);
    forall x | x in Started(2).inFlight
      ensures x in Elems([0, 1])
    {
      assert x == [0, 1][x];
    }
  }

  /**
   * Three requests, window 2, and requests 0 and 1 finish in the same pass: `$running`
   * is 0, so the loop ends after this pass, yet the refill of that pass has started
   * request 2, which is never called back.
   */
  lemma RunningExitLosesCallback()
    ensures |Started(2).inFlight - Elems([0, 1])| == 0
    ensures var d := CompleteAll(Started(2), [0, 1], 3);
            2 in d.inFlight && d.completed == [0, 1] && !IsPermutationOfRange(d.completed, 3)
  {
    StartedTwo();
    var d0 := Started(2);
    var d1 := Complete(d0, 0, 3);
    assert 2 in d1.inFlight && 1 in d1.inFlight;
    var d2 := Complete(d1, 1, 3);
    assert 2 in d2.inFlight;
    assert [0, 1][1..] == [1] && [1][1..] == [];
    assert CompleteAll(d0, [0, 1], 3) == CompleteAll(d1, [1], 3);
    assert CompleteAll(d1, [1], 3) == CompleteAll(d2, [], 3);
  }

  /**
   * When a pass reports a single completion, `$running == 0` means that the handle was
   * the last one in flight and no refill follows: reported one at a time, the loop as
   * written and the loop that runs until nothing is in flight agree.
   */
  lemma SingleReportsAreSafe(d: Dispatch, k: nat, w: nat, n: nat)
    requires WindowInvariant(d, w, n) && w >= 2 && k in d.inFlight
    requires |d.inFlight - {k}| == 0
    ensures Complete(d, k, n).inFlight == {}
  {
    assert d.inFlight - {k} == {};
    assert d.inFlight == {k};
  }

  // ---------------------------------------------------------------------------
  // The scheduler
  // ---------------------------------------------------------------------------

  /** A callable the caller supplied; what it does is outside the scheduler. */
  datatype Callback = Callback(name: string)

  /**
   * An element of the request queue: a plain `Request`, or an object of a request
   * subclass whose settings the scheduler reads through `settingsOf`.
   */
  datatype Queued<X> = Plain(request: Request) | Extended(item: X)

  /** What execute() hands back to its caller. */
  datatype ExecResult =
    | Output(body: Value)        // single request, no callback: curl's output
    | CalledBack                 // single request, handed to the callback; nothing returned
    | Message(text: string)      // the window pre-check failed
    | Finished                   // the rolling loop ran to the end: `true`
    | CallbackNotCallable        // PHP calls a null callback on the first completion: a fatal error

  const DefaultWindowSize: int := 5
  const WindowTooSmallMessage: string := "Window size must be greater than 1"

  const DefaultOptions: PhpArray :=
    map[Opt(SslVerifyPeer) := Int(0), Opt(ReturnTransfer) := Int(1), Opt(FollowLocation) := Int(1),
        Opt(MaxRedirs) := Int(5), Opt(ConnectTimeout) := Int(30), Opt(Timeout) := Int(30)]

  class RollingCurl<X> {
    var windowSize: int
    var callback: Option<Callback>
    var options: PhpArray
    var headers: PhpArray
    var requests: seq<Queued<X>>
    const settingsOf: X -> Request

    constructor (callback: Option<Callback>, settingsOf: X -> Request)
      ensures this.callback == callback && this.settingsOf == settingsOf
      ensures windowSize == DefaultWindowSize && options == DefaultOptions
      ensures headers == map[] && requests == []
    {
      this.callback := callback;
      this.settingsOf := settingsOf;
      windowSize := DefaultWindowSize;
      options := DefaultOptions;
      headers := map[];
      requests := [];
    }

    /** The settings the scheduler reads from a queue element (`$request->url`, ...). */
    function SettingsOf(q: Queued<X>): Request {
      match q
      case Plain(r) => r
      case Extended(x) => settingsOf(x)
    }

    /** Every queued request can go through get_options. */
    ghost predicate QueueUsable()
      reads this
    {
      forall j :: 0 <= j < |requests| ==> OptionsUsable(SettingsOf(requests[j]))
    }

    /** `__set("options", v)`: the new array is united under the old one; old keys keep their values. */
    method SetOptions(value: PhpArray) returns (ok: bool)
      modifies this`options
      ensures options == Union(old(options), value) && ok
    {
      options := Union(options, value);
      ok := true;
    }

    /** `__set("headers", v)`: as for options, a left-biased union. */
    method SetHeaders(value: PhpArray) returns (ok: bool)
      modifies this`headers
      ensures headers == Union(old(headers), value) && ok
    {
      headers := Union(headers, value);
      ok := true;
    }

    /** `__set("window_size", v)`: any other name is overwritten outright. */
    method SetWindowSize(value: int) returns (ok: bool)
      modifies this`windowSize
      ensures windowSize == value && ok
    {
      windowSize := value;
      ok := true;
    }

    /** `__set("callback", v)`. */
    method SetCallback(value: Option<Callback>) returns (ok: bool)
      modifies this`callback
      ensures callback == value && ok
    {
      callback := value;
      ok := true;
    }

    /** add: appends one element to the end of the queue. */
    method Add(request: Queued<X>) returns (ok: bool)
      modifies this`requests
      ensures requests == old(requests) + [request] && ok
    {
      requests := requests + [request];
      ok := true;
    }

    /** request: builds a `Request` from the arguments and appends it. */
    method AddRequest(url: Value, httpMethod: Value, postData: Value, headers: Value, options: Value) returns (ok: bool)
      modifies this`requests
      ensures requests == old(requests) + [Plain(NewRequest(url, httpMethod, postData, headers, options))] && ok
    {
      requests := requests + [Plain(NewRequest(url, httpMethod, postData, headers, options))];
      ok := true;
    }

    /** get: a "GET" request without post data. */
    method Get(url: Value, headers: Value, options: Value) returns (ok: bool)
      modifies this`requests
      ensures requests == old(requests) + [Plain(NewRequest(url, Str("GET"), Null, headers, options))] && ok
    {
      ok := AddRequest(url, Str("GET"), Null, headers, options);
    }

    /** post: a "POST" request carrying the post data. */
    method Post(url: Value, postData: Value, headers: Value, options: Value) returns (ok: bool)
      modifies this`requests
      ensures requests == old(requests) + [Plain(NewRequest(url, Str("POST"), postData, headers, options))] && ok
    {
      ok := AddRequest(url, Str("POST"), postData, headers, options);
    }

    /** The options get_options builds for queue index j. */
    function OptionsAt(j: nat): PhpArray
      reads this
      requires QueueUsable() && j < |requests|
    {
      GetOptions(options, headers, SettingsOf(requests[j]))
    }

    /**
     * single_curl: the one request is performed with its merged options; the output
     * goes to the callback when one is set, and is returned otherwise.
     * `fetch` stands for the transport; `calls` lists the queue indices handed to the callback.
     */
    method SingleCurl(fetch: PhpArray -> Value) returns (result: ExecResult, submitted: seq<PhpArray>, calls: seq<nat>)
      requires |requests| > 0 && OptionsUsable(SettingsOf(requests[0]))
      ensures submitted == [GetOptions(options, headers, SettingsOf(requests[0]))]
      ensures callback.Some? ==> result == CalledBack && calls == [0]
      ensures callback.None? ==> result == Output(fetch(submitted[0])) && calls == []
    {
      var opts := GetOptions(options, headers, SettingsOf(requests[0]));
      submitted := [opts];
      var output := fetch(opts);
      if callback.Some? {
        calls := [0];
        result := CalledBack;
      } else {
        calls := [];
        result := Output(output);
      }
    }

    /** The options of the first `m` queued requests, in queue order. */
    function OptionsPrefix(m: nat): (r: seq<PhpArray>)
      reads this
      requires QueueUsable() && m <= |requests|
      ensures |r| == m
    {
      if m == 0 then [] else OptionsPrefix(m - 1) + [OptionsAt(m - 1)]
    }

    /** Submitting the next request keeps the submissions in queue order. */
    lemma SubmitInOrder(submitted: seq<PhpArray>)
      requires SubmittedInOrder(submitted) && |submitted| < |requests|
      ensures SubmittedInOrder(submitted + [OptionsAt(|submitted|)])
    {
      assert OptionsPrefix(|submitted| + 1) == OptionsPrefix(|submitted|) + [OptionsAt(|submitted|)];
    }

    /** `submitted` lists the options of queue indices 0, 1, ..., in that order. */
    ghost predicate SubmittedInOrder(submitted: seq<PhpArray>)
      reads this
    {
      && QueueUsable()
      && |submitted| <= |requests|
      && submitted == OptionsPrefix(|submitted|)
    }

    /**
     * rolling_curl: clamps the window and stores it back, fails the pre-check below 2,
     * starts requests 0 .. w-1, and on every completion calls back and starts at most
     * one more request. The completing index is chosen freely among those in flight.
     * `submitted` lists the options handed to the transport, in start order; `states`
     * is every loop state, each obtained from the previous by one completion.
     */
    method RollingDispatch(windowArg: Option<int>)
      returns (result: ExecResult, submitted: seq<PhpArray>, calls: seq<nat>, ghost states: seq<Dispatch>)
      requires QueueUsable()
      modifies this`windowSize
      ensures windowSize == EffectiveWindow(windowArg, old(windowSize), |requests|)
      ensures windowSize < 2 ==> result == Message(WindowTooSmallMessage) && submitted == [] && calls == []
      ensures windowSize >= 2 ==> SubmittedInOrder(submitted)
      ensures windowSize >= 2 && callback.None? ==>
                result == CallbackNotCallable && |submitted| == windowSize && calls == []
      ensures windowSize >= 2 && callback.Some? ==>
                && result == Finished
                && |submitted| == |requests|
                && IsPermutationOfRange(calls, |requests|)
                && Trace(states, calls, windowSize, |requests|)
                && Last(states).inFlight == {}
    {
      if windowArg.Some? && windowArg.value != 0 {
        windowSize := windowArg.value;
      }
      if |requests| < windowSize {
        windowSize := |requests|;
      }
      if windowSize < 2 {
        return Message(WindowTooSmallMessage), [], [], [];
      }
      var d;
      d, submitted := StartBatch(windowSize);
      result, submitted, calls, states := RunCompletions(windowSize, d, submitted);
    }

    /** The first batch loop: starts `requests[0 .. w-1]`. */
    method StartBatch(w: nat) returns (d: Dispatch, submitted: seq<PhpArray>)
      requires QueueUsable() && w <= |requests|
      ensures d == Started(w) && |submitted| == w && SubmittedInOrder(submitted)
    {
      d := Started(0);
      submitted := [];
      for i := 0 to w
        invariant d == Started(i)
        invariant |submitted| == i && SubmittedInOrder(submitted)
      {
        SubmitInOrder(submitted);
        submitted := submitted + [OptionsAt(i)];
        d := Submit(d);
      }
    }

    /**
     * The completion loop's invariant: `d` is where the run `states` of completions
     * `calls` has got to, within the window, and `submitted` holds the options of
     * every request started so far.
     */
    ghost predicate Running(d: Dispatch, submitted: seq<PhpArray>, calls: seq<nat>, states: seq<Dispatch>, w: nat)
      reads this
    {
      && WindowInvariant(d, w, |requests|)
      && calls == d.completed
      && |submitted| == d.next && SubmittedInOrder(submitted)
      && Trace(states, calls, w, |requests|) && Last(states) == d
    }

    /** One completion report, with the refill it triggers, keeps the loop invariant. */
    lemma RunningStep(d: Dispatch, submitted: seq<PhpArray>, calls: seq<nat>, states: seq<Dispatch>, w: nat, k: nat)
      requires Running(d, submitted, calls, states, w) && k in d.inFlight
      ensures d.next < |requests| ==> SubmittedInOrder(submitted + [OptionsAt(d.next)])
      ensures var submitted' := if d.next < |requests| then submitted + [OptionsAt(d.next)] else submitted;
              Running(Complete(d, k, |requests|), submitted', calls + [k], states + [Complete(d, k, |requests|)], w)
    {
      if d.next < |requests| {
        SubmitInOrder(submitted);
      }
      CompletePreservesInvariant(d, k, w, |requests|);
      TraceStep(states, calls, w, |requests|, k);
    }

    /**
     * The completion loop, from the state after the first batch until nothing is in
     * flight: each report runs the callback, refills at most one slot, and retires the
     * completed handle.
     */
    method RunCompletions(w: nat, d0: Dispatch, submitted0: seq<PhpArray>)
      returns (result: ExecResult, submitted: seq<PhpArray>, calls: seq<nat>, ghost states: seq<Dispatch>)
      requires 2 <= w <= |requests| && d0 == Started(w)
      requires |submitted0| == w && SubmittedInOrder(submitted0)
      ensures SubmittedInOrder(submitted)
      ensures callback.None? ==> result == CallbackNotCallable && submitted == submitted0 && calls == []
      ensures callback.Some? ==>
                && result == Finished
                && |submitted| == |requests|
                && IsPermutationOfRange(calls, |requests|)
                && Trace(states, calls, w, |requests|)
                && Last(states).inFlight == {}
    {
      var d := d0;
      StartedInvariant(w, |requests|);
      StartedShape(w);
      submitted := submitted0;
      calls := [];
      states := [d];
      while d.inFlight != {}
        invariant Running(d, submitted, calls, states, w)
        invariant calls == [] ==> submitted == submitted0
        invariant callback.None? ==> calls == []
        decreases |requests| - |calls|
      {
        // a request was just completed: the transport says which one
        var k :| k in d.inFlight;
        if callback.None? {
          return CallbackNotCallable, submitted, calls, states;
        }
        RunningStep(d, submitted, calls, states, w, k);
        // start a new request before removing the old one
        if d.next < |requests| {
          submitted := submitted + [OptionsAt(d.next)];
        }
        calls := calls + [k];
        d := Complete(d, k, |requests|);
        states := states + [d];
      }
      DrainedMeansAllDone(d, w, |requests|);
      result := Finished;
    }

    /**
     * The completion loop as the do-while at `rolling_curl` has it: each pass reports
     * a non-empty batch of finished handles and sets `$running` to the number of
     * handles still transferring at that moment; the batch is handled in order, and
     * the loop stops after a pass whose `$running` was 0, even when that pass has
     * refilled the window (see RunningExitLosesCallback).
     */
    method RunPassesAsWritten(w: nat) returns (result: ExecResult, calls: seq<nat>, d: Dispatch)
      requires 2 <= w <= |requests|
      ensures WindowInvariant(d, w, |requests|) && calls == d.completed
      ensures callback.None? ==> result == CallbackNotCallable && calls == []
      ensures callback.Some? ==> result == Finished
    {
      d := Started(w);
      StartedRunning(w, |requests|);
      calls := [];
      var running: nat := 1;
      result := Finished;
      while running > 0
        invariant WindowInvariant(d, w, |requests|) && calls == d.completed
        invariant running > 0 ==> d.inFlight != {}
        invariant result == Finished && (callback.None? ==> calls == [] && running > 0)
        decreases |requests| - |calls|
      {
        if callback.None? {
          return CallbackNotCallable, calls, d;
        }
        var batch;
        d, batch, running := PassAsWritten(w, d);
        calls := calls + batch;
      }
    }

    /**
     * One pass of the do-while: the transport reports a non-empty batch of handles in
     * flight as done, `$running` counts the handles not in that batch, and the batch
     * is handled in order.
     */
    method PassAsWritten(w: nat, d: Dispatch) returns (d': Dispatch, batch: seq<nat>, running: nat)
      requires WindowInvariant(d, w, |requests|) && d.inFlight != {}
      ensures batch != [] && Reportable(d, batch) && d' == CompleteAll(d, batch, |requests|)
      ensures running == |d.inFlight - Elems(batch)|
      ensures WindowInvariant(d', w, |requests|) && d'.completed == d.completed + batch
      ensures running > 0 ==> d'.inFlight != {}
    {
      ghost var k :| k in d.inFlight;
      assert Reportable(d, [k]);
      batch :| batch != [] && Reportable(d, batch);
      running := |d.inFlight - Elems(batch)|;
      PassStep(d, batch, w, |requests|);
      d' := CompleteAll(d, batch, |requests|);
    }

    /** execute: exactly one queued request takes the single path, any other count the rolling path. */
    method Execute(windowArg: Option<int>, fetch: PhpArray -> Value)
      returns (result: ExecResult, submitted: seq<PhpArray>, calls: seq<nat>)
      requires QueueUsable()
      modifies this`windowSize
      ensures forall j :: 0 <= j < |calls| ==> calls[j] < |requests|
      ensures |requests| == 1 ==> windowSize == old(windowSize)
      ensures |requests| == 1 ==> submitted == [OptionsAt(0)]
      ensures |requests| == 1 && callback.Some? ==> result == CalledBack && calls == [0]
      ensures |requests| == 1 && callback.None? ==> result == Output(fetch(OptionsAt(0))) && calls == []
      ensures |requests| != 1 ==> windowSize == EffectiveWindow(windowArg, old(windowSize), |requests|)
      ensures |requests| != 1 && windowSize < 2 ==>
                result == Message(WindowTooSmallMessage) && submitted == [] && calls == []
      ensures |requests| != 1 && windowSize >= 2 && callback.None? ==>
                result == CallbackNotCallable && |submitted| == windowSize && SubmittedInOrder(submitted) && calls == []
      ensures |requests| != 1 && windowSize >= 2 && callback.Some? ==>
                && result == Finished
                && |submitted| == |requests| && SubmittedInOrder(submitted)
                && IsPermutationOfRange(calls, |requests|)
    {
      if |requests| == 1 {
        result, submitted, calls := SingleCurl(fetch);
      } else {
        ghost var states;
        result, submitted, calls, states := RollingDispatch(windowArg);
        if calls != [] {
          PermutationBounded(calls, |requests|);
        }
      }
    }
  }
}
