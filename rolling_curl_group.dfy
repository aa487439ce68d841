/**
 * The grouping layer on top of the scheduler: requests that belong to a group,
 * groups that collect such requests, hand them to a scheduler and count their
 * completions, and the scheduler variant whose completion callback feeds the groups.
 */
module Grouping {
  import opened PhpValues
  import opened Rolling

  /**
   * What a PHP method of this layer does: it returns a value, returns without one
   * (`Returned`), or throws with a message.
   */
  datatype Outcome = Normal(value: bool) | Returned | Thrown(message: string)

  const SetGroupMessage: string := "setGroup: group needs to be of instance RollingCurlGroup"
  const AddMessage: string := "add: Request needs to be of instance RollingCurlGroupRequest"
  const AddToRCMessage: string := "addToRC: RC needs to be of instance RollingCurl"

  /** The callable `array(&$this, "process")` a group-aware scheduler installs as its callback. */
  const ProcessCallback: Callback := Callback("process")

  // ---------------------------------------------------------------------------
  // Group-aware requests
  // ---------------------------------------------------------------------------

  /** A request that knows the group it was added to (null until a group adopts it). */
  class GroupRequest {
    const request: Request
    var group: RollingCurlGroup?

    constructor (request: Request)
      ensures this.request == request && group == null
    {
      this.request := request;
      group := null;
    }

    /** The group this request reports to, as a (possibly empty) frame. */
    function GroupFrame(): set<RollingCurlGroup>
      reads this
    {
      if group == null then {} else {group}
    }

    /**
     * setGroup: a value that is not a group (null) is rejected with an exception; any
     * group is accepted, whether or not one was already set.
     */
    method SetGroup(g: RollingCurlGroup?) returns (out: Outcome)
      modifies this`group
      ensures g == null ==> out == Thrown(SetGroupMessage) && group == old(group)
      ensures g != null ==> out == Returned && group == g
    {
      if g == null {
        return Thrown(SetGroupMessage);
      }
      group := g;
      out := Returned;
    }

    /** process: forwards the completion to the group, when one is set. */
    method Process() returns (fired: bool)
      modifies GroupFrame()`finishedRequests, GroupFrame()`finishedHooks
      ensures group == null ==> !fired
      ensures group != null ==>
                && group.finishedRequests == old(group.finishedRequests) + 1
                && (fired <==> group.finishedRequests >= group.numRequests)
                && group.finishedHooks == old(group.finishedHooks) + (if fired then 1 else 0)
    {
      fired := false;
      if group != null {
        fired := group.Process();
      }
    }
  }

  // ---------------------------------------------------------------------------
  // Groups
  // ---------------------------------------------------------------------------

  /**
   * What `add` can be handed: a group-aware request, a PHP array of further such
   * values, or anything else.
   */
  datatype Addable = Member(request: GroupRequest) | Many(items: seq<Addable>) | NotMember

  /** Every group-aware request that occurs anywhere in `a`. */
  function Objects(a: Addable): set<GroupRequest>
    decreases a
  {
    match a
    case Member(x) => {x}
    case NotMember => {}
    case Many(items) => set i, x | 0 <= i < |items| && x in Objects(items[i]) :: x
  }

  /** The objects of an argument value exist. */
  lemma ObjectsAllocated(a: Addable)
    ensures forall x :: x in Objects(a) ==> allocated(x)
    decreases a
  {
    match a
    case Member(_) =>
    case NotMember =>
    case Many(items) =>
      forall i | 0 <= i < |items|
        ensures forall x :: x in Objects(items[i]) ==> allocated(x)
      {
        ObjectsAllocated(items[i]);
      }
  }

  /**
   * The requests `add` takes over, in order, and whether it got through all of
   * `a` (`complete`) or stopped at a value that is not a group-aware request.
   */
  datatype Admission = Admission(members: seq<GroupRequest>, complete: bool)

  /**
   * The admission of `add(a)`: a walk of `a` in order that stops at the first reject;
   * it only takes over requests that occur in `a`.
   */
  function Accepted(a: Addable): (r: Admission)
    ensures forall x :: x in r.members ==> x in Objects(a)
    decreases a, 1, 0
  {
    match a
    case Member(x) => Admission([x], true)
    case NotMember => Admission([], false)
    case Many(items) => AcceptedUpTo(a, |items|)
  }

  /** The admission of the first `j` elements of an array. */
  function AcceptedUpTo(a: Addable, j: nat): (r: Admission)
    requires a.Many? && j <= |a.items|
    ensures forall x :: x in r.members ==> x in Objects(a)
    decreases a, 0, j
  {
    if j == 0 then Admission([], true)
    else
      var prev := AcceptedUpTo(a, j - 1);
      if !prev.complete then prev
      else
        var last := Accepted(a.items[j - 1]);
        assert forall x :: x in Objects(a.items[j - 1]) ==> x in Objects(a);
        Admission(prev.members + last.members, last.complete)
  }

  /** Once the walk has stopped, later elements change nothing. */
  lemma {:induction false} StoppedStaysStopped(a: Addable, i: nat, j: nat)
    requires a.Many? && i <= j <= |a.items| && !AcceptedUpTo(a, i).complete
    ensures AcceptedUpTo(a, j) == AcceptedUpTo(a, i)
  {
    if i < j {
      StoppedStaysStopped(a, i, j - 1);
    }
  }

  /** The admission of a prefix of an array does not depend on what follows it. */
  lemma {:induction false} PrefixAdmission(xs: seq<Addable>, ys: seq<Addable>, j: nat)
    requires j <= |xs|
    ensures AcceptedUpTo(Many(xs + ys), j) == AcceptedUpTo(Many(xs), j)
  {
    if j > 0 {
      PrefixAdmission(xs, ys, j - 1);
      assert (xs + ys)[j - 1] == xs[j - 1];
    }
  }

  /**
   * An array that consists of group-aware requests only is taken over completely,
   * in array order.
   */
  lemma {:induction false} AllMembersAccepted(rs: seq<GroupRequest>)
    ensures Accepted(Many(seq(|rs|, i requires 0 <= i < |rs| => Member(rs[i])))) == Admission(rs, true)
  {
    var a := Many(seq(|rs|, i requires 0 <= i < |rs| => Member(rs[i])));
    AllMembersAcceptedUpTo(rs, |rs|);
    assert rs[..|rs|] == rs;
  }

  lemma {:induction false} AllMembersAcceptedUpTo(rs: seq<GroupRequest>, j: nat)
    requires j <= |rs|
    ensures AcceptedUpTo(Many(seq(|rs|, i requires 0 <= i < |rs| => Member(rs[i]))), j) == Admission(rs[..j], true)
  {
    if j > 0 {
      AllMembersAcceptedUpTo(rs, j - 1);
      assert rs[..j] == rs[..j - 1] + [rs[j - 1]];
    }
  }

  /**
   * A value that is not a group-aware request, after a run of accepted values:
   * everything before it is taken over, nothing after it, and `add` throws.
   */
  lemma RejectStopsAdd(xs: seq<Addable>, ys: seq<Addable>)
    requires Accepted(Many(xs)).complete
    ensures Accepted(Many(xs + [NotMember] + ys)) == Admission(Accepted(Many(xs)).members, false)
  {
    var a := Many(xs + [NotMember] + ys);
    assert xs + [NotMember] + ys == (xs + [NotMember]) + ys;
    PrefixAdmission(xs + [NotMember], ys, |xs| + 1);
    PrefixAdmission(xs, [NotMember], |xs|);
    assert AcceptedUpTo(a, |xs| + 1) == Admission(Accepted(Many(xs)).members, false);
    StoppedStaysStopped(a, |xs| + 1, |a.items|);
  }

  /** A named group of requests that counts how many of them have completed. */
  class RollingCurlGroup {
    const name: string
    var numRequests: int
    var finishedRequests: int
    var requests: seq<GroupRequest>
    /** How often the (empty) `finished` hook has run. */
    ghost var finishedHooks: nat

    constructor (name: string)
      ensures this.name == name && numRequests == 0 && finishedRequests == 0
      ensures requests == [] && finishedHooks == 0
    {
      this.name := name;
      numRequests := 0;
      finishedRequests := 0;
      requests := [];
      finishedHooks := 0;
    }

    /**
     * add: a group-aware request joins the group (its group is set to this one, the
     * member count grows by one and it is appended); an array is added element by
     * element; anything else throws. Elements before a rejected one stay added.
     */
    method Add(a: Addable) returns (out: Outcome)
      modifies this`numRequests, this`requests, Objects(a)`group
      decreases a
      ensures requests == old(requests) + Accepted(a).members
      ensures numRequests == old(numRequests) + |Accepted(a).members|
      ensures forall x :: x in Accepted(a).members ==> x.group == this
      ensures forall x :: x in Objects(a) && old(allocated(x)) && x !in Accepted(a).members ==> x.group == old(x.group)
      ensures out == if Accepted(a).complete then Normal(true) else Thrown(AddMessage)
    {
      match a
      case Member(x) =>
        var _ := x.SetGroup(this);
        numRequests := numRequests + 1;
        requests := requests + [x];
        out := Normal(true);
      case NotMember =>
        out := Thrown(AddMessage);
      case Many(items) =>
        ObjectsAllocated(a);
        var i := 0;
        while i < |items|
          invariant i <= |items| && AcceptedUpTo(a, i).complete
          invariant requests == old(requests) + AcceptedUpTo(a, i).members
          invariant numRequests == old(numRequests) + |AcceptedUpTo(a, i).members|
          invariant forall x :: x in AcceptedUpTo(a, i).members ==> x.group == this
          invariant forall x :: x in Objects(a) && old(allocated(x)) && x !in AcceptedUpTo(a, i).members ==> x.group == old(x.group)
        {
          assert forall x :: x in Objects(items[i]) ==> x in Objects(a);
          out := Add(items[i]);
          if out.Thrown? {
            StoppedStaysStopped(a, i + 1, |items|);
            return;
          }
          i := i + 1;
        }
        out := Normal(true);
    }

    /**
     * addToRC: a value that is not a scheduler (null) is rejected with an exception;
     * otherwise the members are shifted off the front one by one and added to the
     * scheduler, so they arrive in FIFO order and the group is left empty.
     */
    method AddToRC(rc: RollingCurl?<GroupRequest>) returns (out: Outcome)
      modifies this`requests, (if rc == null then {} else {rc})`requests
      ensures rc == null ==> out == Thrown(AddToRCMessage) && requests == old(requests)
      ensures rc != null ==>
                && out == Normal(true)
                && requests == []
                && rc.requests == old(rc.requests) + AsQueued(old(requests))
    {
      if rc == null {
        return Thrown(AddToRCMessage);
      }
      var ret := true;
      ghost var drained := [];
      while |requests| > 0
        invariant drained + requests == old(requests)
        invariant rc.requests == old(rc.requests) + AsQueued(drained)
        invariant ret
        decreases |requests|
      {
        var r := requests[0];
        requests := requests[1..];
        var ok := rc.Add(Extended(r));
        if !ok {
          ret := false;
        }
        AsQueuedAppend(drained, r);
        drained := drained + [r];
      }
      out := Normal(ret);
    }

    /**
     * process: one member completed; the count of finished members grows by one and
     * the `finished` hook runs exactly when that count has reached the member count.
     */
    method Process() returns (fired: bool)
      modifies this`finishedRequests, this`finishedHooks
      ensures finishedRequests == old(finishedRequests) + 1
      ensures fired <==> finishedRequests >= numRequests
      ensures finishedHooks == old(finishedHooks) + (if fired then 1 else 0)
    {
      finishedRequests := finishedRequests + 1;
      fired := finishedRequests >= numRequests;
      if fired {
        Finished();
      }
    }

    /** finished: an empty hook meant for subclasses; the model counts its runs. */
    method Finished()
      modifies this`finishedHooks
      ensures finishedHooks == old(finishedHooks) + 1
    {
      finishedHooks := finishedHooks + 1;
    }
  }

  /** The members of a group as scheduler queue entries. */
  function AsQueued(rs: seq<GroupRequest>): (q: seq<Queued<GroupRequest>>)
    ensures |q| == |rs|
    ensures forall j :: 0 <= j < |rs| ==> q[j] == Extended(rs[j])
  {
    seq(|rs|, j requires 0 <= j < |rs| => Extended(rs[j]))
  }

  lemma AsQueuedAppend(rs: seq<GroupRequest>, r: GroupRequest)
    ensures AsQueued(rs + [r]) == AsQueued(rs) + [Extended(r)]
  {
  }

  // ---------------------------------------------------------------------------
  // Completion counting
  // ---------------------------------------------------------------------------

  /**
   * Whether `finished` runs on each of `m` successive process() calls of a group
   * with `num` members that has seen `done` completions so far.
   */
  function Firings(done: int, num: int, m: nat): (r: seq<bool>)
    ensures |r| == m
    // the t-th call (from 0) fires exactly when it brings the count to `num` or beyond
    ensures forall t :: 0 <= t < m ==> (r[t] <==> done + t + 1 >= num)
    decreases m
  {
    if m == 0 then []
    else
      var rest := Firings(done + 1, num, m - 1);
      var r := [done + 1 >= num] + rest;
      assert forall t :: 0 < t < m ==> r[t] == rest[t - 1];
      r
  }

  function CountTrue(s: seq<bool>): nat {
    if s == [] then 0 else (if s[0] then 1 else 0) + CountTrue(s[1..])
  }

  /**
   * How often the hook runs: never while fewer than `num` completions were seen, then
   * on the call that reaches `num` and on every excess call after it.
   */
  lemma {:induction false} FiringCount(done: int, num: int, m: nat)
    ensures done + m < num ==> CountTrue(Firings(done, num, m)) == 0
    ensures num <= done + 1 ==> CountTrue(Firings(done, num, m)) == m
    ensures done + 1 < num <= done + m ==> CountTrue(Firings(done, num, m)) == done + m - num + 1
    decreases m
  {
    if m > 0 {
      FiringCount(done + 1, num, m - 1);
      assert Firings(done, num, m)[1..] == Firings(done + 1, num, m - 1);
    }
  }

  /** One more `process` call adds one firing exactly when it brings the count to `num` or beyond. */
  lemma {:induction false} FiringsExtend(done: int, num: int, m: nat)
    ensures CountTrue(Firings(done, num, m + 1)) == CountTrue(Firings(done, num, m)) + (if done + m + 1 >= num then 1 else 0)
    decreases m
  {
    var b := if done + 1 >= num then 1 else 0;
    assert Firings(done, num, m + 1)[1..] == Firings(done + 1, num, m);
    if m > 0 {
      FiringsExtend(done + 1, num, m - 1);
      assert Firings(done, num, m)[1..] == Firings(done + 1, num, m - 1);
    }
  }

  /** The number of positions `j` for which `s[idx[j]]` is `v`. */
  function Hits<T(==)>(s: seq<T>, idx: seq<nat>, v: T): nat {
    if idx == [] then 0
    else Hits(s, idx[..|idx| - 1], v) + (if idx[|idx| - 1] < |s| && s[idx[|idx| - 1]] == v then 1 else 0)
  }

  /** One more index adds one hit exactly when its entry is `v`. */
  lemma HitsAppend<T>(s: seq<T>, idx: seq<nat>, c: nat, v: T)
    ensures Hits(s, idx + [c], v) == Hits(s, idx, v) + (if c < |s| && s[c] == v then 1 else 0)
  {
    assert (idx + [c])[..|idx|] == idx;
  }

  /** The indices in `e` whose entry in `s` is `v`. */
  function Selected<T(==)>(s: seq<T>, e: set<nat>, v: T): set<nat> {
    set i | i in e && i < |s| && s[i] == v
  }

  /** Adding one index to the candidates adds it to the selection exactly when it is selected. */
  lemma SelectedAdd<T>(s: seq<T>, e: set<nat>, x: nat, v: T)
    requires x !in e
    ensures x < |s| && s[x] == v ==> |Selected(s, e + {x}, v)| == |Selected(s, e, v)| + 1
    ensures !(x < |s| && s[x] == v) ==> |Selected(s, e + {x}, v)| == |Selected(s, e, v)|
  {
    if x < |s| && s[x] == v {
      assert Selected(s, e + {x}, v) == Selected(s, e, v) + {x};
    } else {
      assert Selected(s, e + {x}, v) == Selected(s, e, v);
    }
  }

  /** Over distinct indices, counting hits is counting the selected index set. */
  lemma {:induction false} HitsOfDistinct<T>(s: seq<T>, idx: seq<nat>, v: T)
    requires Distinct(idx)
    ensures Hits(s, idx, v) == |Selected(s, Elems(idx), v)|
  {
    if idx != [] {
      var init := idx[..|idx| - 1];
      var x := idx[|idx| - 1];
      assert idx == init + [x];
      assert Distinct(init) by {
        forall a, b | 0 <= a < b < |init|
          ensures init[a] != init[b]
        {
          assert init[a] == idx[a] && init[b] == idx[b];
        }
      }
      assert x !in Elems(init) by {
        forall a | 0 <= a < |init|
          ensures init[a] != x
        {
          assert init[a] == idx[a];
        }
      }
      DistinctAppend(init, x);
      HitsOfDistinct(s, init, v);
      SelectedAdd(s, Elems(init), x, v);
    }
  }

  /** How many entries of `s` are `v`: the size of the set of such indices. */
  function Entries<T(==)>(s: seq<T>, v: T): nat {
    |Selected(s, Below(|s|), v)|
  }

  /**
   * The callback runs once per queued request, in whatever order: over any
   * completion order, the entries equal to `v` are hit as often as in queue order.
   */
  lemma PermutationHits<T>(s: seq<T>, p: seq<nat>, v: T)
    requires IsPermutationOfRange(p, |s|)
    ensures Hits(s, p, v) == Entries(s, v)
  {
    HitsOfDistinct(s, p, v);
  }

  // ---------------------------------------------------------------------------
  // The group-aware scheduler
  // ---------------------------------------------------------------------------

  /** What GroupRollingCurl.add can be handed: a whole group, or a single queue entry. */
  datatype Addition = WholeGroup(group: RollingCurlGroup) | Single(entry: Queued<GroupRequest>)

  /** What GroupRollingCurl.execute hands back. */
  datatype GroupExecResult = NothingQueued | Delegated(result: ExecResult)

  /** The group a queue entry reports to, if any. */
  function Owner(e: Queued<GroupRequest>): RollingCurlGroup?
    reads if e.Extended? then {e.item} else {}
  {
    if e.Extended? then e.item.group else null
  }

  /** The group of every queue entry, in queue order. */
  function Owners(q: seq<Queued<GroupRequest>>): (r: seq<RollingCurlGroup?>)
    reads set j | 0 <= j < |q| && q[j].Extended? :: q[j].item
    ensures |r| == |q|
    ensures forall j :: 0 <= j < |q| ==> r[j] == Owner(q[j])
  {
    seq(|q|, j reads set j | 0 <= j < |q| && q[j].Extended? :: q[j].item requires 0 <= j < |q| => Owner(q[j]))
  }

  /** The groups that entries of the queue report to. */
  function OwnerSet(q: seq<Queued<GroupRequest>>): set<RollingCurlGroup>
    reads set j | 0 <= j < |q| && q[j].Extended? :: q[j].item
  {
    set j | 0 <= j < |q| && Owner(q[j]) != null :: Owner(q[j])
  }

  /** The settings of a group-aware request, as the scheduler reads them (`$request->url`, ...). */
  function RequestOf(g: GroupRequest): Request {
    g.request
  }

  /**
   * The scheduler variant whose completion callback is its own process(): a completed
   * group-aware request is first reported to its group, then handed to the optional
   * global callback.
   */
  class GroupRollingCurl {
    const base: RollingCurl<GroupRequest>
    var groupCallback: Option<Callback>
    /** The entries handed to the global callback so far, in order. */
    ghost var forwarded: seq<Queued<GroupRequest>>

    constructor (callback: Option<Callback>)
      ensures groupCallback == callback && forwarded == []
      ensures fresh(base) && base.callback == Some(ProcessCallback) && base.requests == []
      ensures base.windowSize == DefaultWindowSize && base.options == DefaultOptions && base.headers == map[]
      ensures base.settingsOf == RequestOf
    {
      groupCallback := callback;
      forwarded := [];
      base := new RollingCurl(Some(ProcessCallback), RequestOf);
    }

    /**
     * process: a group-aware entry is first reported to its own group (if it has one);
     * then the global callback gets the entry when one is set.
     */
    method Process(e: Queued<GroupRequest>) returns (fired: bool, global: bool)
      modifies (if e.Extended? then e.item.GroupFrame() else {})`finishedRequests
      modifies (if e.Extended? then e.item.GroupFrame() else {})`finishedHooks
      modifies this`forwarded
      ensures Owner(e) == null ==> !fired
      ensures Owner(e) != null ==>
                && Owner(e).finishedRequests == old(Owner(e).finishedRequests) + 1
                && (fired <==> Owner(e).finishedRequests >= Owner(e).numRequests)
                && Owner(e).finishedHooks == old(Owner(e).finishedHooks) + (if fired then 1 else 0)
      ensures global == groupCallback.Some?
      ensures forwarded == old(forwarded) + (if global then [e] else [])
    {
      fired := false;
      if e.Extended? {
        fired := e.item.Process();
      }
      global := groupCallback.Some?;
      if global {
        forwarded := forwarded + [e];
      }
    }

    /** add: a group hands all its members over (addToRC); anything else goes to the base queue. */
    method Add(x: Addition) returns (out: Outcome)
      modifies base`requests, (if x.WholeGroup? then {x.group} else {})`requests
      ensures x.Single? ==> out == Normal(true) && base.requests == old(base.requests) + [x.entry]
      ensures x.WholeGroup? ==>
                && out == Normal(true)
                && x.group.requests == []
                && base.requests == old(base.requests) + AsQueued(old(x.group.requests))
    {
      match x
      case WholeGroup(g) =>
        out := g.AddToRC(base);
      case Single(e) =>
        var ok := base.Add(e);
        out := Normal(ok);
    }

    /**
     * execute: an empty queue is refused with `false` and nothing changes; otherwise the
     * base scheduler runs and every completion it reports goes through process(). When
     * the base callback is still process() and every request completed, each group's
     * completion count has grown by the number of its entries in the queue.
     */
    method Execute(windowArg: Option<int>, fetch: PhpArray -> Value)
      returns (result: GroupExecResult, calls: seq<nat>)
      requires base.QueueUsable()
      modifies base`windowSize, this`forwarded
      modifies OwnerSet(base.requests)`finishedRequests, OwnerSet(base.requests)`finishedHooks
      ensures |base.requests| == 0 ==>
                && result == NothingQueued && calls == []
                && base.windowSize == old(base.windowSize) && forwarded == old(forwarded)
      ensures |base.requests| > 0 ==>
                result.Delegated? && BaseOutcome(windowArg, old(base.windowSize), fetch, result.result, calls)
      ensures |base.requests| > 1 ==> base.windowSize == EffectiveWindow(windowArg, old(base.windowSize), |base.requests|)
      ensures forall j :: 0 <= j < |calls| ==> calls[j] < |base.requests|
      // the global callback receives every reported completion, in order, when one is set,
      // and nothing otherwise; with another base callback process() never runs
      ensures base.callback == Some(ProcessCallback) ==>
                forwarded == old(forwarded) + (if groupCallback.Some? then Picked(base.requests, calls) else [])
      ensures base.callback != Some(ProcessCallback) ==> forwarded == old(forwarded)
      // a concurrent run with process() as the callback finishes, and every group has
      // counted one completion per entry it owns in the queue
      ensures |base.requests| > 1 && base.windowSize >= 2 && base.callback == Some(ProcessCallback) ==>
                && result == Delegated(ExecResult.Finished)
                && forall g :: g in OwnerSet(base.requests) ==>
                     Advanced(g, old(g.finishedRequests), old(g.finishedHooks), Entries(Owners(base.requests), g))
      ensures base.callback != Some(ProcessCallback) ==>
                forall g :: g in OwnerSet(base.requests) ==>
                  g.finishedRequests == old(g.finishedRequests) && g.finishedHooks == old(g.finishedHooks)
      // every completion the base loop reports goes through process(), in that order
      ensures base.callback == Some(ProcessCallback) ==>
                forall g :: g in OwnerSet(base.requests) ==>
                  Advanced(g, old(g.finishedRequests), old(g.finishedHooks), Hits(Owners(base.requests), calls, g))
      // when every request completed: one completion per entry a group owns in the queue
      ensures base.callback == Some(ProcessCallback) && IsPermutationOfRange(calls, |base.requests|) ==>
                forall g :: g in OwnerSet(base.requests) ==>
                  Advanced(g, old(g.finishedRequests), old(g.finishedHooks), Entries(Owners(base.requests), g))
    {
      if |base.requests| == 0 {
        return NothingQueued, [];
      }
      var r;
      r, calls := RunBase(windowArg, fetch);
      result := Delegated(r);
      if base.callback == Some(ProcessCallback) {
        Replay(calls);
        if IsPermutationOfRange(calls, |base.requests|) {
          forall g | g in OwnerSet(base.requests)
            ensures Advanced(g, old(g.finishedRequests), old(g.finishedHooks), Entries(Owners(base.requests), g))
          {
            PermutationHits(Owners(base.requests), calls, g);
          }
        }
      }
    }

    /**
     * What the base execute() did, from the window `w0` it started with: the indices
     * called back are queue indices; one request takes the single path and keeps the
     * window; any other count stores the clamped window, fails the pre-check below 2,
     * fails on a null callback, and otherwise finishes with every request called back
     * exactly once.
     */
    ghost predicate BaseOutcome(windowArg: Option<int>, w0: int, fetch: PhpArray -> Value, r: ExecResult, calls: seq<nat>)
      reads this, base
      requires base.QueueUsable()
    {
      && (forall j :: 0 <= j < |calls| ==> calls[j] < |base.requests|)
      && (|base.requests| == 1 ==> base.windowSize == w0)
      && (|base.requests| == 1 && base.callback.Some? ==> r == CalledBack && calls == [0])
      && (|base.requests| == 1 && base.callback.None? ==> r == Output(fetch(base.OptionsAt(0))) && calls == [])
      && (|base.requests| != 1 ==> base.windowSize == EffectiveWindow(windowArg, w0, |base.requests|))
      && (|base.requests| != 1 && base.windowSize < 2 ==> r == Message(WindowTooSmallMessage) && calls == [])
      && (|base.requests| != 1 && base.windowSize >= 2 && base.callback.None? ==> r == CallbackNotCallable && calls == [])
      && (|base.requests| != 1 && base.windowSize >= 2 && base.callback.Some? ==>
            r == ExecResult.Finished && IsPermutationOfRange(calls, |base.requests|))
    }

    /** The base execute(): its outcome and the completions it called back, without the submissions. */
    method RunBase(windowArg: Option<int>, fetch: PhpArray -> Value) returns (r: ExecResult, calls: seq<nat>)
      requires base.QueueUsable()
      modifies base`windowSize
      ensures BaseOutcome(windowArg, old(base.windowSize), fetch, r, calls)
    {
      var submitted;
      r, submitted, calls := base.Execute(windowArg, fetch);
    }

    /** The callback invocations the base scheduler reported, in order, each through process(). */
    method Replay(calls: seq<nat>)
      requires forall j :: 0 <= j < |calls| ==> calls[j] < |base.requests|
      modifies this`forwarded
      modifies OwnerSet(base.requests)`finishedRequests, OwnerSet(base.requests)`finishedHooks
      ensures forall g :: g in OwnerSet(base.requests) ==>
                Advanced(g, old(g.finishedRequests), old(g.finishedHooks), Hits(Owners(base.requests), calls, g))
      ensures forwarded == old(forwarded) + (if groupCallback.Some? then Picked(base.requests, calls) else [])
      ensures Owners(base.requests) == old(Owners(base.requests)) && OwnerSet(base.requests) == old(OwnerSet(base.requests))
      decreases |calls|
    {
      ghost var owners := Owners(base.requests);
      ghost var groups := OwnerSet(base.requests);
      if calls == [] {
        return;
      }
      var init := calls[..|calls| - 1];
      var c := calls[|calls| - 1];
      Replay(init);
      label Mid:
      ProcessAt(c, owners, groups);
      forall g | g in groups
        ensures Advanced(g, old(g.finishedRequests), old(g.finishedHooks), Hits(owners, calls, g))
      {
        assert calls == init + [c];
        CountStep(owners, init, c, g, old(g.finishedRequests), old(g.finishedHooks), g.numRequests,
                  old@Mid(g.finishedRequests), old@Mid(g.finishedHooks), g.finishedRequests, g.finishedHooks);
      }
    }

    /** process() for queue index c: only the group of that entry counts one more completion. */
    method ProcessAt(c: nat, ghost owners: seq<RollingCurlGroup?>, ghost groups: set<RollingCurlGroup>)
      requires c < |base.requests| && owners == Owners(base.requests) && groups == OwnerSet(base.requests)
      modifies this`forwarded, groups`finishedRequests, groups`finishedHooks
      ensures Owners(base.requests) == owners && OwnerSet(base.requests) == groups
      ensures forall g :: g in groups ==> g.finishedRequests == old(g.finishedRequests) + (if owners[c] == g then 1 else 0)
      ensures forall g :: g in groups ==>
                g.finishedHooks == old(g.finishedHooks) + (if owners[c] == g && g.finishedRequests >= g.numRequests then 1 else 0)
      ensures forwarded == old(forwarded) + (if groupCallback.Some? then [base.requests[c]] else [])
    {
      var e := base.requests[c];
      assert Owner(e) != null ==> Owner(e) in groups;
      var _, _ := Process(e);
    }
  }

  /**
   * Group `g` has seen `n` more process() calls since it stood at `fr0` completions
   * and `hk0` hook runs: its count grew by `n`, and its hook ran once for each of
   * those calls that brought the count to the member count or beyond.
   */
  ghost predicate Advanced(g: RollingCurlGroup, fr0: int, hk0: nat, n: nat)
    reads g
  {
    && g.finishedRequests == fr0 + n
    && g.finishedHooks == hk0 + CountTrue(Firings(fr0, g.numRequests, n))
  }

  /**
   * One more completion `c` through process(): a group that had counted the hits of
   * `idx` (from `fr0` completions and `hk0` hook runs) has counted those of `idx + [c]`.
   */
  lemma CountStep(owners: seq<RollingCurlGroup?>, idx: seq<nat>, c: nat, g: RollingCurlGroup,
                  fr0: int, hk0: nat, num: int, fr: int, hk: nat, fr': int, hk': nat)
    requires c < |owners|
    requires fr == fr0 + Hits(owners, idx, g) && hk == hk0 + CountTrue(Firings(fr0, num, Hits(owners, idx, g)))
    requires fr' == fr + (if owners[c] == g then 1 else 0)
    requires hk' == hk + (if owners[c] == g && fr' >= num then 1 else 0)
    ensures fr' == fr0 + Hits(owners, idx + [c], g)
    ensures hk' == hk0 + CountTrue(Firings(fr0, num, Hits(owners, idx + [c], g)))
  {
    HitsAppend(owners, idx, c, g);
    FiringsExtend(fr0, num, Hits(owners, idx, g));
  }

  /** The queue entries at the given indices, in that order. */
  function Picked(q: seq<Queued<GroupRequest>>, idx: seq<nat>): (r: seq<Queued<GroupRequest>>)
    requires forall j :: 0 <= j < |idx| ==> idx[j] < |q|
    ensures |r| == |idx| && forall j :: 0 <= j < |idx| ==> r[j] == q[idx[j]]
  {
    if idx == [] then [] else Picked(q, idx[..|idx| - 1]) + [q[idx[|idx| - 1]]]
  }

  // ---------------------------------------------------------------------------
  // A run end to end
  // ---------------------------------------------------------------------------

  /**
   * Three group-aware requests join one group, the group is added to a group-aware
   * scheduler without a global callback, and the scheduler runs with window 2: the
   * run finishes, the group has counted three completions, and its `finished` hook
   * has run exactly once, whatever order the requests completed in.
   */
  method GroupOfThree(r0: Request, r1: Request, r2: Request, fetch: PhpArray -> Value)
    returns (result: GroupExecResult, finished: int, ghost hooks: nat)
    requires OptionsUsable(r0) && OptionsUsable(r1) && OptionsUsable(r2)
    ensures result == Delegated(ExecResult.Finished)
    ensures finished == 3 && hooks == 1
  {
    var grc, g, a, b, c := QueueCohort(r0, r1, r2);
    CohortQueued(grc.base, g, a, b, c);
    result, finished, hooks := RunCohort(grc, g, fetch);
  }

  /** A queue of three members of one fresh group, run with window 2. */
  method RunCohort(grc: GroupRollingCurl, g: RollingCurlGroup, fetch: PhpArray -> Value)
    returns (result: GroupExecResult, finished: int, ghost hooks: nat)
    requires grc.base.QueueUsable() && |grc.base.requests| == 3
    requires grc.base.callback == Some(ProcessCallback) && grc.base.windowSize == DefaultWindowSize
    requires forall j :: 0 <= j < |grc.base.requests| ==> Owner(grc.base.requests[j]) == g
    requires OwnerSet(grc.base.requests) == {g}
    requires g.numRequests == 3 && g.finishedRequests == 0 && g.finishedHooks == 0
    modifies grc.base`windowSize, grc`forwarded, g`finishedRequests, g`finishedHooks
    ensures result == Delegated(ExecResult.Finished)
    ensures finished == 3 && hooks == 1
  {
    var calls;
    result, calls := grc.Execute(Some(2), fetch);
    CohortCounts(g, Owners(grc.base.requests));
    finished := g.finishedRequests;
    hooks := g.finishedHooks;
  }

  /** A new group-aware scheduler whose queue holds a new group of three new group-aware requests. */
  method QueueCohort(r0: Request, r1: Request, r2: Request)
    returns (grc: GroupRollingCurl, g: RollingCurlGroup, a: GroupRequest, b: GroupRequest, c: GroupRequest)
    ensures fresh(grc) && fresh(grc.base) && fresh(g)
    ensures grc.base.callback == Some(ProcessCallback) && grc.base.windowSize == DefaultWindowSize
    ensures grc.base.settingsOf == RequestOf
    ensures grc.base.requests == [Extended(a), Extended(b), Extended(c)]
    ensures a.request == r0 && b.request == r1 && c.request == r2
    ensures a.group == g && b.group == g && c.group == g
    ensures g.numRequests == 3 && g.finishedRequests == 0 && g.finishedHooks == 0
  {
    grc := new GroupRollingCurl(None);
    g, a, b, c := NewCohort(r0, r1, r2);
    var _ := grc.Add(WholeGroup(g));
  }

  /** A new group whose members are three new group-aware requests, in order. */
  method NewCohort(r0: Request, r1: Request, r2: Request) returns (g: RollingCurlGroup, a: GroupRequest, b: GroupRequest, c: GroupRequest)
    ensures fresh(g) && fresh(a) && fresh(b) && fresh(c)
    ensures a.request == r0 && b.request == r1 && c.request == r2
    ensures a.group == g && b.group == g && c.group == g
    ensures g.requests == [a, b, c]
    ensures g.numRequests == 3 && g.finishedRequests == 0 && g.finishedHooks == 0
  {
    g := new RollingCurlGroup("cohort");
    a := new GroupRequest(r0);
    b := new GroupRequest(r1);
    c := new GroupRequest(r2);
    var _ := g.Add(Member(a));
    var _ := g.Add(Member(b));
    var _ := g.Add(Member(c));
  }

  /** A queue of three members of `g`: every entry reports to `g`, and the queue can be run. */
  lemma CohortQueued(base: RollingCurl<GroupRequest>, g: RollingCurlGroup, a: GroupRequest, b: GroupRequest, c: GroupRequest)
    requires base.settingsOf == RequestOf && base.requests == [Extended(a), Extended(b), Extended(c)]
    requires a.group == g && b.group == g && c.group == g
    requires OptionsUsable(a.request) && OptionsUsable(b.request) && OptionsUsable(c.request)
    ensures forall j :: 0 <= j < |base.requests| ==> Owner(base.requests[j]) == g
    ensures OwnerSet(base.requests) == {g}
    ensures base.QueueUsable()
  {
    var q := base.requests;
    assert Owner(q[0]) == g;
    assert base.SettingsOf(q[0]) == a.request && base.SettingsOf(q[1]) == b.request && base.SettingsOf(q[2]) == c.request;
  }

  /** A group of three that has seen one process() call per member: three completions, one hook run. */
  lemma CohortCounts(g: RollingCurlGroup, owners: seq<RollingCurlGroup?>)
    requires |owners| == 3 && (forall j :: 0 <= j < 3 ==> owners[j] == g) && g.numRequests == 3
    requires Advanced(g, 0, 0, Entries(owners, g))
    ensures g.finishedRequests == 3 && g.finishedHooks == 1
  {
    OnlyEntries(owners, g);
    FiringCount(0, 3, 3);
  }

  /** When every entry is `v`, all of them count. */
  lemma OnlyEntries<T>(s: seq<T>, v: T)
    requires forall j :: 0 <= j < |s| ==> s[j] == v
    ensures Entries(s, v) == |s|
  {
    assert Selected(s, Below(|s|), v) == Below(|s|);
  }
}
