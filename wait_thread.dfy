/** The fence-wait thread of a Vulkan context (`VKContext::wait_thread_function`),
    with the thread and the queue taken away: the requests it pops are a
    sequence, and what it does is a trace of actions.

    The thread keeps a batch of fences it has not waited for yet. A
    notification request adds its fence to the batch; any request that has a
    visible effect (a guest-memory write, recording the last fully waited
    frame, finishing a surface synchronisation) first waits for the whole
    batch in one call and empties it. `Run` is that behaviour as a fold;
    `WaitThreadFunction` is the loop, proved equal to the fold; the lemmas
    state the ordering guarantee the batching must keep. */
module WaitThread {
  import opened VulkanTypes

  /** The thread's observable actions. */
  datatype Action =
    | WaitAll(fences: seq<Handle>)            // waitForFences over the batch, no timeout
    | Write(address: Address, value: uint32)  // store of a notification value into guest memory
    | SetLastFrameWaited(frameTimestamp: nat) // last_frame_waited := frame timestamp
    | PostSync(cacheInfo: Handle)             // surface_cache.perform_post_surface_sync
  {
    /** Everything but a wait is a side effect that must follow the wait. */
    predicate IsSideEffect() { !WaitAll? }
  }

  /** What the thread carries from one request to the next: the batch of fences
      not yet waited for (the local `fences` vector), the actions so far, guest
      memory and `last_frame_waited`. */
  datatype DispatchState = DispatchState(
    pending: seq<Handle>,
    actions: seq<Action>,
    memory: map<Address, uint32>,
    lastFrameWaited: nat)

  function Start(memory: map<Address, uint32>, lastFrameWaited: nat): DispatchState
  {
    DispatchState([], [], memory, lastFrameWaited)
  }

  /** The handling of one popped request. A request with side effects (a
      notification with at least one address, a frame-done request, a
      post-surface-sync request) first waits, in one call, for every batched
      fence together with its own, then performs its effects in order and
      leaves the batch empty. A notification request with two null addresses
      only adds its fence to the batch. */
  function Step(st: DispatchState, r: Request): (s: DispatchState)
    ensures |s.actions| >= |st.actions|
    ensures s.pending == [] <==> HasEffects(r)
  {
    DispatchState(
      if HasEffects(r) then [] else st.pending + FenceOf(r),
      st.actions + Emitted(st.pending, r),
      Notified(st.memory, r),
      if r.FrameDoneRequest? then r.frameTimestamp else st.lastFrameWaited)
  }

  /** Whether handling the request does more than batch its fence. */
  predicate HasEffects(r: Request)
  {
    !r.NotificationRequest? || r.first.IsSet() || r.second.IsSet()
  }

  /** The actions one request adds, given the batch pending before it. */
  function Emitted(pending: seq<Handle>, r: Request): seq<Action>
  {
    if HasEffects(r) then WaitFor(pending + FenceOf(r)) + Effects(r) else []
  }

  /** Guest memory after a request's writes: a notification request stores
      its first, then its second value, each only at a non-null address. */
  function Notified(memory: map<Address, uint32>, r: Request): (m: map<Address, uint32>)
    ensures memory.Keys <= m.Keys
    ensures !r.NotificationRequest? ==> m == memory
    ensures r.NotificationRequest? && r.second.IsSet() ==> r.second.address in m && m[r.second.address] == r.second.value
    ensures r.NotificationRequest? && r.first.IsSet() && !(r.second.IsSet() && r.second.address == r.first.address)
      ==> r.first.address in m && m[r.first.address] == r.first.value
  {
    match r
    case NotificationRequest(first, second, _) =>
      var m1 := if first.IsSet() then memory[first.address := first.value] else memory;
      if second.IsSet() then m1[second.address := second.value] else m1
    case _ => memory
  }

  /** The state after handling the first `n` requests in order (a left fold). */
  function Run(st: DispatchState, reqs: seq<Request>, n: nat): (s: DispatchState)
    requires n <= |reqs|
    ensures |s.actions| >= |st.actions|
  {
    if n == 0 then st else Step(Run(st, reqs, n - 1), reqs[n - 1])
  }

  /** The requests the thread handles: the pops up to the first one that
      returns nothing (the queue was closed), or all of them. */
  function Delivered(queue: seq<Option<Request>>): (reqs: seq<Request>)
    ensures |reqs| <= |queue|
    ensures forall j :: 0 <= j < |reqs| ==> queue[j] == Some(reqs[j])
    ensures |reqs| < |queue| ==> queue[|reqs|].None?
  {
    if |queue| == 0 || queue[0].None? then [] else [queue[0].value] + Delivered(queue[1..])
  }

  /** The fences waited for by the first `k` actions, in the order of the waits. */
  function WaitedFences(actions: seq<Action>, k: nat): seq<Handle>
    requires k <= |actions|
  {
    if k == 0 then []
    else WaitedFences(actions, k - 1) + (if actions[k - 1].WaitAll? then actions[k - 1].fences else [])
  }

  /** All fences waited for by the actions. */
  function AllWaited(actions: seq<Action>): seq<Handle>
  {
    WaitedFences(actions, |actions|)
  }

  /** The fence a request carries, if any. */
  function FenceOf(r: Request): seq<Handle>
  {
    if r.NotificationRequest? then [r.fence] else []
  }

  /** `acc` followed by the fences carried by the first `n` requests, in
      request order. */
  function FencesFrom(acc: seq<Handle>, reqs: seq<Request>, n: nat): seq<Handle>
    requires n <= |reqs|
  {
    if n == 0 then acc else FencesFrom(acc, reqs, n - 1) + FenceOf(reqs[n - 1])
  }

  /** The fences carried by the first `n` requests, in request order. */
  function FencesOf(reqs: seq<Request>, n: nat): seq<Handle>
    requires n <= |reqs|
  {
    FencesFrom([], reqs, n)
  }

  /** The side effects a request asks for once its fences are waited for. */
  function Effects(r: Request): seq<Action>
  {
    match r
    case NotificationRequest(first, second, _) =>
      (if first.IsSet() then [Write(first.address, first.value)] else [])
      + (if second.IsSet() then [Write(second.address, second.value)] else [])
    case FrameDoneRequest(ts) => [SetLastFrameWaited(ts)]
    case PostSurfaceSyncRequest(info) => [PostSync(info)]
  }

  /** A single wait for a batch; an empty batch needs none. */
  function WaitFor(batch: seq<Handle>): seq<Action>
  {
    if |batch| == 0 then [] else [WaitAll(batch)]
  }

  /** Every wait in the actions covers at least one fence. */
  predicate NoEmptyWaits(actions: seq<Action>)
  {
    forall k :: 0 <= k < |actions| && actions[k].WaitAll? ==> |actions[k].fences| > 0
  }

  /** Guest memory after the writes among `actions[lo..hi]`, in order. */
  function ApplyWrites(memory: map<Address, uint32>, actions: seq<Action>, lo: nat, hi: nat): map<Address, uint32>
    requires lo <= hi <= |actions|
    decreases hi
  {
    if hi == lo then memory
    else
      var before := ApplyWrites(memory, actions, lo, hi - 1);
      var last := actions[hi - 1];
      if last.Write? then before[last.address := last.value] else before
  }

  // ---------------------------------------------------------------------------
  // The loop

  /** The `wait_for_fences` lambda on the thread's local state: one wait for a
      non-empty batch, which is then cleared. */
  method WaitForFences(fences: seq<Handle>, actions: seq<Action>) returns (fences': seq<Handle>, actions': seq<Action>)
    ensures fences' == []
    ensures |fences| == 0 ==> actions' == actions
    ensures |fences| > 0 ==> |actions'| == |actions| + 1 && actions'[..|actions|] == actions && actions'[|actions|] == WaitAll(fences)
    ensures AllWaited(actions') == AllWaited(actions) + fences
  {
    fences', actions' := fences, actions;
    if |fences'| > 0 {
      actions' := actions' + [WaitAll(fences')];
      WaitedFencesPrefix(actions, [WaitAll(fences')], |actions|);
      fences' := [];
    }
  }

  /** The handling of one popped request (the `std::visit` over its kind),
      on the thread's local batch, its actions, guest memory and
      `last_frame_waited`. */
  method HandleRequest(request: Request, fences: seq<Handle>, actions: seq<Action>, memory: map<Address, uint32>, lastFrameWaited: nat)
    returns (fences': seq<Handle>, actions': seq<Action>, memory': map<Address, uint32>, lastFrameWaited': nat)
    ensures DispatchState(fences', actions', memory', lastFrameWaited')
         == Step(DispatchState(fences, actions, memory, lastFrameWaited), request)
  {
    match request {
      case NotificationRequest(_, _, _) =>
        fences', actions', memory' := HandleNotification(request, fences, actions, memory);
        lastFrameWaited' := lastFrameWaited;
      case FrameDoneRequest(_) =>
        fences', actions', lastFrameWaited' := HandleFrameDone(request, fences, actions);
        memory' := memory;
      case PostSurfaceSyncRequest(_) =>
        fences', actions' := HandlePostSurfaceSync(request, fences, actions);
        memory', lastFrameWaited' := memory, lastFrameWaited;
    }
  }

  /** A notification request: its fence joins the batch; when either
      notification has an address, the batch is waited for and the values
      are stored, first then second. */
  method HandleNotification(request: Request, fences: seq<Handle>, actions: seq<Action>, memory: map<Address, uint32>)
    returns (fences': seq<Handle>, actions': seq<Action>, memory': map<Address, uint32>)
    requires request.NotificationRequest?
    ensures var t := Step(DispatchState(fences, actions, memory, 0), request);
      fences' == t.pending && actions' == t.actions && memory' == t.memory
  {
    var first, second := request.first, request.second;
    fences', actions', memory' := fences + [request.fence], actions, memory;
    if first.address != 0 || second.address != 0 {
      fences', actions' := WaitForFences(fences', actions');
      if first.address != 0 {
        memory' := memory'[first.address := first.value];
        actions' := actions' + [Write(first.address, first.value)];
      }
      if second.address != 0 {
        memory' := memory'[second.address := second.value];
        actions' := actions' + [Write(second.address, second.value)];
      }
    }
  }

  /** A frame-done request: the batch is waited for, then the frame is
      recorded as the last one fully waited for. */
  method HandleFrameDone(request: Request, fences: seq<Handle>, actions: seq<Action>)
    returns (fences': seq<Handle>, actions': seq<Action>, lastFrameWaited': nat)
    requires request.FrameDoneRequest?
    ensures var t := Step(DispatchState(fences, actions, map[], 0), request);
      fences' == t.pending && actions' == t.actions && lastFrameWaited' == t.lastFrameWaited
  {
    fences', actions' := WaitForFences(fences, actions);
    lastFrameWaited' := request.frameTimestamp;
    actions' := actions' + [SetLastFrameWaited(request.frameTimestamp)];
    assert fences + FenceOf(request) == fences;
  }

  /** A post-surface-sync request: the batch is waited for, then the surface
      cache finishes the synchronisation. */
  method HandlePostSurfaceSync(request: Request, fences: seq<Handle>, actions: seq<Action>)
    returns (fences': seq<Handle>, actions': seq<Action>)
    requires request.PostSurfaceSyncRequest?
    ensures var t := Step(DispatchState(fences, actions, map[], 0), request);
      fences' == t.pending && actions' == t.actions
  {
    fences', actions' := WaitForFences(fences, actions);
    actions' := actions' + [PostSync(request.cacheInfo)];
    assert fences + FenceOf(request) == fences;
  }

  /** The dispatcher loop: pops requests until the queue is closed, batching
      fences and performing each request's side effect after waiting for the
      batch. Returns the actions, the resulting guest memory and
      `last_frame_waited`, and the fences still batched. */
  method WaitThreadFunction(queue: seq<Option<Request>>, memory: map<Address, uint32>, lastFrameWaited: nat)
    returns (actions: seq<Action>, memory': map<Address, uint32>, lastFrameWaited': nat, fences: seq<Handle>)
    ensures var reqs := Delivered(queue);
      DispatchState(fences, actions, memory', lastFrameWaited') == Run(Start(memory, lastFrameWaited), reqs, |reqs|)
    // no fence is lost or reordered, no wait is empty, and memory changes only by the traced writes
    ensures var reqs := Delivered(queue);
      AllWaited(actions) + fences == FencesOf(reqs, |reqs|)
    ensures NoEmptyWaits(actions)
    ensures memory' == ApplyWrites(memory, actions, 0, |actions|)
  {
    fences, actions, memory', lastFrameWaited' := [], [], memory, lastFrameWaited;
    ghost var reqs := Delivered(queue);
    ghost var start := Start(memory, lastFrameWaited);
    ghost var t := start;
    var i := 0;
    while i < |queue|
      invariant i <= |reqs| && t == Run(start, reqs, i)
      invariant t == DispatchState(fences, actions, memory', lastFrameWaited')
    {
      var waitRequest := queue[i];
      if waitRequest.None? {
        break;
      }
      fences, actions, memory', lastFrameWaited' := HandleRequest(waitRequest.value, fences, actions, memory', lastFrameWaited');
      t := Step(t, reqs[i]);
      i := i + 1;
    }
    assert i == |reqs|;
    RunFromStart(memory, lastFrameWaited, reqs, t);
  }

  /** What the fold from the thread's initial state guarantees. */
  lemma RunFromStart(memory: map<Address, uint32>, lastFrameWaited: nat, reqs: seq<Request>, t: DispatchState)
    requires t == Run(Start(memory, lastFrameWaited), reqs, |reqs|)
    ensures AllWaited(t.actions) + t.pending == FencesOf(reqs, |reqs|)
    ensures NoEmptyWaits(t.actions)
    ensures t.memory == ApplyWrites(memory, t.actions, 0, |t.actions|)
  {
    var start := Start(memory, lastFrameWaited);
    FencesConserved(start, reqs, |reqs|, t);
    assert AllWaited(start.actions) + start.pending == [];
    WaitsNeverEmpty(start, reqs, |reqs|, t);
    MemoryFollowsWrites(start, reqs, |reqs|, t);
  }

  /** The memory update of a request is the effect of the writes it traces. */
  lemma NotifiedIsTraced(m: map<Address, uint32>, r: Request)
    ensures Notified(m, r) == ApplyWrites(m, Effects(r), 0, |Effects(r)|)
  {
    if r.NotificationRequest? {
      var w1 := if r.first.IsSet() then [Write(r.first.address, r.first.value)] else [];
      var w2 := if r.second.IsSet() then [Write(r.second.address, r.second.value)] else [];
      assert Effects(r) == w1 + w2;
      ApplyWritesAppend(m, w1, w2, 0, |w2|);
    }
  }

  // ---------------------------------------------------------------------------
  // Properties of the fold

  lemma {:induction false} WaitedFencesPrefix(a: seq<Action>, b: seq<Action>, k: nat)
    requires k <= |a|
    ensures WaitedFences(a + b, k) == WaitedFences(a, k)
  {
    if k > 0 {
      WaitedFencesPrefix(a, b, k - 1);
    }
  }

  lemma {:induction false} WaitedFencesAppend(a: seq<Action>, b: seq<Action>, k: nat)
    requires k <= |b|
    ensures WaitedFences(a + b, |a| + k) == AllWaited(a) + WaitedFences(b, k)
  {
    if k == 0 {
      WaitedFencesPrefix(a, b, |a|);
    } else {
      WaitedFencesAppend(a, b, k - 1);
      assert (a + b)[|a| + k - 1] == b[k - 1];
    }
  }

  lemma {:induction false} ApplyWritesPrefix(m: map<Address, uint32>, a: seq<Action>, b: seq<Action>, lo: nat, k: nat)
    requires lo <= k <= |a|
    ensures ApplyWrites(m, a + b, lo, k) == ApplyWrites(m, a, lo, k)
    decreases k
  {
    if k > lo {
      ApplyWritesPrefix(m, a, b, lo, k - 1);
    }
  }

  lemma {:induction false} ApplyWritesAppend(m: map<Address, uint32>, a: seq<Action>, b: seq<Action>, lo: nat, k: nat)
    requires lo <= |a| && k <= |b|
    ensures ApplyWrites(m, a + b, lo, |a| + k) == ApplyWrites(ApplyWrites(m, a, lo, |a|), b, 0, k)
  {
    if k == 0 {
      ApplyWritesPrefix(m, a, b, lo, |a|);
    } else {
      ApplyWritesAppend(m, a, b, lo, k - 1);
      assert (a + b)[|a| + k - 1] == b[k - 1];
    }
  }

  /** A stretch of side effects waits for nothing. */
  lemma {:induction false} EffectsWaitForNothing(effects: seq<Action>, k: nat)
    requires k <= |effects|
    requires forall j :: 0 <= j < |effects| ==> effects[j].IsSideEffect()
    ensures WaitedFences(effects, k) == []
  {
    if k > 0 {
      EffectsWaitForNothing(effects, k - 1);
    }
  }

  lemma EffectsAreSideEffects(r: Request)
    ensures forall k :: 0 <= k < |Effects(r)| ==> Effects(r)[k].IsSideEffect()
  {
  }

  /** The single wait for a batch covers exactly the batch. */
  lemma WaitedFencesOfWait(batch: seq<Handle>)
    ensures AllWaited(WaitFor(batch)) == batch
  {
    if |batch| > 0 {
      assert WaitedFences(WaitFor(batch), 0) == [];
    }
  }

  /** A wait changes no guest memory. */
  lemma WaitWritesNothing(m: map<Address, uint32>, batch: seq<Handle>)
    ensures ApplyWrites(m, WaitFor(batch), 0, |WaitFor(batch)|) == m
  {
    if |batch| > 0 {
      assert ApplyWrites(m, WaitFor(batch), 0, 0) == m;
    }
  }

  /** A notification request without addresses only joins the batch. */
  lemma SilentNotificationOnlyBatches(s: DispatchState, r: Request)
    requires r.NotificationRequest? && !r.first.IsSet() && !r.second.IsSet()
    ensures Step(s, r) == s.(pending := s.pending + [r.fence])
  {
  }

  /** The actions of one request wait, in one call, for exactly the batch
      and its own fence when it has side effects, and for nothing otherwise. */
  lemma EmittedWaits(pending: seq<Handle>, r: Request)
    ensures AllWaited(Emitted(pending, r)) == if HasEffects(r) then pending + FenceOf(r) else []
  {
    if HasEffects(r) {
      var w := WaitFor(pending + FenceOf(r));
      var e := Effects(r);
      EffectsAreSideEffects(r);
      EffectsWaitForNothing(e, |e|);
      WaitedFencesAppend(w, e, |e|);
      WaitedFencesOfWait(pending + FenceOf(r));
    }
  }

  /** One request: what it waited for, followed by what is still pending,
      is what was pending before, followed by its own fence. A request with
      side effects leaves nothing pending. */
  lemma StepFencesConserved(s: DispatchState, r: Request)
    ensures AllWaited(Step(s, r).actions) + Step(s, r).pending == AllWaited(s.actions) + s.pending + FenceOf(r)
    ensures HasEffects(r) ==> Step(s, r).pending == []
  {
    var emitted := Emitted(s.pending, r);
    WaitedFencesAppend(s.actions, emitted, |emitted|);
    EmittedWaits(s.pending, r);
    assert (AllWaited(s.actions) + s.pending) + FenceOf(r) == AllWaited(s.actions) + (s.pending + FenceOf(r));
  }

  /** No fence is lost or reordered: the fences waited for, followed by the
      batch still pending, are the fences of the requests in request order. */
  lemma {:induction false} FencesConserved(st: DispatchState, reqs: seq<Request>, n: nat, t: DispatchState)
    requires n <= |reqs| && t == Run(st, reqs, n)
    ensures AllWaited(t.actions) + t.pending == FencesFrom(AllWaited(st.actions) + st.pending, reqs, n)
  {
    if n > 0 {
      var s, r := Run(st, reqs, n - 1), reqs[n - 1];
      FencesConserved(st, reqs, n - 1, s);
      StepFencesConserved(s, r);
      assert t == Step(s, r);
      assert FencesFrom(AllWaited(st.actions) + st.pending, reqs, n)
        == FencesFrom(AllWaited(st.actions) + st.pending, reqs, n - 1) + FenceOf(r);
    }
  }

  /** An empty batch is never waited for. */
  lemma {:induction false} WaitsNeverEmpty(st: DispatchState, reqs: seq<Request>, n: nat, t: DispatchState)
    requires n <= |reqs| && t == Run(st, reqs, n)
    requires NoEmptyWaits(st.actions)
    ensures NoEmptyWaits(t.actions)
  {
    if n > 0 {
      var s := Run(st, reqs, n - 1);
      WaitsNeverEmpty(st, reqs, n - 1, s);
      StepWaitsNeverEmpty(s, reqs[n - 1]);
    }
  }

  /** One request adds no empty wait. */
  lemma StepWaitsNeverEmpty(s: DispatchState, r: Request)
    requires NoEmptyWaits(s.actions)
    ensures NoEmptyWaits(Step(s, r).actions)
  {
    EffectsAreSideEffects(r);
    if HasEffects(r) {
      var w := WaitFor(s.pending + FenceOf(r));
      assert Step(s, r).actions == s.actions + (w + Effects(r));
    } else {
      assert Step(s, r).actions == s.actions;
    }
  }

  /** The ordering guarantee. Take any state whose waits and batch account
      for `acc` followed by the fences of the first `j - 1` requests, which
      `FencesConserved` shows of every state the fold reaches from a state
      with `acc` waited or batched. Then every side effect emitted while
      handling request `j - 1` is preceded by waits that cover exactly `acc`
      and the fences of requests `0` to `j - 1`, in request order: no effect
      runs before the fence of its own request or of any earlier request has
      been waited for. (Later requests only append to the actions, so this
      stays true.) */
  lemma SideEffectsFollowWaits(s: DispatchState, reqs: seq<Request>, j: nat, k: nat, acc: seq<Handle>)
    requires 0 < j <= |reqs|
    requires AllWaited(s.actions) + s.pending == FencesFrom(acc, reqs, j - 1)
    requires |s.actions| <= k < |Step(s, reqs[j - 1]).actions| && Step(s, reqs[j - 1]).actions[k].IsSideEffect()
    ensures WaitedFences(Step(s, reqs[j - 1]).actions, k) == FencesFrom(acc, reqs, j)
  {
    LastRequestWaitsFirst(s, reqs[j - 1], k);
  }

  /** Within one request: its side effects follow the wait for the batch. */
  lemma LastRequestWaitsFirst(s: DispatchState, r: Request, k: nat)
    requires |s.actions| <= k < |Step(s, r).actions| && Step(s, r).actions[k].IsSideEffect()
    ensures WaitedFences(Step(s, r).actions, k) == AllWaited(s.actions) + s.pending + FenceOf(r)
  {
    if HasEffects(r) {
      EffectsAreSideEffects(r);
      WaitThenEffects(s.actions, s.pending + FenceOf(r), Effects(r), k);
    }
  }

  lemma WaitThenEffects(prefix: seq<Action>, batch: seq<Handle>, effects: seq<Action>, k: nat)
    requires forall i :: 0 <= i < |effects| ==> effects[i].IsSideEffect()
    requires |prefix| <= k < |prefix + (WaitFor(batch) + effects)|
    requires (prefix + (WaitFor(batch) + effects))[k].IsSideEffect()
    ensures WaitedFences(prefix + (WaitFor(batch) + effects), k) == AllWaited(prefix) + batch
  {
    var w := WaitFor(batch);
    var m := k - |prefix| - |w|;
    assert 0 <= m < |effects| by {
      if |batch| > 0 {
        assert (prefix + (w + effects))[|prefix|] == WaitAll(batch);
      }
    }
    WaitedFencesAppend(prefix, w + effects, |w| + m);
    WaitedFencesAppend(w, effects, m);
    EffectsWaitForNothing(effects, m);
    WaitedFencesOfWait(batch);
  }

  /** One request: its memory is the memory before it with the writes it
      appended applied. */
  lemma StepMemory(s: DispatchState, r: Request, mem0: map<Address, uint32>, lo: nat)
    requires lo <= |s.actions|
    requires s.memory == ApplyWrites(mem0, s.actions, lo, |s.actions|)
    ensures |Step(s, r).actions| >= |s.actions|
    ensures Step(s, r).memory == ApplyWrites(mem0, Step(s, r).actions, lo, |Step(s, r).actions|)
  {
    var e := Effects(r);
    if HasEffects(r) {
      var w := WaitFor(s.pending + FenceOf(r));
      assert Step(s, r).actions == s.actions + (w + e);
      ApplyWritesAppend(mem0, s.actions, w + e, lo, |w + e|);
      ApplyWritesAppend(s.memory, w, e, 0, |e|);
      WaitWritesNothing(s.memory, s.pending + FenceOf(r));
      NotifiedIsTraced(s.memory, r);
    } else {
      assert Step(s, r).actions == s.actions;
    }
  }

  /** Guest memory changes only through the writes in the trace, in order. */
  lemma {:induction false} MemoryFollowsWrites(st: DispatchState, reqs: seq<Request>, n: nat, t: DispatchState)
    requires n <= |reqs| && t == Run(st, reqs, n)
    ensures |t.actions| >= |st.actions|
    ensures t.memory == ApplyWrites(st.memory, t.actions, |st.actions|, |t.actions|)
  {
    if n > 0 {
      var s := Run(st, reqs, n - 1);
      MemoryFollowsWrites(st, reqs, n - 1, s);
      assert t == Step(s, reqs[n - 1]);
      StepMemory(s, reqs[n - 1], st.memory, |st.actions|);
    }
  }
}
