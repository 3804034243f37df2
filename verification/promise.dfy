/**
  The single-assignment Promise of Jetway/Promise.swift.

  Every step that the source serialises on a promise's private lock queue is modelled as an
  immediate, sequential step. An execution context is modelled by the FIFO log of the work
  submitted to it: the model records which handler would run with which argument, and does
  not run it. What a combinator's child promise ends up holding once that work has run is
  stated by the outcome functions at the end of this module.
*/
module Promises {
  import opened Wrappers

  // ------------------------------------------------------------------ State

  /** `State<Value>`: pending, or resolved for good with a value or an error. */
  datatype State<V, E> = Pending | Fulfilled(value: V) | Rejected(error: E)
  {
    predicate IsPending() { Pending? }
    predicate IsFulfilled() { Fulfilled? }
    predicate IsRejected() { Rejected? }

    /** `value`: present exactly when the state is fulfilled. */
    function Value(): (r: Option<V>)
      ensures r.Some? <==> IsFulfilled()
      ensures r.Some? ==> this == Fulfilled(r.value)
    {
      if Fulfilled? then Some(value) else None
    }

    /** `error`: present exactly when the state is rejected. */
    function Error(): (r: Option<E>)
      ensures r.Some? <==> IsRejected()
      ensures r.Some? ==> this == Rejected(r.value)
    {
      if Rejected? then Some(error) else None
    }
  }

  /** Exactly one of the three state tests holds. */
  lemma ExactlyOneStateTest<V, E>(s: State<V, E>)
    ensures s.IsPending() <==> !s.IsFulfilled() && !s.IsRejected()
    ensures !(s.IsFulfilled() && s.IsRejected())
  {
  }

  /** What `updateState` leaves behind when asked to move to `attempt`: the attempt if the
      promise was still pending, the old state otherwise. */
  function Settle<V, E>(s: State<V, E>, attempt: State<V, E>): (r: State<V, E>)
    ensures !s.Pending? ==> r == s
    ensures s.Pending? ==> r == attempt
  {
    if s.IsPending() then attempt else s
  }

  /** The state after a sequence of `fulfill`/`reject` calls, in order. */
  function SettleAll<V, E>(s: State<V, E>, attempts: seq<State<V, E>>): (r: State<V, E>)
    ensures r == s || r in attempts
    decreases attempts
  {
    if attempts == [] then s else SettleAll(Settle(s, attempts[0]), attempts[1..])
  }

  /** Once resolved, no later `fulfill` or `reject` changes the state. */
  lemma {:induction false} ResolvedStateIsFinal<V, E>(s: State<V, E>, attempts: seq<State<V, E>>)
    requires !s.Pending?
    ensures SettleAll(s, attempts) == s
  {
    if attempts != [] {
      ResolvedStateIsFinal(Settle(s, attempts[0]), attempts[1..]);
    }
  }

  /** On a pending promise the first resolution wins, whatever follows it. */
  lemma {:induction false} FirstResolutionWins<V, E>(attempts: seq<State<V, E>>)
    requires attempts != [] && !attempts[0].Pending?
    ensures SettleAll(Pending, attempts) == attempts[0]
  {
    ResolvedStateIsFinal(attempts[0], attempts[1..]);
  }

  // ------------------------------------------------------- Execution contexts

  /** A dispatch queue, observed through the FIFO log of the work submitted to it.
      `execute` on a dispatch queue is `async`: work is queued, never run inline. */
  class DispatchQueue<J> {
    var log: seq<J>

    constructor ()
      ensures log == []
    {
      log := [];
    }

    method Execute(work: J)
      modifies this
      ensures log == old(log) + [work]
    {
      log := log + [work];
    }
  }

  /** `InvalidatableQueue`: forwards work to its queue until invalidated, then drops it. */
  class InvalidatableQueue<J> {
    var valid: bool
    const queue: DispatchQueue<J>

    constructor (queue: DispatchQueue<J>)
      ensures valid && this.queue == queue
    {
      valid := true;
      this.queue := queue;
    }

    /** There is no way back: nothing in the class sets `valid` again. */
    method Invalidate()
      modifies this
      ensures !valid
    {
      valid := false;
    }

    method Execute(work: J)
      modifies queue
      ensures queue.log == old(queue.log) + (if valid then [work] else [])
    {
      if valid {
        queue.Execute(work);
      }
    }
  }

  /** A sequence of calls made on an InvalidatableQueue. */
  datatype QueueCall<J> = Submit(work: J) | Invalidate

  /** The work an InvalidatableQueue forwards to its queue for a sequence of calls, when it
      starts out valid or not. */
  function Forwarded<J>(valid: bool, calls: seq<QueueCall<J>>): (forwarded: seq<J>)
    ensures |forwarded| <= |calls|
    ensures forall w :: w in forwarded ==> Submit(w) in calls
  {
    if calls == [] then []
    else match calls[0]
      case Invalidate => Forwarded(false, calls[1..])
      case Submit(w) => (if valid then [w] else []) + Forwarded(valid, calls[1..])
  }

  /** After `invalidate()`, every work item is dropped. */
  lemma {:induction false} InvalidatedForwardsNothing<J>(calls: seq<QueueCall<J>>)
    ensures Forwarded(false, calls) == []
  {
    if calls != [] {
      InvalidatedForwardsNothing(calls[1..]);
    }
  }

  /** Whatever is submitted after an invalidation is never forwarded. */
  lemma {:induction false} InvalidationIsPermanent<J>(valid: bool, before: seq<QueueCall<J>>, after: seq<QueueCall<J>>)
    ensures Forwarded(valid, before + [Invalidate] + after) == Forwarded(valid, before)
  {
    if before == [] {
      assert before + [Invalidate] + after == [Invalidate] + after;
      assert ([Invalidate] + after)[1..] == after;
      InvalidatedForwardsNothing(after);
    } else {
      assert (before + [Invalidate] + after)[1..] == before[1..] + [Invalidate] + after;
      match before[0]
      case Invalidate => InvalidationIsPermanent(false, before[1..], after);
      case Submit(w) => InvalidationIsPermanent(valid, before[1..], after);
    }
  }

  /** Before invalidation, every work item is forwarded, once, in submission order. */
  lemma {:induction false} ValidForwardsInOrder<J>(calls: seq<QueueCall<J>>)
    requires forall i :: 0 <= i < |calls| ==> calls[i].Submit?
    ensures |Forwarded(true, calls)| == |calls|
    ensures forall i :: 0 <= i < |calls| ==> Forwarded(true, calls)[i] == calls[i].work
  {
    if calls != [] {
      ValidForwardsInOrder(calls[1..]);
    }
  }

  /** `ExecutionContext`: the place a callback's work is sent to. */
  datatype ExecutionContext<J> =
    | Plain(queue: DispatchQueue<J>)
    | Guarded(wrapper: InvalidatableQueue<J>)
  {
    /** The dispatch queue that ends up holding the work. */
    function Target(): DispatchQueue<J>
    {
      if Plain? then queue else wrapper.queue
    }

    function Frame(): set<InvalidatableQueue<J>>
    {
      if Guarded? then {wrapper} else {}
    }

    /** Whether work submitted now reaches the queue. */
    predicate Accepts()
      reads Frame()
    {
      Guarded? ==> wrapper.valid
    }
  }

  /** `execute(_:)` on either kind of context. */
  method Execute<J>(context: ExecutionContext<J>, work: J)
    modifies context.Target()
    ensures context.Target().log == old(context.Target().log) + (if context.Accepts() then [work] else [])
  {
    match context
    case Plain(q) => q.Execute(work);
    case Guarded(w) => w.Execute(work);
  }

  // --------------------------------------------------------------- Callbacks

  /** A handler stored in a callback record. */
  datatype Handler =
    | NoOp            // `{ _ in }`, stored when no handler was given
    | Client(id: nat) // a closure supplied by the caller, known by its identity
    | ForwardToChild  // a combinator's closure that resolves the child promise it created

  /** A unit of work posted to a context: run `handler` with the value or with the error. */
  datatype Job<V, E> = RunFulfilled(handler: Handler, value: V) | RunRejected(handler: Handler, error: E)

  /** The resolved state a job carries: the value it runs with, or the error. */
  function JobState<V, E>(j: Job<V, E>): (s: State<V, E>)
    ensures !s.Pending?
    ensures s.Fulfilled? <==> j.RunFulfilled?
  {
    match j
    case RunFulfilled(_, v) => Fulfilled(v)
    case RunRejected(_, e) => Rejected(e)
  }

  /** `Callback<Value>`. */
  datatype Callback<V, E> = Callback(
    onFulfilled: Handler,
    onRejected: Handler,
    context: ExecutionContext<Job<V, E>>,
    isCatchCallback: bool)
  {
    /** `callFulfill` / `callReject`: the work this record posts for a resolved state. */
    function JobFor(s: State<V, E>): (j: Job<V, E>)
      requires !s.Pending?
      ensures s.Fulfilled? ==> j == RunFulfilled(onFulfilled, s.value)
      ensures s.Rejected? ==> j == RunRejected(onRejected, s.error)
      ensures JobState(j) == s
    {
      if s.Fulfilled? then RunFulfilled(onFulfilled, s.value) else RunRejected(onRejected, s.error)
    }
  }

  /** The record `addCallbacks` builds: missing handlers become no-ops, and the record counts
      as a catch exactly when a rejection handler was given. */
  function MakeCallback<V, E>(context: ExecutionContext<Job<V, E>>, onFulfilled: Option<Handler>, onRejected: Option<Handler>): (cb: Callback<V, E>)
    ensures cb.context == context
    ensures cb.isCatchCallback <==> onRejected.Some?
    ensures cb.onRejected == (if onRejected.Some? then onRejected.value else NoOp)
    ensures cb.onFulfilled == (if onFulfilled.Some? then onFulfilled.value else NoOp)
  {
    Callback(onFulfilled.GetOr(NoOp), onRejected.GetOr(NoOp), context, onRejected.Some?)
  }

  /** The dispatch queues a list of records can post to. */
  function TargetsOf<V, E>(cbs: seq<Callback<V, E>>): set<DispatchQueue<Job<V, E>>>
  {
    set i | 0 <= i < |cbs| :: cbs[i].context.Target()
  }

  lemma TargetsOfAppend<V, E>(cbs: seq<Callback<V, E>>, cb: Callback<V, E>)
    ensures TargetsOf(cbs + [cb]) == TargetsOf(cbs) + {cb.context.Target()}
  {
    var all := cbs + [cb];
    forall q | q in TargetsOf(all) ensures q in TargetsOf(cbs) + {cb.context.Target()} {
      var i :| 0 <= i < |all| && all[i].context.Target() == q;
      if i < |cbs| {
        assert all[i] == cbs[i];
      }
    }
    forall q | q in TargetsOf(cbs) ensures q in TargetsOf(all) {
      var i :| 0 <= i < |cbs| && cbs[i].context.Target() == q;
      assert all[i] == cbs[i];
    }
    assert all[|cbs|] == cb;
  }

  /** The invalidatable wrappers a list of records goes through. */
  function Guards<V, E>(cbs: seq<Callback<V, E>>): set<InvalidatableQueue<Job<V, E>>>
  {
    if cbs == [] then {} else Guards(cbs[..|cbs| - 1]) + cbs[|cbs| - 1].context.Frame()
  }

  /** The work a drain of `drained` in the resolved state `s` posts to queue `q`, in order:
      one job per record whose context targets `q` and accepts work. */
  function Deliveries<V, E>(drained: seq<Callback<V, E>>, s: State<V, E>, q: DispatchQueue<Job<V, E>>): (jobs: seq<Job<V, E>>)
    requires !s.Pending?
    reads Guards(drained)
  {
    if drained == [] then []
    else
      var last := drained[|drained| - 1];
      Deliveries(drained[..|drained| - 1], s, q)
      + (if last.context.Target() == q && last.context.Accepts() then [last.JobFor(s)] else [])
  }

  /** A drain posts at most one job per record, and every job carries the resolved state:
      the value, or the error. */
  lemma {:induction false} DeliveriesAtMostOnceWithState<V, E>(drained: seq<Callback<V, E>>, s: State<V, E>, q: DispatchQueue<Job<V, E>>)
    requires !s.Pending?
    ensures |Deliveries(drained, s, q)| <= |drained|
    ensures forall j :: j in Deliveries(drained, s, q) ==> JobState(j) == s
  {
    if drained != [] {
      DeliveriesAtMostOnceWithState(drained[..|drained| - 1], s, q);
    }
  }

  /** A drain of a single record posts its job to its own queue, if the context accepts it,
      and nothing anywhere else. */
  lemma DeliveriesOfOne<V, E>(cb: Callback<V, E>, s: State<V, E>)
    requires !s.Pending?
    ensures forall q :: Deliveries([cb], s, q) ==
                        (if cb.context.Target() == q && cb.context.Accepts() then [cb.JobFor(s)] else [])
  {
    assert [cb][..0] == [] && [cb][0] == cb;
  }

  /** When every record goes to the same plain queue, the drain delivers each record exactly
      once, in registration order, with the value or the error. */
  lemma {:induction false} DeliveredOnceInOrder<V, E>(drained: seq<Callback<V, E>>, s: State<V, E>, q: DispatchQueue<Job<V, E>>)
    requires !s.Pending?
    requires forall i :: 0 <= i < |drained| ==> drained[i].context == Plain(q)
    ensures |Deliveries(drained, s, q)| == |drained|
    ensures forall i :: 0 <= i < |drained| ==> Deliveries(drained, s, q)[i] == drained[i].JobFor(s)
  {
    if drained != [] {
      DeliveredOnceInOrder(drained[..|drained| - 1], s, q);
    }
  }

  /** An invalidated context receives nothing from a drain. */
  lemma {:induction false} InvalidatedContextsReceiveNothing<V, E>(drained: seq<Callback<V, E>>, s: State<V, E>, q: DispatchQueue<Job<V, E>>)
    requires !s.Pending?
    requires forall i :: 0 <= i < |drained| ==> drained[i].context.Guarded? && !drained[i].context.wrapper.valid
    ensures Deliveries(drained, s, q) == []
  {
    if drained != [] {
      InvalidatedContextsReceiveNothing(drained[..|drained| - 1], s, q);
    }
  }

  /** The `forEach` of a drain: each record, in order, posts the job for `s` to its context. */
  method Deliver<V, E>(drained: seq<Callback<V, E>>, s: State<V, E>)
    requires !s.Pending?
    modifies TargetsOf(drained)
    ensures forall q :: q in TargetsOf(drained) ==> q.log == old(q.log) + old(Deliveries(drained, s, q))
  {
    var i := 0;
    while i < |drained|
      invariant 0 <= i <= |drained|
      invariant forall q :: q in TargetsOf(drained) ==> q.log == old(q.log) + old(Deliveries(drained[..i], s, q))
    {
      var callback := drained[i];
      assert drained[..i + 1][..i] == drained[..i] && drained[..i + 1][i] == callback;
      assert callback.context.Accepts() == old(callback.context.Accepts());
      Execute(callback.context, callback.JobFor(s));
      i := i + 1;
    }
    assert drained[..i] == drained;
  }

  // ----------------------------------------------------- Unhandled rejections

  /** A call of the fallback hook. */
  datatype Report<E> = Report(purpose: string, error: E)

  predicate HasCatch<V, E>(cbs: seq<Callback<V, E>>)
  {
    exists i :: 0 <= i < |cbs| && cbs[i].isCatchCallback
  }

  /** What a drain of `drained` reports to the fallback hook: the purpose and the error, when
      the state is rejected and none of the drained records was registered as a catch. */
  function FallbackReport<V, E>(s: State<V, E>, drained: seq<Callback<V, E>>, purpose: string): (r: Option<Report<E>>)
    ensures r.Some? <==> s.Rejected? && forall i :: 0 <= i < |drained| ==> !drained[i].isCatchCallback
    ensures r.Some? ==> r.value == Report(purpose, s.error)
  {
    if s.Rejected? && !HasCatch(drained) then Some(Report(purpose, s.error)) else None
  }

  /** A record registered with a rejection handler, among those drained, silences the hook. */
  lemma CatchSilencesFallback<V, E>(s: State<V, E>, drained: seq<Callback<V, E>>, purpose: string,
                                   context: ExecutionContext<Job<V, E>>, onFulfilled: Option<Handler>, onRejected: Handler)
    requires MakeCallback(context, onFulfilled, Some(onRejected)) in drained
    ensures FallbackReport(s, drained, purpose) == None
  {
    var i :| 0 <= i < |drained| && drained[i] == MakeCallback(context, onFulfilled, Some(onRejected));
    assert drained[i].isCatchCallback;
  }

  /** The calls an (optional) hook receives for a report. */
  function HookCalls<E>(installed: bool, report: Option<Report<E>>): seq<Report<E>>
  {
    if installed && report.Some? then [report.value] else []
  }

  /** `RejectedPromise.fallbackCatchBlock`: an optional hook, observed through the calls it
      receives. */
  class FallbackCatchBlock<E> {
    const installed: bool
    var calls: seq<Report<E>>

    constructor (installed: bool)
      ensures this.installed == installed && calls == []
    {
      this.installed := installed;
      calls := [];
    }

    /** `fallbackCatchBlock?(purpose, error)`: nothing happens when no hook is installed. */
    method Call(report: Report<E>)
      modifies this
      ensures calls == old(calls) + HookCalls(installed, Some(report))
    {
      if installed {
        calls := calls + [report];
      }
    }
  }

  // ----------------------------------------------------------------- Promise

  /** `Promise<Value>`, with errors of type `E`. */
  class Promise<V, E> {
    var state: State<V, E>
    var callbacks: seq<Callback<V, E>>
    const purpose: string

    /** Records are only stored while pending: every drain of a resolved promise empties the list. */
    ghost predicate Valid()
      reads this
    {
      !state.Pending? ==> callbacks == []
    }

    /** `init(purpose:)`. */
    constructor (purpose: string)
      ensures Valid() && state == Pending && callbacks == [] && this.purpose == purpose
    {
      state := Pending;
      callbacks := [];
      this.purpose := purpose;
    }

    /** `init(value:)`; `valueDescription` stands for the interpolated value. */
    constructor WithValue(value: V, valueDescription: string)
      ensures Valid() && state == Fulfilled(value) && callbacks == []
      ensures purpose == "Fulfilled Promise (" + valueDescription + ")"
    {
      state := Fulfilled(value);
      callbacks := [];
      purpose := "Fulfilled Promise (" + valueDescription + ")";
    }

    /** `init(error:)`; `errorDescription` stands for the interpolated error. */
    constructor WithError(error: E, errorDescription: string)
      ensures Valid() && state == Rejected(error) && callbacks == []
      ensures purpose == "Rejected Promise (" + errorDescription + ")"
    {
      state := Rejected(error);
      callbacks := [];
      purpose := "Rejected Promise (" + errorDescription + ")";
    }

    /** `value`, read under the lock. */
    function Value(): (r: Option<V>)
      reads this
      ensures r.Some? <==> state.Fulfilled?
      ensures r.Some? ==> state == Fulfilled(r.value)
    {
      state.Value()
    }

    /** `error`, read under the lock. */
    function Error(): (r: Option<E>)
      reads this
      ensures r.Some? <==> state.Rejected?
      ensures r.Some? ==> state == Rejected(r.value)
    {
      state.Error()
    }

    function IsFulfilled(): (b: bool)
      reads this
      ensures b <==> state.Fulfilled?
    {
      Value().Some?
    }

    function IsRejected(): (b: bool)
      reads this
      ensures b <==> state.Rejected?
    {
      Error().Some?
    }

    /** `isPending`, defined through the two accessors; it agrees with the state. */
    function IsPending(): (b: bool)
      reads this
      ensures b <==> state.Pending?
    {
      !IsFulfilled() && !IsRejected()
    }

    /** `fireCallbacksIfCompleted`: while pending, nothing happens. Once resolved, every stored
        record posts its job to its own context, in registration order; the hook gets a report
        when the state is rejected and no drained record is a catch; the list is emptied. */
    method FireCallbacksIfCompleted(hook: FallbackCatchBlock<E>)
      modifies this`callbacks, TargetsOf(callbacks), hook
      ensures state.Pending? ==> callbacks == old(callbacks) && hook.calls == old(hook.calls)
      ensures state.Pending? ==> forall q :: q in TargetsOf(old(callbacks)) ==> q.log == old(q.log)
      ensures !state.Pending? ==> callbacks == []
      ensures !state.Pending? ==>
        forall q :: q in TargetsOf(old(callbacks)) ==> q.log == old(q.log) + old(Deliveries(callbacks, state, q))
      ensures !state.Pending? ==>
        hook.calls == old(hook.calls) + HookCalls(hook.installed, FallbackReport(state, old(callbacks), purpose))
    {
      if state.IsPending() {
        return;
      }
      Deliver(callbacks, state);
      var report := FallbackReport(state, callbacks, purpose);
      if report.Some? {
        hook.Call(report.value);
      }
      callbacks := [];
    }

    /** `updateState`: only a pending promise moves, and moving triggers a drain. */
    method UpdateState(s: State<V, E>, hook: FallbackCatchBlock<E>)
      requires Valid() && !s.Pending?
      modifies this`state, this`callbacks, TargetsOf(callbacks), hook
      ensures Valid() && state == Settle(old(state), s)
      ensures !old(state).Pending? ==> callbacks == old(callbacks) && hook.calls == old(hook.calls)
      ensures old(state).Pending? ==> callbacks == []
      ensures old(state).Pending? ==>
        forall q :: q in TargetsOf(old(callbacks)) ==> q.log == old(q.log) + old(Deliveries(callbacks, s, q))
      ensures old(state).Pending? ==>
        hook.calls == old(hook.calls) + HookCalls(hook.installed, FallbackReport(s, old(callbacks), purpose))
    {
      if !IsPending() {
        return;
      }
      state := s;
      assert forall w | w in Guards(callbacks) :: w.valid == old(w.valid);
      assert forall q | q in TargetsOf(callbacks) :: Deliveries(callbacks, s, q) == old(Deliveries(callbacks, s, q));
      FireCallbacksIfCompleted(hook);
    }

    /** `fulfill(_:)`. */
    method Fulfill(value: V, hook: FallbackCatchBlock<E>)
      requires Valid()
      modifies this`state, this`callbacks, TargetsOf(callbacks), hook
      ensures Valid() && state == Settle(old(state), Fulfilled(value))
      ensures !old(state).Pending? ==> callbacks == old(callbacks) && hook.calls == old(hook.calls)
      ensures old(state).Pending? ==> callbacks == [] && hook.calls == old(hook.calls)
      ensures old(state).Pending? ==>
        forall q :: q in TargetsOf(old(callbacks)) ==> q.log == old(q.log) + old(Deliveries(callbacks, Fulfilled(value), q))
    {
      UpdateState(Fulfilled(value), hook);
    }

    /** `reject(_:)`. */
    method Reject(error: E, hook: FallbackCatchBlock<E>)
      requires Valid()
      modifies this`state, this`callbacks, TargetsOf(callbacks), hook
      ensures Valid() && state == Settle(old(state), Rejected(error))
      ensures !old(state).Pending? ==> callbacks == old(callbacks) && hook.calls == old(hook.calls)
      ensures old(state).Pending? ==> callbacks == []
      ensures old(state).Pending? ==>
        forall q :: q in TargetsOf(old(callbacks)) ==> q.log == old(q.log) + old(Deliveries(callbacks, Rejected(error), q))
      ensures old(state).Pending? ==>
        hook.calls == old(hook.calls) + HookCalls(hook.installed, FallbackReport(state, old(callbacks), purpose))
    {
      UpdateState(Rejected(error), hook);
    }

    /** `addCallbacks`: append a record, then drain. On a pending promise the record waits in
        the list; on a resolved one it is delivered at once and the list stays empty. */
    method AddCallbacks(context: ExecutionContext<Job<V, E>>, onFulfilled: Option<Handler>, onRejected: Option<Handler>,
                        hook: FallbackCatchBlock<E>)
      requires Valid()
      modifies this`callbacks, TargetsOf(callbacks), context.Target(), hook
      ensures Valid()
      ensures state.Pending? ==> callbacks == old(callbacks) + [MakeCallback(context, onFulfilled, onRejected)]
      ensures state.Pending? ==> hook.calls == old(hook.calls) && context.Target().log == old(context.Target().log)
      ensures state.Pending? ==> forall q :: q in TargetsOf(old(callbacks)) ==> q.log == old(q.log)
      ensures !state.Pending? ==> callbacks == []
      ensures !state.Pending? ==>
        context.Target().log == old(context.Target().log)
          + (if context.Accepts() then [MakeCallback(context, onFulfilled, onRejected).JobFor(state)] else [])
      ensures !state.Pending? ==>
        hook.calls == old(hook.calls)
          + HookCalls(hook.installed, if onRejected.Some? || !state.Rejected? then None else Some(Report(purpose, state.error)))
    {
      var callback := MakeCallback(context, onFulfilled, onRejected);
      TargetsOfAppend(callbacks, callback);
      callbacks := callbacks + [callback];
      if !state.Pending? {
        assert callbacks == [callback];
        DeliveriesOfOne(callback, state);
      }
      FireCallbacksIfCompleted(hook);
    }

    /** The three-argument `then`: registers both (optional) client handlers and returns the
        same promise. */
    method Then(context: ExecutionContext<Job<V, E>>, onFulfilled: Option<nat>, onRejected: Option<nat>,
                hook: FallbackCatchBlock<E>) returns (r: Promise<V, E>)
      requires Valid()
      modifies this`callbacks, TargetsOf(callbacks), context.Target(), hook
      ensures r == this && Valid()
      ensures state.Pending? ==>
        callbacks == old(callbacks) + [MakeCallback(context, ClientHandler(onFulfilled), ClientHandler(onRejected))]
      ensures state.Pending? ==> hook.calls == old(hook.calls) && context.Target().log == old(context.Target().log)
      ensures state.Pending? ==> forall q :: q in TargetsOf(old(callbacks)) ==> q.log == old(q.log)
      ensures !state.Pending? ==> callbacks == []
      ensures !state.Pending? ==>
        context.Target().log == old(context.Target().log)
          + (if context.Accepts()
             then [MakeCallback(context, ClientHandler(onFulfilled), ClientHandler(onRejected)).JobFor(state)]
             else [])
      ensures !state.Pending? ==>
        hook.calls == old(hook.calls)
          + HookCalls(hook.installed, if onRejected.Some? || !state.Rejected? then None else Some(Report(purpose, state.error)))
    {
      AddCallbacks(context, ClientHandler(onFulfilled), ClientHandler(onRejected), hook);
      r := this;
    }

    /** `catch`: a `then` with only a rejection handler; the record counts as a catch, so a
        drain that delivers it never reports to the hook. */
    method Catch(context: ExecutionContext<Job<V, E>>, onRejected: nat, hook: FallbackCatchBlock<E>) returns (r: Promise<V, E>)
      requires Valid()
      modifies this`callbacks, TargetsOf(callbacks), context.Target(), hook
      ensures r == this && Valid()
      ensures hook.calls == old(hook.calls)
      ensures state.Pending? ==> callbacks == old(callbacks) + [Callback(NoOp, Client(onRejected), context, true)]
      ensures state.Pending? ==> context.Target().log == old(context.Target().log)
      ensures state.Pending? ==> forall q :: q in TargetsOf(old(callbacks)) ==> q.log == old(q.log)
      ensures !state.Pending? ==> callbacks == []
      ensures !state.Pending? ==>
        context.Target().log == old(context.Target().log)
          + (if context.Accepts() then [Callback(NoOp, Client(onRejected), context, true).JobFor(state)] else [])
    {
      r := Then(context, None, Some(onRejected), hook);
    }

    /** The "flatMap" `then`: a fresh pending child, and a catch-flagged registration on this
        promise whose two handlers resolve the child (see FlatMapOutcome). */
    method FlatMap<W>(context: ExecutionContext<Job<V, E>>, hook: FallbackCatchBlock<E>) returns (child: Promise<W, E>)
      requires Valid()
      modifies this`callbacks, TargetsOf(callbacks), context.Target(), hook
      ensures Valid() && fresh(child) && child.Valid()
      ensures child.state == Pending && child.callbacks == [] && child.purpose == "Child of " + purpose
      ensures hook.calls == old(hook.calls)
      ensures state.Pending? ==> callbacks == old(callbacks) + [ForwardingCallback(context)]
      ensures state.Pending? ==> context.Target().log == old(context.Target().log)
      ensures state.Pending? ==> forall q :: q in TargetsOf(old(callbacks)) ==> q.log == old(q.log)
      ensures !state.Pending? ==> callbacks == []
      ensures !state.Pending? ==>
        context.Target().log == old(context.Target().log)
          + (if context.Accepts() then [ForwardingCallback(context).JobFor(state)] else [])
    {
      child := new Promise<W, E>("Child of " + purpose);
      AddCallbacks(context, Some(ForwardToChild), Some(ForwardToChild), hook);
    }

    /** The "map" `then`: built on the "flatMap" one, so it registers the same way (see
        MapOutcome for what the child receives). */
    method Map<W>(context: ExecutionContext<Job<V, E>>, hook: FallbackCatchBlock<E>) returns (child: Promise<W, E>)
      requires Valid()
      modifies this`callbacks, TargetsOf(callbacks), context.Target(), hook
      ensures Valid() && fresh(child) && child.Valid()
      ensures child.state == Pending && child.callbacks == [] && child.purpose == "Child of " + purpose
      ensures hook.calls == old(hook.calls)
      ensures state.Pending? ==> callbacks == old(callbacks) + [ForwardingCallback(context)]
      ensures state.Pending? ==> context.Target().log == old(context.Target().log)
      ensures state.Pending? ==> forall q :: q in TargetsOf(old(callbacks)) ==> q.log == old(q.log)
      ensures !state.Pending? ==> callbacks == []
      ensures !state.Pending? ==>
        context.Target().log == old(context.Target().log)
          + (if context.Accepts() then [ForwardingCallback(context).JobFor(state)] else [])
    {
      child := FlatMap<W>(context, hook);
    }

    /** `and`: a fresh pending combined promise; this promise gets the "map" registration (whose
        intermediate child gets a catch that rejects the combined promise). See AndOutcome.
        `midContext` is the same queue, typed for the intermediate `Promise<Void>`'s jobs. */
    method And<T>(addition: T, context: ExecutionContext<Job<V, E>>, midContext: ExecutionContext<Job<(), E>>,
                  hook: FallbackCatchBlock<E>) returns (combined: Promise<(V, T), E>)
      requires Valid()
      modifies this`callbacks, TargetsOf(callbacks), context.Target(), midContext.Target(), hook
      ensures Valid() && fresh(combined) && combined.Valid()
      ensures combined.state == Pending && combined.callbacks == [] && combined.purpose == "Child (and) of " + purpose
      ensures hook.calls == old(hook.calls)
      ensures state.Pending? ==> callbacks == old(callbacks) + [ForwardingCallback(context)]
      ensures state.Pending? ==> context.Target().log == old(context.Target().log)
      ensures state.Pending? ==> forall q :: q in TargetsOf(old(callbacks)) ==> q.log == old(q.log)
      ensures !state.Pending? ==> callbacks == []
      ensures !state.Pending? ==>
        context.Target().log == old(context.Target().log)
          + (if context.Accepts() then [ForwardingCallback(context).JobFor(state)] else [])
    {
      combined := new Promise<(V, T), E>("Child (and) of " + purpose);
      var mid := Map<()>(context, hook);
      mid.AddCallbacks(midContext, None, Some(ForwardToChild), hook);
    }

    /** `transform(to:)`: like `and`, with the fixed result in place of the pair. See
        TransformOutcome. */
    method Transform<T>(result: T, context: ExecutionContext<Job<V, E>>, midContext: ExecutionContext<Job<(), E>>,
                        hook: FallbackCatchBlock<E>) returns (transformed: Promise<T, E>)
      requires Valid()
      modifies this`callbacks, TargetsOf(callbacks), context.Target(), midContext.Target(), hook
      ensures Valid() && fresh(transformed) && transformed.Valid()
      ensures transformed.state == Pending && transformed.callbacks == []
      ensures transformed.purpose == "Child (transform) of " + purpose
      ensures hook.calls == old(hook.calls)
      ensures state.Pending? ==> callbacks == old(callbacks) + [ForwardingCallback(context)]
      ensures state.Pending? ==> context.Target().log == old(context.Target().log)
      ensures state.Pending? ==> forall q :: q in TargetsOf(old(callbacks)) ==> q.log == old(q.log)
      ensures !state.Pending? ==> callbacks == []
      ensures !state.Pending? ==>
        context.Target().log == old(context.Target().log)
          + (if context.Accepts() then [ForwardingCallback(context).JobFor(state)] else [])
    {
      transformed := new Promise<T, E>("Child (transform) of " + purpose);
      var mid := Map<()>(context, hook);
      mid.AddCallbacks(midContext, None, Some(ForwardToChild), hook);
    }
  }

  /** A rejected promise on which two `then`s without a rejection handler are registered is
      drained twice, and each drain reports the unobserved rejection to the hook. */
  method RejectionReportedOnEveryDrain<V, E>(error: E, errorDescription: string, queue: DispatchQueue<Job<V, E>>)
    returns (reports: seq<Report<E>>)
    modifies queue
    ensures var report := Report("Rejected Promise (" + errorDescription + ")", error);
      reports == [report, report]
  {
    var hook := new FallbackCatchBlock<E>(true);
    var promise := new Promise<V, E>.WithError(error, errorDescription);
    var _ := promise.Then(Plain(queue), None, None, hook);
    var _ := promise.Then(Plain(queue), Some(0), None, hook);
    reports := hook.calls;
  }

  /** A client closure, if one was given. */
  function ClientHandler(id: Option<nat>): (h: Option<Handler>)
    ensures h.Some? <==> id.Some?
  {
    if id.Some? then Some(Client(id.value)) else None
  }

  /** The record every combinator registers on its parent: both handlers resolve the child. */
  function ForwardingCallback<V, E>(context: ExecutionContext<Job<V, E>>): (cb: Callback<V, E>)
    ensures cb.isCatchCallback && cb.context == context
    ensures cb.onFulfilled == ForwardToChild && cb.onRejected == ForwardToChild
  {
    MakeCallback(context, Some(ForwardToChild), Some(ForwardToChild))
  }

  // ------------------------------------------------------ Combinator outcomes

  /** The state a "flatMap" child reaches once the work its parent posted has run.
      `transform(v)` is the client closure: the state the promise it returns comes to hold,
      or the error it throws. A pending parent leaves the child pending. */
  function FlatMapOutcome<V, W, E>(parent: State<V, E>, transform: V -> Result<State<W, E>, E>): (r: State<W, E>)
    ensures parent.Pending? ==> r.Pending?
    ensures parent.Rejected? ==> r == Rejected(parent.error)
    ensures parent.Fulfilled? && transform(parent.value).Err? ==> r == Rejected(transform(parent.value).error)
    ensures parent.Fulfilled? && transform(parent.value).Ok? ==> r == transform(parent.value).value
  {
    match parent
    case Pending => Pending
    case Rejected(e) => Rejected(e)
    case Fulfilled(v) =>
      match transform(v)
      case Err(e) => Rejected(e)
      case Ok(nested) => nested
  }

  /** What "map" wraps the client closure's result in: `Promise(value:)` or `Promise(error:)`. */
  function Lift<W, E>(r: Result<W, E>): Result<State<W, E>, E>
  {
    match r
    case Ok(w) => Ok(Fulfilled(w))
    case Err(e) => Ok(Rejected(e))
  }

  /** The state a "map" child reaches: "map" is "flatMap" over an already-resolved promise. */
  function MapOutcome<V, W, E>(parent: State<V, E>, f: V -> Result<W, E>): (r: State<W, E>)
    ensures parent.Pending? ==> r.Pending?
    ensures parent.Rejected? ==> r == Rejected(parent.error)
    ensures parent.Fulfilled? && f(parent.value).Ok? ==> r == Fulfilled(f(parent.value).value)
    ensures parent.Fulfilled? && f(parent.value).Err? ==> r == Rejected(f(parent.value).error)
  {
    FlatMapOutcome(parent, (v: V) => Lift(f(v)))
  }

  /** Running `f`, then `g` unless `f` threw. */
  function AndThen<U, V, W, E>(f: U -> Result<V, E>, g: V -> Result<W, E>): U -> Result<W, E>
  {
    (u: U) => match f(u) case Ok(v) => g(v) case Err(e) => Err(e)
  }

  /** Mapping twice is mapping once with the composed function. */
  lemma MapComposes<U, V, W, E>(p: State<U, E>, f: U -> Result<V, E>, g: V -> Result<W, E>)
    ensures MapOutcome(MapOutcome(p, f), g) == MapOutcome(p, AndThen(f, g))
  {
    if p.Fulfilled? {
      var h := AndThen(f, g);
      assert h(p.value) == match f(p.value) case Ok(v) => g(v) case Err(e) => Err(e);
    }
  }

  /** A nested promise that rejects makes the "flatMap" child reject with the same error. */
  lemma FlatMapForwardsNestedRejection<V, W, E>(v: V, transform: V -> Result<State<W, E>, E>, e: E)
    requires transform(v) == Ok(Rejected(e))
    ensures FlatMapOutcome(Fulfilled(v), transform) == Rejected(e)
  {
  }

  /** What the catch on `and`'s intermediate promise passes on: its rejection, if any. */
  function CaughtRejection<X, Y, E>(mid: State<X, E>): (r: State<Y, E>)
    ensures r.Rejected? <==> mid.Rejected?
    ensures mid.Rejected? ==> r.error == mid.error
  {
    if mid.Rejected? then Rejected(mid.error) else Pending
  }

  /** The state `and`'s combined promise reaches: the map closure fulfills it with the pair;
      a rejection travels through the intermediate promise and its catch. */
  function AndOutcome<V, T, E>(parent: State<V, E>, addition: T): (r: State<(V, T), E>)
    ensures parent.Fulfilled? ==> r == Fulfilled((parent.value, addition))
    ensures parent.Rejected? ==> r == Rejected(parent.error)
    ensures parent.Pending? ==> r.Pending?
  {
    match parent
    case Fulfilled(v) => Fulfilled((v, addition))
    case _ => CaughtRejection(MapOutcome(parent, (v: V) => Ok(())))
  }

  /** The state `transform(to:)`'s promise reaches: the fixed result, or the parent's error. */
  function TransformOutcome<V, T, E>(parent: State<V, E>, result: T): (r: State<T, E>)
    ensures parent.Fulfilled? ==> r == Fulfilled(result)
    ensures parent.Rejected? ==> r == Rejected(parent.error)
    ensures parent.Pending? ==> r.Pending?
  {
    match parent
    case Fulfilled(_) => Fulfilled(result)
    case _ => CaughtRejection(MapOutcome(parent, (v: V) => Ok(())))
  }

  // ------------------------------------------------- Running forwarding jobs

  /** Running a job a combinator posted to its parent's context: the closure resolves the
      child to what `outcome` gives for the parent's state (through `fulfill` or `reject`,
      so a child that is already resolved keeps its state, records and hook calls). Resolving
      a pending child drains its records to their queues and gives the hook the child's
      fallback report, as `updateState` does. An outcome that is still pending leaves the
      child alone. */
  method ResolveChild<V(!new), W(!new), E(!new)>(job: Job<V, E>, child: Promise<W, E>, outcome: State<V, E> -> State<W, E>,
                               hook: FallbackCatchBlock<E>)
    requires job.handler == ForwardToChild && child.Valid()
    modifies child`state, child`callbacks, TargetsOf(child.callbacks), hook
    ensures child.Valid() && child.state == Settle(old(child.state), outcome(JobState(job)))
    ensures !old(child.state).Pending? || outcome(JobState(job)).Pending? ==>
      child.callbacks == old(child.callbacks) && hook.calls == old(hook.calls)
      && forall q :: q in TargetsOf(old(child.callbacks)) ==> q.log == old(q.log)
    ensures old(child.state).Pending? && !outcome(JobState(job)).Pending? ==> child.callbacks == []
    ensures old(child.state).Pending? && !outcome(JobState(job)).Pending? ==>
      forall q :: q in TargetsOf(old(child.callbacks)) ==>
        q.log == old(q.log) + old(Deliveries(child.callbacks, outcome(JobState(job)), q))
    ensures old(child.state).Pending? && !outcome(JobState(job)).Pending? ==>
      hook.calls == old(hook.calls)
        + HookCalls(hook.installed, FallbackReport(outcome(JobState(job)), old(child.callbacks), child.purpose))
  {
    var s := outcome(JobState(job));
    if !s.Pending? {
      child.UpdateState(s, hook);
    }
  }

  /** The job a combinator's registration posts for a resolved parent is a forwarding job
      carrying the parent's state, which is what the Run*Job methods below take. */
  lemma ForwardingJobCarriesState<V, E>(context: ExecutionContext<Job<V, E>>, s: State<V, E>)
    requires !s.Pending?
    ensures ForwardingCallback(context).JobFor(s).handler == ForwardToChild
    ensures JobState(ForwardingCallback(context).JobFor(s)) == s
  {
  }

  /** The "flatMap" job: the child ends as FlatMapOutcome says, once the promise the closure
      returned has resolved. */
  method RunFlatMapJob<V(!new), W(!new), E(!new)>(job: Job<V, E>, child: Promise<W, E>, transform: V -> Result<State<W, E>, E>,
                                hook: FallbackCatchBlock<E>)
    requires job.handler == ForwardToChild && child.Valid()
    modifies child`state, child`callbacks, TargetsOf(child.callbacks), hook
    ensures child.Valid() && child.state == Settle(old(child.state), FlatMapOutcome(JobState(job), transform))
    ensures !old(child.state).Pending? || FlatMapOutcome(JobState(job), transform).Pending? ==>
      child.callbacks == old(child.callbacks) && hook.calls == old(hook.calls)
      && forall q :: q in TargetsOf(old(child.callbacks)) ==> q.log == old(q.log)
    ensures old(child.state).Pending? && !FlatMapOutcome(JobState(job), transform).Pending? ==> child.callbacks == []
    ensures old(child.state).Pending? && !FlatMapOutcome(JobState(job), transform).Pending? ==>
      forall q :: q in TargetsOf(old(child.callbacks)) ==>
        q.log == old(q.log) + old(Deliveries(child.callbacks, FlatMapOutcome(JobState(job), transform), q))
    ensures old(child.state).Pending? && !FlatMapOutcome(JobState(job), transform).Pending? ==>
      hook.calls == old(hook.calls)
        + HookCalls(hook.installed, FallbackReport(FlatMapOutcome(JobState(job), transform), old(child.callbacks), child.purpose))
  {
    ResolveChild(job, child, (s: State<V, E>) => FlatMapOutcome(s, transform), hook);
  }

  /** The "map" job: the child ends as MapOutcome says. */
  method RunMapJob<V(!new), W(!new), E(!new)>(job: Job<V, E>, child: Promise<W, E>, f: V -> Result<W, E>, hook: FallbackCatchBlock<E>)
    requires job.handler == ForwardToChild && child.Valid()
    modifies child`state, child`callbacks, TargetsOf(child.callbacks), hook
    ensures child.Valid() && child.state == Settle(old(child.state), MapOutcome(JobState(job), f))
    ensures !old(child.state).Pending? || MapOutcome(JobState(job), f).Pending? ==>
      child.callbacks == old(child.callbacks) && hook.calls == old(hook.calls)
      && forall q :: q in TargetsOf(old(child.callbacks)) ==> q.log == old(q.log)
    ensures old(child.state).Pending? && !MapOutcome(JobState(job), f).Pending? ==> child.callbacks == []
    ensures old(child.state).Pending? && !MapOutcome(JobState(job), f).Pending? ==>
      forall q :: q in TargetsOf(old(child.callbacks)) ==>
        q.log == old(q.log) + old(Deliveries(child.callbacks, MapOutcome(JobState(job), f), q))
    ensures old(child.state).Pending? && !MapOutcome(JobState(job), f).Pending? ==>
      hook.calls == old(hook.calls)
        + HookCalls(hook.installed, FallbackReport(MapOutcome(JobState(job), f), old(child.callbacks), child.purpose))
  {
    ResolveChild(job, child, (s: State<V, E>) => MapOutcome(s, f), hook);
  }

  /** The jobs of `and`, taken together: the map job fulfills the combined promise with the
      pair, or its intermediate promise's catch rejects it with the parent's error. */
  method RunAndJob<V(!new), T(!new), E(!new)>(job: Job<V, E>, combined: Promise<(V, T), E>, addition: T, hook: FallbackCatchBlock<E>)
    requires job.handler == ForwardToChild && combined.Valid()
    modifies combined`state, combined`callbacks, TargetsOf(combined.callbacks), hook
    ensures combined.Valid() && combined.state == Settle(old(combined.state), AndOutcome(JobState(job), addition))
    ensures !old(combined.state).Pending? ==>
      combined.callbacks == old(combined.callbacks) && hook.calls == old(hook.calls)
    ensures old(combined.state).Pending? ==> combined.callbacks == []
    ensures old(combined.state).Pending? ==>
      forall q :: q in TargetsOf(old(combined.callbacks)) ==>
        q.log == old(q.log) + old(Deliveries(combined.callbacks, AndOutcome(JobState(job), addition), q))
    ensures old(combined.state).Pending? ==>
      hook.calls == old(hook.calls)
        + HookCalls(hook.installed, FallbackReport(AndOutcome(JobState(job), addition), old(combined.callbacks), combined.purpose))
  {
    ResolveChild(job, combined, (s: State<V, E>) => AndOutcome(s, addition), hook);
  }

  /** The jobs of `transform(to:)`, taken together, as for `and`. */
  method RunTransformJob<V(!new), T(!new), E(!new)>(job: Job<V, E>, transformed: Promise<T, E>, result: T, hook: FallbackCatchBlock<E>)
    requires job.handler == ForwardToChild && transformed.Valid()
    modifies transformed`state, transformed`callbacks, TargetsOf(transformed.callbacks), hook
    ensures transformed.Valid() && transformed.state == Settle(old(transformed.state), TransformOutcome(JobState(job), result))
    ensures !old(transformed.state).Pending? ==>
      transformed.callbacks == old(transformed.callbacks) && hook.calls == old(hook.calls)
    ensures old(transformed.state).Pending? ==> transformed.callbacks == []
    ensures old(transformed.state).Pending? ==>
      forall q :: q in TargetsOf(old(transformed.callbacks)) ==>
        q.log == old(q.log) + old(Deliveries(transformed.callbacks, TransformOutcome(JobState(job), result), q))
    ensures old(transformed.state).Pending? ==>
      hook.calls == old(hook.calls)
        + HookCalls(hook.installed, FallbackReport(TransformOutcome(JobState(job), result), old(transformed.callbacks), transformed.purpose))
  {
    ResolveChild(job, transformed, (s: State<V, E>) => TransformOutcome(s, result), hook);
  }
}
