/**
 * The local call dispatcher of server/server.go, as a sequential state machine.
 *
 * A `Server` owns the sorted method table, a FIFO queue of pending `Call`s, the
 * outstanding-call counter (Go's `sync.WaitGroup`) and a trace of every step the
 * server takes that its callers can observe: requests to the Returner's allocator,
 * Ack hand-offs, argument releases, answer resolutions, Returner notifications,
 * rejected deliveries and the shutdown hook. No threads are modelled: `HandleCalls`
 * is one run of a dispatch goroutine, and the goroutine that `Ack` starts is a
 * `Handoff` event after which the environment may run `HandleCalls` again.
 * Method bodies are foreign code; each dispatched call is given a `Run`, the
 * sequence of `AllocResults`/`Ack` calls its body makes and the error it returns.
 */
module Dispatch {
  import opened Wrappers
  import opened MethodTable

  /** Errors the server creates or passes on. Only their kind is modelled, not their text. */
  datatype Error =
    | Unimplemented                 // capnp.Unimplemented("unimplemented")
    | MultipleAllocResults          // newError("multiple calls to AllocResults")
    | PlaceArgsFailed(cause: Error) // fmt.Errorf("place args: %v", err), a generic error
    | Foreign(code: nat)            // an error produced by code outside the model

  /** A struct pointer; `Null` is Go's zero `capnp.Struct{}`. */
  datatype Struct = Null | Struct(id: nat)

  /** The two results of a foreign allocation (`Returner.AllocResults`, `newBlankStruct`). */
  datatype AllocReply = AllocReply(results: Struct, err: Option<Error>)

  /** One call a method body makes on its `Call`. */
  datatype Step = AllocStep(size: nat, reply: AllocReply) | AckStep

  /** How one execution of a method body behaves: its calls on the `Call`, then its returned error. */
  datatype Run = Run(steps: seq<Step>, err: Option<Error>)

  /** Does the body acknowledge the call at least once? */
  predicate Acks(run: Run)
  {
    exists i :: 0 <= i < |run.steps| && run.steps[i].AckStep?
  }

  /** None of the first `n` bodies acknowledges its call. */
  ghost predicate NoneAck(runs: seq<Run>, n: nat)
    requires n <= |runs|
  {
    forall k :: 0 <= k < n ==> !Acks(runs[k])
  }

  lemma NoneAckSnoc(runs: seq<Run>, n: nat)
    requires n < |runs| && NoneAck(runs, n) && !Acks(runs[n])
    ensures NoneAck(runs, n + 1)
  {
  }

  /** The answer queue as a three-state value; its pipelining internals are not modelled. */
  datatype AnswerState = Unresolved | Fulfilled(results: Struct) | Rejected(err: Error)

  /** The resolution `handleCall` gives a call whose body returned `err`. */
  function Outcome(results: Struct, err: Option<Error>): AnswerState
  {
    if err.None? then Fulfilled(results) else Rejected(err.value)
  }

  /** `capnp.Recv` without its closures: which method, with which arguments. */
  datatype Delivery = Delivery(id: MethodId, args: Struct)

  /** The context a body runs under. */
  datatype BodyContext =
    | Merged    // callCtx: cancelled when the call's own context or the server's lifetime context is
    | Lifetime  // the server's lifetime context, already cancelled, used while draining

  /** A step of the server that its callers can observe. */
  datatype Event =
    | Dispatched(call: Call, ctx: BodyContext)    // the method body starts
    | AllocRequested(call: Call, size: nat)       // c.recv.Returner.AllocResults(sz)
    | Handoff(call: Call)                         // go c.srv.handleCalls(...) from Ack
    | ArgsReleased(call: Call)                    // c.recv.ReleaseArgs()
    | Resolved(call: Call, outcome: AnswerState)  // c.aq.fulfill / c.aq.reject
    | Returned(call: Call, err: Option<Error>)    // c.recv.Returner.Return(err)
    | RecvRejected(recv: Delivery, reason: Error)        // r.Reject(...) for an unknown method
    | ShutdownHookCalled                          // srv.shutdown.Shutdown()

  /** The mutable part of a `Call`: `alloced`, `results`, `acked`. */
  datatype CallState = CallState(alloced: bool, results: Struct, acked: bool)

  /** The state of a call that `start` has just built. */
  const Fresh := CallState(false, Null, false)

  /** The effect of one body step on the call's state. */
  function StepState(st: CallState, step: Step): CallState
  {
    match step
    case AllocStep(_, reply) => if st.alloced then st else st.(alloced := true, results := reply.results)
    case AckStep => st.(acked := true)
  }

  /** The events one body step produces. */
  function StepEvents(c: Call, st: CallState, step: Step): seq<Event>
  {
    match step
    case AllocStep(size, _) => if st.alloced then [] else [AllocRequested(c, size)]
    case AckStep => if st.acked then [] else [Handoff(c)]
  }

  /** The call's state after its body made `steps`, starting from `Fresh`. */
  function BodyState(steps: seq<Step>): CallState
  {
    if steps == [] then Fresh else StepState(BodyState(steps[..|steps| - 1]), steps[|steps| - 1])
  }

  /** The events a body making `steps` produces. */
  function BodyTrace(c: Call, steps: seq<Step>): seq<Event>
  {
    if steps == [] then []
    else BodyTrace(c, steps[..|steps| - 1]) + StepEvents(c, BodyState(steps[..|steps| - 1]), steps[|steps| - 1])
  }

  /** Everything `handleCall` makes observable for one call, in order. */
  function CallTrace(c: Call, ctx: BodyContext, run: Run): seq<Event>
  {
    [Dispatched(c, ctx)] + BodyTrace(c, run.steps)
    + [ArgsReleased(c), Resolved(c, Outcome(BodyState(run.steps).results, run.err)), Returned(c, run.err)]
  }

  /** The trace of handling `calls` in order, the k-th with `runs[k]`. */
  function DispatchTrace(calls: seq<Call>, ctx: BodyContext, runs: seq<Run>): seq<Event>
    requires |calls| <= |runs|
  {
    if calls == [] then []
    else DispatchTrace(calls[..|calls| - 1], ctx, runs) + CallTrace(calls[|calls| - 1], ctx, runs[|calls| - 1])
  }

  /** Dispatching one more call extends the trace by that call's frame. */
  lemma DispatchTraceSnoc(calls: seq<Call>, n: nat, ctx: BodyContext, runs: seq<Run>)
    requires n < |calls| <= |runs|
    ensures DispatchTrace(calls[..n + 1], ctx, runs) == DispatchTrace(calls[..n], ctx, runs) + CallTrace(calls[n], ctx, runs[n])
  {
    assert calls[..n + 1][..n] == calls[..n];
  }

  lemma ConcatAssoc(a: seq<Event>, b: seq<Event>, c: seq<Event>)
    ensures (a + b) + c == a + (b + c)
  {
  }

  lemma FrameAssoc(t: seq<Event>, d: Event, body: seq<Event>, a: Event, r: Event, ret: Event)
    ensures t + [d] + body + [a] + [r, ret] == t + ([d] + body + [a, r, ret])
  {
  }

  /** The most recent answer promise of a call, `*answerQueue`. */
  class AnswerQueue {
    const id: MethodId
    var state: AnswerState

    constructor (id: MethodId)
      ensures this.id == id && state == Unresolved
    {
      this.id := id;
      state := Unresolved;
    }

    /** `fulfill`: only an unresolved answer can be resolved. */
    method Fulfill(results: Struct)
      requires state == Unresolved
      modifies this
      ensures state == Fulfilled(results)
    {
      state := Fulfilled(results);
    }

    /** `reject`: only an unresolved answer can be resolved. */
    method Reject(err: Error)
      requires state == Unresolved
      modifies this
      ensures state == Rejected(err)
    {
      state := Rejected(err);
    }
  }

  /** `Call`: one ongoing method call. */
  class Call {
    const entry: Method
    const recv: Delivery
    const aq: AnswerQueue
    const srv: Server
    var alloced: bool
    var results: Struct
    var acked: bool

    constructor (entry: Method, recv: Delivery, aq: AnswerQueue, srv: Server)
      ensures this.entry == entry && this.recv == recv && this.aq == aq && this.srv == srv
      ensures State() == Fresh
    {
      this.entry, this.recv, this.aq, this.srv := entry, recv, aq, srv;
      alloced, results, acked := false, Null, false;
    }

    function State(): CallState
      reads this
    {
      CallState(alloced, results, acked)
    }

    /**
     * `Call.AllocResults`: the first call marks the results allocated, whatever the
     * Returner answers, and stores the struct it hands back; every later call fails
     * with `MultipleAllocResults` and changes nothing.
     */
    method AllocResults(size: nat, reply: AllocReply) returns (s: Struct, err: Option<Error>)
      modifies this, srv`trace
      ensures acked == old(acked) && alloced
      ensures old(alloced) ==> s == Null && err == Some(MultipleAllocResults)
      ensures old(alloced) ==> results == old(results) && srv.trace == old(srv.trace)
      ensures !old(alloced) ==> results == reply.results && s == reply.results && err == reply.err
      ensures !old(alloced) ==> srv.trace == old(srv.trace) + [AllocRequested(this, size)]
    {
      if alloced {
        return Null, Some(MultipleAllocResults);
      }
      alloced := true;
      srv.trace := srv.trace + [AllocRequested(this, size)];
      results, err := reply.results, reply.err;
      s := results;
    }

    /**
     * `Call.Ack`: the first call marks the call acknowledged and hands the dispatch
     * loop to a new goroutine; later calls change nothing.
     */
    method Ack()
      modifies this, srv`trace
      ensures alloced == old(alloced) && results == old(results) && acked
      ensures old(acked) ==> srv.trace == old(srv.trace)
      ensures !old(acked) ==> srv.trace == old(srv.trace) + [Handoff(this)]
    {
      if acked {
        return;
      }
      acked := true;
      srv.trace := srv.trace + [Handoff(this)];
    }
  }

  /** Distinct calls with distinct answers. */
  ghost predicate Distinct(q: seq<Call>)
  {
    forall i, j :: 0 <= i < j < |q| ==> q[i] != q[j] && q[i].aq != q[j].aq
  }

  lemma DistinctTail(q: seq<Call>)
    requires Distinct(q) && |q| > 0
    ensures Distinct(q[1..]) && q[0] !in q[1..]
    ensures forall d :: d in q[1..] ==> d.aq != q[0].aq
  {
    forall d | d in q[1..] ensures d != q[0] && d.aq != q[0].aq {
      var i :| 0 <= i < |q[1..]| && q[1..][i] == d;
      assert q[i + 1] == d;
    }
  }

  /** The static value behind Go's `interface{}` arguments: nil or some value. */
  datatype Any = Nil | Value(v: nat)

  /** `capnp.Brand.Value`: either a `serverBrand` or a brand some other hook made. */
  datatype BrandValue = ServerBrand(x: Any) | OtherBrand(v: Any)

  /** `IsServer`: unwraps a `serverBrand`; any other brand yields nil and false. */
  function IsServer(b: BrandValue): (r: (Any, bool))
    ensures r.1 <==> b.ServerBrand?
    ensures r.1 ==> r.0 == b.x
    ensures !r.1 ==> r.0 == Nil
  {
    match b
    case ServerBrand(x) => (x, true)
    case OtherBrand(_) => (Nil, false)
  }

  /** Whether `PlaceArgs` is nil, and if not, what it returns. */
  datatype PlaceArgs = NoPlaceArgs | PlaceArgs(failure: Option<Error>)

  /** `capnp.Send` without its closures; `blank` is what `newBlankStruct(ArgsSize)` returns. */
  datatype Send = Send(id: MethodId, argsSize: nat, placeArgs: PlaceArgs, blank: AllocReply)

  /**
   * `sendArgsToStruct`: no placement callback gives the null struct; otherwise a fresh
   * struct, unless allocating it fails (that error is passed on) or placing the
   * arguments fails (wrapped as a generic placement error).
   */
  function SendArgsToStruct(s: Send): (r: Result<Struct, Error>)
    ensures s.placeArgs.NoPlaceArgs? ==> r == Ok(Null)
    ensures s.placeArgs.PlaceArgs? ==>
      (r.Ok? <==> s.blank.err.None? && s.placeArgs.failure.None?)
    ensures s.placeArgs.PlaceArgs? && r.Ok? ==> r.value == s.blank.results
    ensures s.placeArgs.PlaceArgs? && s.blank.err.Some? ==> r == Err(s.blank.err.value)
    ensures s.placeArgs.PlaceArgs? && s.blank.err.None? && s.placeArgs.failure.Some? ==>
      r == Err(PlaceArgsFailed(s.placeArgs.failure.value))
  {
    match s.placeArgs
    case NoPlaceArgs => Ok(Null)
    case PlaceArgs(failure) =>
      if s.blank.err.Some? then Err(s.blank.err.value)
      else if failure.Some? then Err(PlaceArgsFailed(failure.value))
      else Ok(s.blank.results)
  }

  /** What `Send` hands back. */
  datatype Answer = ErrorAnswer(id: MethodId, err: Error) | Promise(aq: AnswerQueue)

  /** The release function `Send` hands back: a no-op, or the one `structReturner.answer` makes. */
  datatype Release = NoOpRelease | ReturnerRelease

  /** How a run of the dispatch loop ends. */
  datatype LoopExit =
    | Waiting  // blocked in callQueue.Recv on an empty queue
    | Retired  // handled an acknowledged call; the goroutine Ack started has taken over
    | Drained  // the lifetime context was cancelled and the queue has been emptied

  class Server {
    const methods: seq<Method>
    const brand: Any
    const hasShutdownHook: bool
    var cancelled: bool      // handleCallsCtx is done
    var wg: int              // outstanding calls
    var queue: seq<Call>     // callQueue
    var trace: seq<Event>

    /** Some table entry implements `id`. */
    ghost predicate Implements(id: MethodId)
    {
      exists i :: 0 <= i < |methods| && methods[i].id == id
    }

    /** A call as `start` enqueues it. */
    ghost predicate Ready(c: Call)
      reads c, c.aq
    {
      c.srv == this && c.State() == Fresh && c.aq.state == Unresolved
    }

    /** The queue holds distinct, untouched calls with distinct unresolved answers. */
    ghost predicate QueueOk()
      reads this`queue, queue, set c | c in queue :: c.aq
    {
      && Sorted(methods)
      && (forall i :: 0 <= i < |queue| ==> Ready(queue[i]))
      && Distinct(queue)
    }

    /** Between server operations every outstanding call is still queued. */
    ghost predicate Valid()
      reads this`queue, this`wg, queue, set c | c in queue :: c.aq
    {
      QueueOk() && wg == |queue|
    }

    /** `New`: a sorted copy of the methods, an empty queue, no outstanding calls. */
    constructor (methods: seq<Method>, brand: Any, hasShutdownHook: bool)
      ensures Valid()
      ensures Sorted(this.methods) && multiset(this.methods) == multiset(methods)
      ensures this.brand == brand && this.hasShutdownHook == hasShutdownHook
      ensures queue == [] && wg == 0 && !cancelled && trace == []
    {
      var table := NewTable(methods);
      this.methods := table;
      this.brand := brand;
      this.hasShutdownHook := hasShutdownHook;
      cancelled, wg, queue, trace := false, 0, [], [];
    }

    /** `Brand`: wraps the value given to `New`. */
    function Brand(): (b: BrandValue)
      ensures IsServer(b) == (brand, true)
    {
      ServerBrand(brand)
    }

    /**
     * `start`: one more outstanding call, and one fresh call with a fresh unresolved
     * answer at the tail of the queue; that answer is returned.
     */
    method Start(m: Method, r: Delivery) returns (aq: AnswerQueue)
      requires Valid()
      modifies this
      ensures Valid()
      ensures wg == old(wg) + 1
      ensures |queue| == |old(queue)| + 1 && queue[..|old(queue)|] == old(queue)
      ensures fresh(queue[|old(queue)|]) && fresh(aq)
      ensures queue[|old(queue)|].entry == m && queue[|old(queue)|].recv == r && queue[|old(queue)|].aq == aq
      ensures aq.id == r.id && aq.state == Unresolved
      ensures trace == old(trace) && cancelled == old(cancelled)
    {
      wg := wg + 1;
      aq := new AnswerQueue(r.id);
      var c := new Call(m, r, aq, this);
      queue := queue + [c];
    }

    /**
     * `Send`: an unknown method is answered with an "unimplemented" error and a no-op
     * release, and so is an argument failure with its own error; neither touches the
     * queue or the counter. Otherwise the call is started with the placed arguments.
     */
    method Send(s: Send) returns (answer: Answer, release: Release)
      requires Valid()
      modifies this
      ensures Valid()
      ensures trace == old(trace) && cancelled == old(cancelled)
      ensures !Implements(s.id) ==>
        answer == ErrorAnswer(s.id, Unimplemented) && release == NoOpRelease
        && queue == old(queue) && wg == old(wg)
      ensures Implements(s.id) && SendArgsToStruct(s).Err? ==>
        answer == ErrorAnswer(s.id, SendArgsToStruct(s).error) && release == NoOpRelease
        && queue == old(queue) && wg == old(wg)
      ensures Implements(s.id) && SendArgsToStruct(s).Ok? ==>
        && answer.Promise? && fresh(answer.aq) && answer.aq.state == Unresolved && answer.aq.id == s.id
        && release == ReturnerRelease && wg == old(wg) + 1
        && |queue| == |old(queue)| + 1 && queue[..|old(queue)|] == old(queue)
        && queue[|old(queue)|].aq == answer.aq
        && queue[|old(queue)|].entry in methods && queue[|old(queue)|].entry.id == s.id
        && queue[|old(queue)|].recv == Delivery(s.id, SendArgsToStruct(s).value)
    {
      var mm := Find(methods, s.id);
      if mm.None? {
        return ErrorAnswer(s.id, Unimplemented), NoOpRelease;
      }
      var args := SendArgsToStruct(s);
      if args.Err? {
        return ErrorAnswer(mm.value.id, args.error), NoOpRelease;
      }
      var aq := Start(mm.value, Delivery(mm.value.id, args.value));
      answer, release := Promise(aq), ReturnerRelease;
    }

    /**
     * `Recv`: an unknown method is rejected with "unimplemented" and yields no
     * pipeline handle, leaving queue and counter alone; otherwise the call is started.
     */
    method Recv(r: Delivery) returns (pipeline: Option<AnswerQueue>)
      requires Valid()
      modifies this
      ensures Valid()
      ensures cancelled == old(cancelled)
      ensures !Implements(r.id) ==>
        pipeline == None && queue == old(queue) && wg == old(wg)
        && trace == old(trace) + [RecvRejected(r, Unimplemented)]
      ensures Implements(r.id) ==>
        && pipeline.Some? && fresh(pipeline.value) && pipeline.value.state == Unresolved && pipeline.value.id == r.id
        && wg == old(wg) + 1 && trace == old(trace)
        && |queue| == |old(queue)| + 1 && queue[..|old(queue)|] == old(queue)
        && queue[|old(queue)|].aq == pipeline.value && queue[|old(queue)|].recv == r
        && queue[|old(queue)|].entry in methods && queue[|old(queue)|].entry.id == r.id
    {
      var mm := Find(methods, r.id);
      if mm.None? {
        trace := trace + [RecvRejected(r, Unimplemented)];
        return None;
      }
      var aq := Start(mm.value, r);
      pipeline := Some(aq);
    }

    /** The body of a method, run on call `c`: each step is a call on `c`. */
    method RunBody(c: Call, steps: seq<Step>)
      requires c.srv == this && c.State() == Fresh
      modifies c, this`trace
      ensures c.State() == BodyState(steps)
      ensures trace == old(trace) + BodyTrace(c, steps)
    {
      var i := 0;
      while i < |steps|
        invariant 0 <= i <= |steps|
        invariant c.State() == BodyState(steps[..i])
        invariant trace == old(trace) + BodyTrace(c, steps[..i])
      {
        assert steps[..i + 1][..i] == steps[..i];
        match steps[i] {
          case AllocStep(size, reply) =>
            var s, err := c.AllocResults(size, reply);
          case AckStep =>
            c.Ack();
        }
        i := i + 1;
      }
      assert steps[..i] == steps;
    }

    /**
     * `handleCall`: runs the body, then releases the arguments, fulfils the answer if
     * the body returned no error and rejects it with that error otherwise, notifies
     * the Returner with the same error, and retires the call from the counter.
     */
    method HandleCall(c: Call, ctx: BodyContext, run: Run)
      requires QueueOk() && wg == |queue| + 1
      requires Ready(c) && c !in queue && forall d :: d in queue ==> d.aq != c.aq
      modifies this, c, c.aq
      ensures Valid()
      ensures queue == old(queue) && cancelled == old(cancelled) && wg == old(wg) - 1
      ensures c.State() == BodyState(run.steps)
      ensures c.aq.state == Outcome(c.results, run.err)
      ensures trace == old(trace) + CallTrace(c, ctx, run)
    {
      ghost var t0 := trace;
      trace := trace + [Dispatched(c, ctx)];
      RunBody(c, run.steps);
      trace := trace + [ArgsReleased(c)];
      if run.err.None? {
        c.aq.Fulfill(c.results);
      } else {
        c.aq.Reject(run.err.value);
      }
      trace := trace + [Resolved(c, c.aq.state), Returned(c, run.err)];
      wg := wg - 1;
      FrameAssoc(t0, Dispatched(c, ctx), BodyTrace(c, run.steps), ArgsReleased(c), Resolved(c, c.aq.state), Returned(c, run.err));
    }

    /** Call `c` was handled with `run`: its state is what the body left, its answer resolved. */
    ghost predicate Handled(c: Call, run: Run)
      reads c, c.aq
    {
      c.State() == BodyState(run.steps) && c.aq.state == Outcome(c.results, run.err)
    }

    /** The calls `q` at positions below `n` were handled with `runs`. */
    ghost predicate HandledWith(q: seq<Call>, n: nat, runs: seq<Run>)
      requires n <= |q| && n <= |runs|
      reads q, set c | c in q :: c.aq
    {
      forall k :: 0 <= k < n ==> Handled(q[k], runs[k])
    }

    /**
     * `handleCalls`: one run of a dispatch goroutine. While the lifetime context is
     * live it takes calls from the head of the queue and handles them under the merged
     * context, retiring after a call that was acknowledged and waiting when the queue
     * is empty; once the context is cancelled it drains every queued call under the
     * cancelled lifetime context. `runs[k]` is how the body of the k-th call behaves.
     */
    method HandleCalls(runs: seq<Run>) returns (exit: LoopExit, n: nat)
      requires Valid()
      requires |queue| <= |runs|
      modifies this, queue, set c | c in queue :: c.aq
      ensures Valid()
      ensures cancelled == old(cancelled)
      ensures n <= |old(queue)| && queue == old(queue)[n..]
      ensures trace == old(trace) + DispatchTrace(old(queue)[..n], if old(cancelled) then Lifetime else Merged, runs)
      ensures HandledWith(old(queue), n, runs)
      ensures exit == Drained <==> old(cancelled)
      ensures exit == Drained ==> n == |old(queue)|
      ensures exit == Waiting ==> n == |old(queue)| && NoneAck(runs, n)
      ensures exit == Retired ==> 0 < n && Acks(runs[n - 1]) && NoneAck(runs, n - 1)
    {
      if !cancelled {
        // callQueue.Recv(ctx) blocks on an empty queue while the lifetime context is live
        exit, n := Serve(runs);
      } else {
        // callQueue.Recv(ctx) fails at once: drain the queue under the cancelled context
        n := Drain(runs);
        exit := Drained;
        assert old(queue)[..n] == old(queue);
      }
    }

    /** The first loop of `handleCalls`, under a live lifetime context. */
    method Serve(runs: seq<Run>) returns (exit: LoopExit, n: nat)
      requires Valid() && !cancelled
      requires |queue| <= |runs|
      modifies this, queue, set c | c in queue :: c.aq
      ensures Valid() && !cancelled
      ensures n <= |old(queue)| && queue == old(queue)[n..]
      ensures trace == old(trace) + DispatchTrace(old(queue)[..n], Merged, runs)
      ensures HandledWith(old(queue), n, runs)
      ensures exit != Drained
      ensures exit == Waiting ==> n == |old(queue)| && NoneAck(runs, n)
      ensures exit == Retired ==> 0 < n && Acks(runs[n - 1]) && NoneAck(runs, n - 1)
    {
      ghost var q0 := queue;
      n, exit := 0, Waiting;
      while |queue| > 0 && exit == Waiting
        invariant Valid() && !cancelled
        invariant n <= |q0| && queue == q0[n..]
        invariant Distinct(q0)
        invariant trace == old(trace) + DispatchTrace(q0[..n], Merged, runs)
        invariant HandledWith(q0, n, runs)
        invariant exit != Drained
        invariant exit == Waiting ==> NoneAck(runs, n)
        invariant exit == Retired ==> 0 < n && Acks(runs[n - 1]) && NoneAck(runs, n - 1)
        decreases |queue|, if exit == Waiting then 1 else 0
      {
        var acked;
        assert queue[0] == q0[n] && q0[n] in q0;
        n, acked := HandleNext(q0, n, Merged, runs, old(trace));
        BodyAcksIff(runs[n - 1]);
        if acked {
          // another goroutine has taken over
          exit := Retired;
        } else {
          NoneAckSnoc(runs, n - 1);
        }
      }
    }

    /** The second loop of `handleCalls`: every queued call, under the cancelled context. */
    method Drain(runs: seq<Run>) returns (n: nat)
      requires Valid()
      requires |queue| <= |runs|
      modifies this, queue, set c | c in queue :: c.aq
      ensures Valid() && cancelled == old(cancelled)
      ensures n == |old(queue)| && queue == []
      ensures trace == old(trace) + DispatchTrace(old(queue), Lifetime, runs)
      ensures HandledWith(old(queue), n, runs)
    {
      ghost var q0 := queue;
      n := 0;
      while |queue| > 0
        invariant Valid() && cancelled == old(cancelled)
        invariant n <= |q0| && queue == q0[n..]
        invariant Distinct(q0)
        invariant trace == old(trace) + DispatchTrace(q0[..n], Lifetime, runs)
        invariant HandledWith(q0, n, runs)
        decreases |queue|
      {
        var acked;
        assert queue[0] == q0[n] && q0[n] in q0;
        n, acked := HandleNext(q0, n, Lifetime, runs, old(trace));
      }
      assert q0[..n] == q0;
    }

    /** One iteration of either loop of `handleCalls`: pop the head call and handle it. */
    method HandleNext(ghost q0: seq<Call>, n: nat, ctx: BodyContext, runs: seq<Run>, ghost base: seq<Event>)
      returns (n': nat, acked: bool)
      requires Valid() && |queue| > 0
      requires n < |q0| && queue == q0[n..] && |q0| <= |runs|
      requires Distinct(q0)
      requires HandledWith(q0, n, runs)
      requires trace == base + DispatchTrace(q0[..n], ctx, runs)
      modifies this, queue[0], queue[0].aq
      ensures n' == n + 1 && Valid() && queue == q0[n'..] && cancelled == old(cancelled)
      ensures trace == base + DispatchTrace(q0[..n'], ctx, runs)
      ensures HandledWith(q0, n', runs)
      ensures acked == BodyState(runs[n].steps).acked
    {
      var c := queue[0];
      DistinctTail(queue);
      assert forall k :: 0 <= k < n ==> q0[k] != c && q0[k].aq != c.aq;
      queue := queue[1..];
      ghost var done := DispatchTrace(q0[..n], ctx, runs);
      ghost var t0 := trace;
      HandleCall(c, ctx, runs[n]);
      n', acked := n + 1, c.acked;
      ghost var ct := CallTrace(c, ctx, runs[n]);
      assert trace == t0 + ct;
      DispatchTraceSnoc(q0, n, ctx, runs);
      ConcatAssoc(base, done, ct);
      forall k | 0 <= k < n' ensures Handled(q0[k], runs[k]) {
        if k < n {
          assert old(Handled(q0[k], runs[k]));
        }
      }
    }

    /**
     * `Shutdown`: cancels the lifetime context, waits until the counter is zero (the
     * active dispatch goroutine drains every queued call under the cancelled context,
     * `runs[k]` being how the k-th body behaves), then calls the hook if there is one.
     * `Shutdown` must not be called twice.
     */
    method Shutdown(runs: seq<Run>)
      requires Valid() && !cancelled && |queue| <= |runs|
      modifies this, queue, set c | c in queue :: c.aq
      ensures Valid() && cancelled && queue == [] && wg == 0
      ensures trace == old(trace) + DispatchTrace(old(queue), Lifetime, runs)
                       + (if hasShutdownHook then [ShutdownHookCalled] else [])
      ensures HandledWith(old(queue), |old(queue)|, runs)
    {
      cancelled := true;
      // the active handleCalls loop sees the cancelled context and drains the queue
      var n := Drain(runs);
      // srv.wg.Wait() returns: the counter is zero
      assert wg == 0;
      if hasShutdownHook {
        trace := trace + [ShutdownHookCalled];
      }
    }
  }

  /** What a body's steps leave in its call: allocated and acknowledged iff some step did so,
      with the results of the first allocation. */
  lemma {:induction false} BodyStateFacts(steps: seq<Step>)
    ensures BodyState(steps).acked <==> exists i :: 0 <= i < |steps| && steps[i].AckStep?
    ensures BodyState(steps).alloced <==> exists i :: 0 <= i < |steps| && steps[i].AllocStep?
    ensures !BodyState(steps).alloced ==> BodyState(steps).results == Null
    ensures forall i :: 0 <= i < |steps| && steps[i].AllocStep? && (forall j :: 0 <= j < i ==> !steps[j].AllocStep?) ==>
      BodyState(steps).results == steps[i].reply.results
  {
    if steps != [] {
      var init := steps[..|steps| - 1];
      BodyStateFacts(init);
      assert forall i :: 0 <= i < |init| ==> init[i] == steps[i];
    }
  }

  /** A body acknowledges its call exactly when some step is an `Ack`. */
  lemma BodyAcksIff(run: Run)
    ensures BodyState(run.steps).acked <==> Acks(run)
  {
    BodyStateFacts(run.steps);
  }

  /** The kinds of events, to project a trace on one of them. */
  datatype EventKind = DispatchKind | AllocKind | HandoffKind | ReleaseKind | ResolveKind | ReturnKind | RejectKind | HookKind

  function KindOf(e: Event): EventKind
  {
    match e
    case Dispatched(_, _) => DispatchKind
    case AllocRequested(_, _) => AllocKind
    case Handoff(_) => HandoffKind
    case ArgsReleased(_) => ReleaseKind
    case Resolved(_, _) => ResolveKind
    case Returned(_, _) => ReturnKind
    case RecvRejected(_, _) => RejectKind
    case ShutdownHookCalled => HookKind
  }

  /** The events of kind `k` in `t`, in order. */
  function Only(t: seq<Event>, k: EventKind): seq<Event>
  {
    if t == [] then [] else Only(t[..|t| - 1], k) + if KindOf(t[|t| - 1]) == k then [t[|t| - 1]] else []
  }

  lemma {:induction false} OnlyAppend(a: seq<Event>, b: seq<Event>, k: EventKind)
    ensures Only(a + b, k) == Only(a, k) + Only(b, k)
  {
    if b == [] {
      assert a + b == a;
    } else {
      assert (a + b)[..|a + b| - 1] == a + b[..|b| - 1];
      OnlyAppend(a, b[..|b| - 1], k);
    }
  }

  lemma OnlySingle(e: Event, k: EventKind)
    ensures Only([e], k) == if KindOf(e) == k then [e] else []
  {
    assert [e][..0] == [];
  }

  /** The number of events of kind `k` a body making `steps` produces. */
  function BodyEventCount(steps: seq<Step>, k: EventKind): nat
  {
    if k == AllocKind then (if BodyState(steps).alloced then 1 else 0)
    else if k == HandoffKind then (if BodyState(steps).acked then 1 else 0)
    else 0
  }

  /**
   * A body asks the Returner to allocate at most once (exactly when it allocated) and
   * hands the dispatch loop off at most once (exactly when it acknowledged), however
   * often it calls `AllocResults` and `Ack`; it produces no other event.
   */
  lemma {:induction false} BodyTraceCounts(c: Call, steps: seq<Step>, k: EventKind)
    ensures |Only(BodyTrace(c, steps), k)| == BodyEventCount(steps, k)
  {
    if steps != [] {
      var init := steps[..|steps| - 1];
      var last := steps[|steps| - 1];
      var st := BodyState(init);
      var ev := StepEvents(c, st, last);
      assert BodyState(steps) == StepState(st, last);
      assert BodyTrace(c, steps) == BodyTrace(c, init) + ev;
      BodyTraceCounts(c, init, k);
      OnlyAppend(BodyTrace(c, init), ev, k);
      match last {
        case AllocStep(size, _) =>
          if !st.alloced {
            OnlySingle(AllocRequested(c, size), k);
          }
        case AckStep =>
          if !st.acked {
            OnlySingle(Handoff(c), k);
          }
      }
    }
  }

  /** The kinds of event `handleCall` itself adds, once per call. */
  predicate IsFrameKind(k: EventKind)
  {
    k.DispatchKind? || k.ReleaseKind? || k.ResolveKind? || k.ReturnKind?
  }

  /** The one event of frame kind `k` that handling `c` with `run` adds. */
  function FrameEvent(c: Call, ctx: BodyContext, run: Run, k: EventKind): (e: Event)
    requires IsFrameKind(k)
    ensures KindOf(e) == k
  {
    match k
    case DispatchKind => Dispatched(c, ctx)
    case ReleaseKind => ArgsReleased(c)
    case ResolveKind => Resolved(c, Outcome(BodyState(run.steps).results, run.err))
    case ReturnKind => Returned(c, run.err)
  }

  /**
   * Handling one call dispatches it, releases its arguments, resolves its answer
   * (fulfilled iff the body returned no error, rejected with that error otherwise) and
   * notifies the Returner with the body's error, in that order and once each.
   */
  lemma CallTraceShape(c: Call, ctx: BodyContext, run: Run)
    ensures var t := CallTrace(c, ctx, run);
      && |t| >= 4 && t[0] == Dispatched(c, ctx)
      && t[|t| - 3] == ArgsReleased(c)
      && t[|t| - 2].Resolved? && t[|t| - 2].call == c && (t[|t| - 2].outcome.Fulfilled? <==> run.err.None?)
      && (run.err.Some? ==> t[|t| - 2].outcome == Rejected(run.err.value))
      && t[|t| - 1] == Returned(c, run.err)
  {
  }

  /**
   * Projected on one kind, a call's trace is its body's allocation requests or
   * hand-offs (at most one of each), exactly the one event `handleCall` adds, or
   * nothing (no rejections, no hook).
   */
  lemma CallTraceOnly(c: Call, ctx: BodyContext, run: Run, k: EventKind)
    ensures k == AllocKind || k == HandoffKind ==>
      Only(CallTrace(c, ctx, run), k) == Only(BodyTrace(c, run.steps), k) && |Only(CallTrace(c, ctx, run), k)| <= 1
    ensures IsFrameKind(k) ==> Only(CallTrace(c, ctx, run), k) == [FrameEvent(c, ctx, run, k)]
    ensures k == RejectKind || k == HookKind ==> Only(CallTrace(c, ctx, run), k) == []
  {
    var b := BodyTrace(c, run.steps);
    var d := Dispatched(c, ctx);
    var rel := ArgsReleased(c);
    var res := Resolved(c, Outcome(BodyState(run.steps).results, run.err));
    var ret := Returned(c, run.err);
    assert CallTrace(c, ctx, run) == [d] + b + [rel] + [res] + [ret];
    BodyTraceCounts(c, run.steps, k);
    OnlyAppend([d] + b + [rel] + [res], [ret], k);
    OnlyAppend([d] + b + [rel], [res], k);
    OnlyAppend([d] + b, [rel], k);
    OnlyAppend([d], b, k);
    OnlySingle(d, k);
    OnlySingle(rel, k);
    OnlySingle(res, k);
    OnlySingle(ret, k);
  }

  /** Projected on a frame kind, dispatching one more call adds that call's one event. */
  lemma DispatchTraceOnlySnoc(calls: seq<Call>, ctx: BodyContext, runs: seq<Run>, k: EventKind)
    requires 0 < |calls| <= |runs| && IsFrameKind(k)
    ensures Only(DispatchTrace(calls, ctx, runs), k)
      == Only(DispatchTrace(calls[..|calls| - 1], ctx, runs), k) + [FrameEvent(calls[|calls| - 1], ctx, runs[|calls| - 1], k)]
  {
    var init := calls[..|calls| - 1];
    var c := calls[|calls| - 1];
    var run := runs[|calls| - 1];
    CallTraceOnly(c, ctx, run, k);
    OnlyAppend(DispatchTrace(init, ctx, runs), CallTrace(c, ctx, run), k);
  }

  /**
   * Handling `calls` in order dispatches, releases, resolves and returns each of them
   * exactly once and in queue order: the i-th event of each of these kinds belongs to
   * `calls[i]` and carries its context, its answer's resolution and its body's error.
   */
  lemma {:induction false} DispatchTraceOrder(calls: seq<Call>, ctx: BodyContext, runs: seq<Run>, k: EventKind)
    requires |calls| <= |runs| && IsFrameKind(k)
    ensures var t := Only(DispatchTrace(calls, ctx, runs), k);
      |t| == |calls| && forall i :: 0 <= i < |calls| ==> t[i] == FrameEvent(calls[i], ctx, runs[i], k)
  {
    if calls != [] {
      var init := calls[..|calls| - 1];
      DispatchTraceOrder(init, ctx, runs, k);
      DispatchTraceOnlySnoc(calls, ctx, runs, k);
      var t0 := Only(DispatchTrace(init, ctx, runs), k);
      var t := Only(DispatchTrace(calls, ctx, runs), k);
      forall i | 0 <= i < |calls| ensures t[i] == FrameEvent(calls[i], ctx, runs[i], k) {
        if i < |init| {
          assert init[i] == calls[i] && t[i] == t0[i];
        }
      }
    }
  }
}
