/** The injection queue of one operation kind as a state machine over values.
    Every queue operation is one atomic step; `Run` replays a script of steps
    and collects what the callbacks receive. The class in MockedHandlers
    keeps its queue in step with this model. */
module Injections {
  import opened Types

  /** The three entry points the mocked-handler macro generates for an
      operation kind whose real handler takes arguments of type `A`. */
  datatype Event<A> =
    | InjectMock(err: ErrorCode, res: string)
    | ClearMocks
    | HandleMocked(args: A)

  /** The queue after one step, and what the callback received, if anything. */
  datatype Outcome = Outcome(queue: seq<Response>, delivered: Option<Response>)

  /** The queue after a script, and what the callbacks received, in order. */
  datatype Trace = Trace(queue: seq<Response>, delivered: seq<Response>)

  /** One step of the queue of an operation kind whose real logic is `handle`. */
  function Step<A>(queue: seq<Response>, handle: A -> Reply, e: Event<A>): (o: Outcome)
    // a callback is invoked exactly when the operation itself is invoked
    ensures o.delivered.Some? <==> e.HandleMocked?
    // injection appends exactly the pair at the tail and keeps the rest in order
    ensures e.InjectMock? ==>
      |o.queue| == |queue| + 1 && o.queue[..|queue|] == queue
      && o.queue[|queue|] == Response(e.err, e.res)
    ensures e.ClearMocks? ==> o.queue == []
    // an invocation consumes the head when there is one and nothing else
    ensures e.HandleMocked? && queue != [] ==>
      o.delivered == Some(queue[0]) && o.queue == queue[1..]
    // with nothing pending, the real logic answers and the queue stays empty
    ensures e.HandleMocked? && queue == [] ==>
      o.delivered == Some(handle(e.args).response) && o.queue == []
  {
    match e
    case InjectMock(err, res) => Outcome(queue + [Response(err, res)], None)
    case ClearMocks => Outcome([], None)
    case HandleMocked(args) =>
      if queue != [] then Outcome(queue[1..], Some(queue[0]))
      else Outcome([], Some(handle(args).response))
  }

  /** The number of operation invocations in a script. */
  function Invocations<A>(events: seq<Event<A>>): nat
  {
    if events == [] then 0
    else (if events[0].HandleMocked? then 1 else 0) + Invocations(events[1..])
  }

  /** Replays `events` from `queue`, one atomic step after the other. */
  function Run<A>(queue: seq<Response>, handle: A -> Reply, events: seq<Event<A>>): (t: Trace)
    // one callback per invocation, none for the test-control calls
    ensures |t.delivered| == Invocations(events)
    decreases |events|
  {
    if events == [] then Trace(queue, [])
    else
      var o := Step(queue, handle, events[0]);
      var rest := Run(o.queue, handle, events[1..]);
      Trace(rest.queue, Emitted(o) + rest.delivered)
  }

  /** What one step hands to a callback, as a list of zero or one response. */
  function Emitted(o: Outcome): seq<Response>
  {
    if o.delivered.Some? then [o.delivered.value] else []
  }

  /** A non-empty script is its first step followed by the rest. */
  lemma RunUnfold<A>(queue: seq<Response>, handle: A -> Reply, events: seq<Event<A>>)
    requires events != []
    ensures var o := Step(queue, handle, events[0]);
      var rest := Run(o.queue, handle, events[1..]);
      Run(queue, handle, events) == Trace(rest.queue, Emitted(o) + rest.delivered)
  {
  }

  /** The script injecting `xs`, in order. */
  function Injected<A>(xs: seq<Response>): (es: seq<Event<A>>)
  {
    if xs == [] then [] else [InjectMock(xs[0].err, xs[0].payload)] + Injected(xs[1..])
  }

  /** The script invoking the operation once per element of `calls`, in order. */
  function Invoked<A>(calls: seq<A>): (es: seq<Event<A>>)
  {
    if calls == [] then [] else [HandleMocked(calls[0])] + Invoked(calls[1..])
  }

  /** What the real logic answers to each of `calls`. */
  function RealResponses<A>(handle: A -> Reply, calls: seq<A>): (rs: seq<Response>)
    ensures |rs| == |calls|
    ensures forall i :: 0 <= i < |calls| ==> rs[i] == handle(calls[i]).response
  {
    if calls == [] then [] else [handle(calls[0]).response] + RealResponses(handle, calls[1..])
  }

  /** Running two scripts one after the other is running their concatenation. */
  lemma {:induction false} RunAppend<A>(queue: seq<Response>, handle: A -> Reply,
                                        e1: seq<Event<A>>, e2: seq<Event<A>>)
    ensures var t1 := Run(queue, handle, e1);
      var t2 := Run(t1.queue, handle, e2);
      Run(queue, handle, e1 + e2) == Trace(t2.queue, t1.delivered + t2.delivered)
    decreases |e1|
  {
    if e1 == [] {
      assert e1 + e2 == e2;
    } else {
      var o := Step(queue, handle, e1[0]);
      var r1 := Run(o.queue, handle, e1[1..]);
      var r2 := Run(r1.queue, handle, e2);
      assert Run(queue, handle, e1) == Trace(r1.queue, Emitted(o) + r1.delivered) by {
        RunUnfold(queue, handle, e1);
      }
      var rest := Run(o.queue, handle, e1[1..] + e2);
      assert Run(queue, handle, e1 + e2) == Trace(rest.queue, Emitted(o) + rest.delivered) by {
        var e := e1 + e2;
        assert e[0] == e1[0];
        assert e[1..] == e1[1..] + e2;
        RunUnfold(queue, handle, e);
      }
      assert rest == Trace(r2.queue, r1.delivered + r2.delivered) by {
        RunAppend(o.queue, handle, e1[1..], e2);
      }
      assert Emitted(o) + (r1.delivered + r2.delivered) == (Emitted(o) + r1.delivered) + r2.delivered;
    }
  }

  /** Injections deliver nothing and append their pairs to the tail of the
      queue in order, leaving earlier entries untouched. */
  lemma {:induction false} InjectionsAppend<A>(queue: seq<Response>, handle: A -> Reply, xs: seq<Response>)
    ensures Run(queue, handle, Injected<A>(xs)) == Trace(queue + xs, [])
    decreases |xs|
  {
    if xs != [] {
      InjectionsAppend(queue + [xs[0]], handle, xs[1..]);
      assert queue + [xs[0]] + xs[1..] == queue + xs;
    }
  }

  /** As long as enough responses are pending, invocations receive the head
      of the queue one by one, whatever their arguments, and the queue
      shrinks to what was not consumed. */
  lemma {:induction false} DispatchesDrainInOrder<A>(queue: seq<Response>, handle: A -> Reply, calls: seq<A>)
    requires |calls| <= |queue|
    ensures Run(queue, handle, Invoked(calls)) == Trace(queue[|calls|..], queue[..|calls|])
    decreases |calls|
  {
    if calls != [] {
      DispatchesDrainInOrder(queue[1..], handle, calls[1..]);
      assert queue[1..][|calls| - 1..] == queue[|calls|..];
      assert [queue[0]] + queue[1..][..|calls| - 1] == queue[..|calls|];
    }
  }

  /** With nothing pending, every invocation is answered by the real logic. */
  lemma {:induction false} EmptyQueueRunsRealLogic<A>(handle: A -> Reply, calls: seq<A>)
    ensures Run([], handle, Invoked(calls)) == Trace([], RealResponses(handle, calls))
    decreases |calls|
  {
    if calls != [] {
      EmptyQueueRunsRealLogic(handle, calls[1..]);
    }
  }

  /** FIFO: after N injections into an empty queue, the next N invocations
      receive exactly the injected pairs in injection order, and the one after
      them is answered by the real logic. */
  lemma Fifo<A>(handle: A -> Reply, xs: seq<Response>, calls: seq<A>, next: A)
    requires |calls| == |xs|
    ensures Run([], handle, Injected<A>(xs) + Invoked(calls) + [HandleMocked(next)])
         == Trace([], xs + [handle(next).response])
  {
    RunAppend([], handle, Injected<A>(xs) + Invoked(calls), [HandleMocked(next)]);
    RunAppend([], handle, Injected<A>(xs), Invoked(calls));
    InjectionsAppend([], handle, xs);
    assert [] + xs == xs;
    DispatchesDrainInOrder(xs, handle, calls);
    assert xs[|calls|..] == [];
    assert xs[..|calls|] == xs;
  }

  /** While the pending responses cover the invocations, the real logic is
      never consulted: any two real handlers give the same run. */
  lemma {:induction false} CoveredInvocationsIgnoreHandle<A>(queue: seq<Response>, h1: A -> Reply, h2: A -> Reply, calls: seq<A>)
    requires |calls| <= |queue|
    ensures Run(queue, h1, Invoked(calls)) == Run(queue, h2, Invoked(calls))
  {
    DispatchesDrainInOrder(queue, h1, calls);
    DispatchesDrainInOrder(queue, h2, calls);
  }

  /** After clearing, an invocation with no new injection is answered by the
      real logic, not by a stale mock, whatever was pending before. */
  lemma ClearThenRealLogic<A>(queue: seq<Response>, handle: A -> Reply, args: A)
    ensures Run(queue, handle, [ClearMocks, HandleMocked(args)]) == Trace([], [handle(args).response])
  {
    var script := [ClearMocks, HandleMocked(args)];
    assert script[1..] == [HandleMocked(args)];
    assert [HandleMocked(args)][1..] == [];
    assert Run([], handle, [HandleMocked(args)]) == Trace([], [handle(args).response]);
  }

  /** Clearing twice is clearing once, whatever the script that follows. */
  lemma ClearIdempotent<A>(queue: seq<Response>, handle: A -> Reply, rest: seq<Event<A>>)
    ensures Run(queue, handle, [ClearMocks, ClearMocks] + rest) == Run(queue, handle, [ClearMocks] + rest)
  {
  }
}
