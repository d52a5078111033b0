/** The code the mocked-handler macro generates for one operation kind:
    the kind's injection queue and the three entry points around it. One
    object of this class stands for one operation kind. */
module MockedHandlers {
  import opened Types
  import Injections

  class MockedHandler<A> {
    /** The pending (result code, payload) pairs, head first. */
    var injections: seq<Response>
    /** The operation's real logic, consulted only when nothing is pending. */
    const handle: A -> Reply

    /** A queue starts empty, on its first use. */
    constructor (handle: A -> Reply)
      ensures injections == [] && this.handle == handle
    {
      injections := [];
      this.handle := handle;
    }

    /** Appends a copy of (`err`, `res`) at the tail of the queue. */
    method InjectMock(err: ErrorCode, res: string)
      modifies this
      ensures injections == old(injections) + [Response(err, res)]
      ensures injections == Injections.Step(old(injections), handle, Injections.InjectMock(err, res)).queue
    {
      injections := injections + [Response(err, res)];
    }

    /** Drops every pending pair. */
    method ClearMocks()
      modifies this
      ensures injections == []
      ensures injections == Injections.Step(old(injections), handle, Injections.Event<A>.ClearMocks).queue
    {
      injections := [];
    }

    /** An invocation of the operation. The callback `cb` is mandatory and
        receives `delivered`, exactly once. When a pair is pending, the head is
        popped and handed to the callback, and the real logic is skipped.
        Otherwise the real logic answers: a synchronous handler hands its
        response to the callback before returning, while for a delegating
        handler `delivered` is what the builder's continuation later passes to
        the callback, which is not called here. `status` is what the entry
        point returns. */
    method HandleMocked(cmdHandle: int, args: A, cb: Option<Callback>) returns (delivered: Response, status: ErrorCode)
      requires cb.Some?
      modifies this
      ensures old(injections) != [] ==>
        delivered == old(injections)[0] && injections == old(injections)[1..]
        && status == cb.value(cmdHandle, delivered.err, delivered.payload)
      ensures old(injections) == [] ==>
        delivered == handle(args).response && injections == []
        && status == (if handle(args).Immediate? then cb.value(cmdHandle, delivered.err, delivered.payload)
                      else handle(args).accepted)
      ensures Injections.Step(old(injections), handle, Injections.HandleMocked(args))
           == Injections.Outcome(injections, Some(delivered))
    {
      var callback := cb.value;
      if injections != [] {
        delivered := injections[0];
        injections := injections[1..];
        status := callback(cmdHandle, delivered.err, delivered.payload);
        return;
      }
      var reply := handle(args);
      delivered := reply.response;
      match reply
      case Immediate(response) =>
        status := callback(cmdHandle, response.err, response.payload);
      case Deferred(accepted, response) =>
        status := accepted;
    }
  }
}
