/** The promise of a server task with its awaiters, updating its fields in place. */
module TaskPromise {
  import opened Sums
  import opened Rpc
  import opened Frames
  import opened FrameLifecycle

  /** One more input after an effect. */
  function Then(e: Effect, i: Input): Effect
    requires Accepts(e.frame, i)
  {
    var next := Step(e.frame, i);
    Effect(next.frame, e.issued + next.issued)
  }

  /** After a rejection the frame listens on a new context. */
  lemma RejectThenListen(f: Frame, ok: bool)
    requires FrameInv(f) && f.phase.Rejecting?
    ensures var e := Listen(f.(context := f.context + 1, stream := f.context + 1));
      Step(f, RejectEvent(ok)) == e && FrameInv(e.frame)
  {
    StepFrameInv(f, RejectEvent(ok));
  }

  class Promise {
    const kind: Method

    // The members of the task context.
    var context: nat
    var stream: nat
    var status: Status
    var request: nat
    var response: nat

    // Where the coroutine is suspended, what has been visible, and the tags handed to gRPC.
    var phase: Phase
    var log: seq<Event>
    var issued: seq<Slot>

    function Snapshot(): Frame
      reads this
    {
      Frame(kind, phase, context, stream, status, request, response, log)
    }

    ghost predicate Valid()
      reads this
    {
      FrameInv(Snapshot())
    }

    /** What every life of a frame satisfies, a promise satisfies too: the protocol of its log and its balance. */
    lemma ValidMeansBalanced()
      requires Valid()
      ensures Protocol(kind, log) && Balanced(Snapshot())
    {
      InvBalanced(Snapshot());
    }

    /** The promise is what the effect says, and has issued the tags of the effect after `before`. */
    ghost predicate Is(e: Effect, before: seq<Slot>)
      reads this
    {
      Snapshot() == e.frame && issued == before + e.issued
    }

    /** Construction and `initial_suspend`. */
    constructor (kind: Method)
      ensures this.kind == kind && Valid() && Is(NewFrame(kind), [])
    {
      this.kind := kind;
      context, stream, status, request, response := 0, 0, OK, 0, 0;
      phase, log, issued := Listening, [], [];
      new;
      StartGrpcCall();
      assert Snapshot() == NewFrame(kind).frame;
      NewFrameInv(kind);
    }

    /** `start_grpc_call`. */
    method StartGrpcCall()
      modifies this
      ensures Is(Listen(old(Snapshot())), old(issued))
    {
      if !ClientStreams(kind) {
        request := 0;
      }
      log := log + [Listened(context)];
      issued := issued + [ListenTag];
      phase := Listening;
    }

    /**
     `handle_event` of the initial awaiter. `message` is what gRPC stored as the request, and `auth` the
     answer of an authentication hook that calls back before it returns.
     */
    method InitialHandleEvent(idx: nat, ok: bool, message: nat, auth: Option<Status>)
      requires Valid() && (idx == 0 ==> phase.Listening?) && (idx == 1 ==> phase.Rejecting?)
      modifies this
      ensures Valid()
      ensures idx == 0 && (!ok || auth.None?) ==>
        Is(Step(old(Snapshot()), ListenEvent(ok, message)), old(issued))
      ensures idx == 0 && ok && auth.Some? ==>
        Is(Then(Step(old(Snapshot()), ListenEvent(ok, message)), AuthCallback(auth.value)), old(issued))
      ensures idx == 1 ==> Is(Step(old(Snapshot()), RejectEvent(ok)), old(issued))
      ensures idx > 1 ==> Snapshot() == old(Snapshot()) && issued == old(issued)
      ensures idx == 0 && ok && (kind.Unary? || kind.ServerStreaming?) ==> request == message
      ensures idx == 0 ==> Destroyed(Snapshot()) == !ok
      ensures idx == 1 ==> phase.Listening? && context == stream == old(context) + 1
    {
      if idx == 0 {
        OnListenEvent(ok, message);
        if ok && auth.Some? {
          OnAuthenticated(auth.value);
        }
      } else if idx == 1 {
        OnRejectEvent(ok);
      }
    }

    /** Case 0 up to the call of the hook: a failed listen destroys the frame. */
    method OnListenEvent(ok: bool, message: nat)
      requires Valid() && phase.Listening?
      modifies this
      ensures Valid() && Is(Step(old(Snapshot()), ListenEvent(ok, message)), old(issued))
      ensures ok && (kind.Unary? || kind.ServerStreaming?) ==> request == message
    {
      StepFrameInv(Snapshot(), ListenEvent(ok, message));
      if !ok {
        log := log + [ListenFailed, Freed];
        phase := Unused;
      } else {
        if !ClientStreams(kind) {
          request := message;
        }
        log := log + [Received(context), OnAuthenticate];
        phase := Authenticating;
      }
    }

    /** A new context with a stream on it. */
    method ResetContext()
      modifies this
      ensures Snapshot() == old(Snapshot()).(context := old(context) + 1, stream := old(context) + 1)
      ensures issued == old(issued)
    {
      context := context + 1;
      stream := context;
    }

    /** Case 1: a new context, a stream on it, and the same frame listens again. */
    method OnRejectEvent(ok: bool)
      requires Valid() && phase.Rejecting?
      modifies this
      ensures Valid() && Is(Step(old(Snapshot()), RejectEvent(ok)), old(issued))
    {
      ghost var e := Step(Snapshot(), RejectEvent(ok));
      RejectThenListen(Snapshot(), ok);
      ResetContext();
      StartGrpcCall();
      assert Is(e, old(issued));
    }

    /** The callback handed to the authentication hook. */
    method OnAuthenticated(result: Status)
      requires Valid() && phase.Authenticating?
      modifies this
      ensures Valid() && Is(Step(old(Snapshot()), AuthCallback(result)), old(issued))
    {
      StepFrameInv(Snapshot(), AuthCallback(result));
      log := log + [Authenticated(result)];
      if IsOk(result) {
        log := log + [OnStart];
        phase := Body;
      } else {
        if ServerStreams(kind) {
          log := log + [Rejected(stream, FinishStream(result))];
        } else {
          log := log + [Rejected(stream, FinishError(result))];
        }
        issued := issued + [RejectTag];
        phase := Rejecting;
      }
      assert log == Step(old(Snapshot()), AuthCallback(result)).frame.log;
    }

    /** `await_suspend` of the metadata, read and write awaiters. */
    method AwaitOp(op: Op)
      requires Valid() && phase.Body? && OpAllowed(kind, op)
      modifies this
      ensures Valid() && Is(Step(old(Snapshot()), Await(op)), old(issued))
    {
      StepFrameInv(Snapshot(), Await(op));
      phase := Awaiting(op);
      log := log + [OnOpStart(op)];
      log := log + [Issued(stream, op)];
      issued := issued + [OpTag];
      assert log == Step(old(Snapshot()), Await(op)).frame.log;
    }

    /** `handle_event` of those awaiters: the result the body sees is that of the event. */
    method OpHandleEvent(ok: bool) returns (result: bool)
      requires Valid() && phase.Awaiting?
      modifies this
      ensures Valid() && Is(Step(old(Snapshot()), OpEvent(ok)), old(issued)) && result == ok
    {
      StepFrameInv(Snapshot(), OpEvent(ok));
      result := ok;
      log := log + [OnOpDone(phase.op, ok)];
      phase := Body;
    }

    /** The body assigns to `context.response()`. */
    method AssignResponse(message: nat)
      requires Valid() && phase.Body? && !ServerStreams(kind)
      modifies this
      ensures Valid() && Is(Step(old(Snapshot()), SetResponse(message)), old(issued))
    {
      StepFrameInv(Snapshot(), SetResponse(message));
      response := message;
      log := log + [ResponseSet(message)];
    }

    /** The body calls a task function: a second frame, which listens on its own. */
    method SpawnTask(nextKind: Method) returns (next: Promise)
      requires Valid() && phase.Body?
      modifies this
      ensures Valid() && Is(Step(old(Snapshot()), SpawnNext), old(issued))
      ensures fresh(next) && next.Valid() && next.Is(NewFrame(nextKind), [])
    {
      StepFrameInv(Snapshot(), SpawnNext);
      log := log + [Spawned];
      next := new Promise(nextKind);
    }

    method ReturnValue(s: Status)
      modifies this
      ensures Snapshot() == old(Snapshot()).(status := s, log := old(log) + [StatusSet(s)])
      ensures issued == old(issued)
    {
      status := s;
      log := log + [StatusSet(s)];
    }

    /** `unhandled_exception`, where the hook turned the exception into `hookStatus`. */
    method UnhandledException(hookStatus: Status)
      modifies this
      ensures Snapshot() == old(Snapshot()).(status := hookStatus, log := old(log) + [StatusSet(hookStatus)])
      ensures issued == old(issued)
    {
      status := hookStatus;
      log := log + [StatusSet(hookStatus)];
    }

    /** `final_suspend`: the finish hook, then the finishing operation of the method kind. */
    method FinalSuspend()
      modifies this
      ensures var f := old(Snapshot());
        Snapshot() == f.(phase := Finishing, log := f.log + [FinishHook(f), Finished(f.stream, FinishFor(f))])
      ensures issued == old(issued) + [FinishTag]
    {
      if ServerStreams(kind) {
        log := log + [OnFinish(status, None), Finished(stream, FinishStream(status))];
      } else {
        if IsOk(status) {
          log := log + [OnFinish(status, Some(response)), Finished(stream, FinishResponse(response, status))];
        } else {
          log := log + [OnFinish(status, None), Finished(stream, FinishError(status))];
        }
      }
      issued := issued + [FinishTag];
      phase := Finishing;
    }

    /**
     `co_return s`: whatever happened before, what is sent carries `s`, in the form of the method kind,
     and with the response the body has assigned last.
     */
    method CoReturn(s: Status)
      requires Valid() && phase.Body?
      modifies this
      ensures Valid() && Is(Step(old(Snapshot()), Return(s)), old(issued))
      ensures Last(log).Finished? && Last(log).call == context && Last(log).with.status == s
      ensures RightFinish(kind, s, if !ServerStreams(kind) && s == OK then Some(old(response)) else None,
                          Last(log).with)
    {
      StepFrameInv(Snapshot(), Return(s));
      ReturnValue(s);
      FinalSuspend();
      assert log == Step(old(Snapshot()), Return(s)).frame.log;
    }

    /** An exception leaves the body. */
    method BodyThrows(hookStatus: Status)
      requires Valid() && phase.Body?
      modifies this
      ensures Valid() && Is(Step(old(Snapshot()), Throw(hookStatus)), old(issued))
      ensures Last(log).Finished? && Last(log).call == context && Last(log).with.status == hookStatus
    {
      StepFrameInv(Snapshot(), Throw(hookStatus));
      UnhandledException(hookStatus);
      FinalSuspend();
      assert log == Step(old(Snapshot()), Throw(hookStatus)).frame.log;
    }

    /** `handle_event` of the final awaiter destroys the frame, whether or not the event was ok. */
    method FinalHandleEvent(ok: bool)
      requires Valid() && phase.Finishing?
      modifies this
      ensures Valid() && Is(Step(old(Snapshot()), FinishEvent(ok)), old(issued)) && Destroyed(Snapshot())
    {
      StepFrameInv(Snapshot(), FinishEvent(ok));
      log := log + [Freed];
      phase := Served;
    }
  }
}
