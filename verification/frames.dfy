/**
 One server-side coroutine frame: it listens for a call, has it authenticated, rejects it and listens
 again or runs the body, and is finished and destroyed. The log records what is visible from outside.
 */
module Frames {
  import opened Sums
  import opened Rpc

  datatype Method = Unary | ClientStreaming | ServerStreaming | Bidi

  predicate ClientStreams(m: Method) { m.ClientStreaming? || m.Bidi? }

  predicate ServerStreams(m: Method) { m.ServerStreaming? || m.Bidi? }

  /** The operations a body can await; messages are opaque, and 0 is the cleared message. */
  datatype Op = SendMetadata | Read | Write(msg: nat)

  /** The three shapes of the finishing operation. */
  datatype Finish =
    | FinishStream(status: Status)
    | FinishResponse(response: nat, status: Status)
    | FinishError(status: Status)

  /** What becomes visible, in order; `call` numbers the server contexts of the frame. */
  datatype Event =
    | Listened(call: nat)
    | ListenFailed
    | Received(call: nat)
    | OnAuthenticate
    | Authenticated(status: Status)
    | Rejected(call: nat, with: Finish)
    | OnStart
    | Spawned
    | ResponseSet(message: nat)
    | OnOpStart(op: Op)
    | Issued(call: nat, op: Op)
    | OnOpDone(op: Op, ok: bool)
    | StatusSet(status: Status)
    | OnFinish(status: Status, response: Option<nat>)
    | Finished(call: nat, with: Finish)
    | Freed

  datatype Phase =
    | Listening
    | Authenticating   // the hook has not called back yet
    | Rejecting
    | Body             // user code is running
    | Awaiting(op: Op)
    | Finishing
    | Unused           // destroyed by a failed listen event
    | Served           // destroyed by the event of the finishing operation

  /** `context` is the number of the current server context, `stream` the context its stream writes to. */
  datatype Frame = Frame(
    kind: Method,
    phase: Phase,
    context: nat,
    stream: nat,
    status: Status,
    request: nat,
    response: nat,
    log: seq<Event>)

  /** The tags a frame can have at the completion queue. */
  datatype Slot = ListenTag | RejectTag | OpTag | FinishTag

  datatype Input =
    | ListenEvent(ok: bool, request: nat)
    | RejectEvent(ok: bool)
    | OpEvent(ok: bool)
    | FinishEvent(ok: bool)
    | AuthCallback(result: Status)
    | Await(op: Op)
    | SetResponse(response: nat)
    | SpawnNext
    | Return(status: Status)
    | Throw(hookStatus: Status)

  /** The frame after an input, and the tags it has put on the completion queue. */
  datatype Effect = Effect(frame: Frame, issued: seq<Slot>)

  /** A newly created coroutine, suspended at its start and listening. */
  function NewFrame(kind: Method): Effect
  {
    Effect(Frame(kind, Listening, 0, 0, OK, 0, 0, [Listened(0)]), [ListenTag])
  }

  predicate OpAllowed(kind: Method, op: Op)
  {
    match op
    case SendMetadata => true
    case Read => ClientStreams(kind)
    case Write(_) => ServerStreams(kind)
  }

  predicate Accepts(f: Frame, i: Input)
  {
    match i
    case ListenEvent(_, _) => f.phase.Listening?
    case RejectEvent(_) => f.phase.Rejecting?
    case OpEvent(_) => f.phase.Awaiting?
    case FinishEvent(_) => f.phase.Finishing?
    case AuthCallback(_) => f.phase.Authenticating?
    case Await(op) => f.phase.Body? && OpAllowed(f.kind, op)
    case SetResponse(_) => f.phase.Body? && !ServerStreams(f.kind)
    case SpawnNext => f.phase.Body?
    case Return(_) => f.phase.Body?
    case Throw(_) => f.phase.Body?
  }

  /** The finishing operation for the status and response the frame holds. */
  function FinishFor(f: Frame): Finish
  {
    if ServerStreams(f.kind) then FinishStream(f.status)
    else if IsOk(f.status) then FinishResponse(f.response, f.status)
    else FinishError(f.status)
  }

  function FinishHook(f: Frame): Event
  {
    OnFinish(f.status, if !ServerStreams(f.kind) && IsOk(f.status) then Some(f.response) else None)
  }

  function RejectFor(kind: Method, result: Status): Finish
  {
    if ServerStreams(kind) then FinishStream(result) else FinishError(result)
  }

  /** `start_grpc_call`: a fresh request for the methods that have one, and the listen tag. */
  function Listen(f: Frame): Effect
  {
    Effect(f.(phase := Listening, request := if ClientStreams(f.kind) then f.request else 0,
    log := f.log + [Listened(f.context)]), [ListenTag])
  }

  /** `final_suspend`, with the status set by `return_value` or by `unhandled_exception`. */
  function Complete(f: Frame, status: Status): Effect
  {
    var g := f.(status := status);
    Effect(g.(phase := Finishing,
    log := g.log + [StatusSet(status), FinishHook(g), Finished(g.stream, FinishFor(g))]), [FinishTag])
  }

  function Step(f: Frame, i: Input): Effect
    requires Accepts(f, i)
  {
    match i
    case ListenEvent(ok, request) =>
      if !ok then Effect(f.(phase := Unused, log := f.log + [ListenFailed, Freed]), [])
      else Effect(f.(phase := Authenticating, request := if ClientStreams(f.kind) then f.request else request,
      log := f.log + [Received(f.context), OnAuthenticate]), [])
    case AuthCallback(result) =>
      if IsOk(result) then
        Effect(f.(phase := Body, log := f.log + [Authenticated(result), OnStart]), [])
      else
        Effect(f.(phase := Rejecting,
        log := f.log + [Authenticated(result), Rejected(f.stream, RejectFor(f.kind, result))]), [RejectTag])
    case RejectEvent(_) => Listen(f.(context := f.context + 1, stream := f.context + 1))
    case Await(op) =>
      Effect(f.(phase := Awaiting(op), log := f.log + [OnOpStart(op), Issued(f.stream, op)]), [OpTag])
    case OpEvent(ok) => Effect(f.(phase := Body, log := f.log + [OnOpDone(f.phase.op, ok)]), [])
    case SetResponse(r) => Effect(f.(response := r, log := f.log + [ResponseSet(r)]), [])
    case SpawnNext => Effect(f.(log := f.log + [Spawned]), [])
    case Return(status) => Complete(f, status)
    case Throw(hookStatus) => Complete(f, hookStatus)
    case FinishEvent(_) => Effect(f.(phase := Served, log := f.log + [Freed]), [])
  }

  // ---- The protocol of a log -------------------------------------------------------------------

  /** The finishing operation a method kind prescribes for a status: the table of the protocol. */
  predicate RightFinish(kind: Method, status: Status, response: Option<nat>, with: Finish)
  {
    match kind
    case ServerStreaming => with == FinishStream(status) && response.None?
    case Bidi => with == FinishStream(status) && response.None?
    case _ =>
      if status == OK then response.Some? && with == FinishResponse(response.value, OK)
      else response.None? && with == FinishError(status)
  }

  predicate RightReject(kind: Method, status: Status, with: Finish)
  {
    status != OK && with == if kind.ServerStreaming? || kind.Bidi? then FinishStream(status) else FinishError(status)
  }

  /** Between two operations of the body. */
  predicate InBody(e: Event)
  {
    e.OnStart? || e.Spawned? || e.ResponseSet? || e.OnOpDone?
  }

  /** What the body may do next; only the kinds with a single response have one to assign. */
  predicate BodyMove(kind: Method, next: Event)
  {
    || next.Spawned? || next.OnOpStart? || next.StatusSet?
    || (next.ResponseSet? && (kind.Unary? || kind.ClientStreaming?))
  }

  /** Which event may come right after which, for a method kind. */
  predicate Follows(kind: Method, e: Event, next: Event)
  {
    match e
    case Listened(call) => next == Received(call) || next == ListenFailed
    case ListenFailed => next == Freed
    case Received(_) => next == OnAuthenticate
    case OnAuthenticate => next.Authenticated?
    case Authenticated(status) =>
      if status == OK then next == OnStart else next.Rejected? && RightReject(kind, status, next.with)
    case Rejected(call, _) => next == Listened(call + 1)
    case OnStart => BodyMove(kind, next)
    case Spawned => BodyMove(kind, next)
    case ResponseSet(_) => BodyMove(kind, next)
    case OnOpStart(op) => next.Issued? && next.op == op && OpAllowed(kind, op)
    case Issued(_, op) => next.OnOpDone? && next.op == op
    case OnOpDone(_, _) => BodyMove(kind, next)
    case StatusSet(status) => next.OnFinish? && next.status == status
    case OnFinish(status, response) => next.Finished? && RightFinish(kind, status, response, next.with)
    case Finished(_, _) => next == Freed
    case Freed => false
  }

  ghost predicate Protocol(kind: Method, log: seq<Event>)
  {
    && log != [] && log[0] == Listened(0)
    && forall i :: 0 < i < |log| ==> Follows(kind, log[i - 1], log[i])
  }

  function Last(log: seq<Event>): Event
    requires log != []
  {
    log[|log| - 1]
  }

  lemma ProtocolSnoc(kind: Method, log: seq<Event>, e: Event)
    requires Protocol(kind, log) && Follows(kind, Last(log), e)
    ensures Protocol(kind, log + [e]) && Last(log + [e]) == e
  {
  }

  /** The response assigned last in a log, or the cleared one. */
  function Latest(log: seq<Event>): nat
  {
    if log == [] then 0
    else if Last(log).ResponseSet? then Last(log).message
    else Latest(log[..|log| - 1])
  }

  /** Every response sent is the one assigned last before. */
  ghost predicate ResponsesCurrent(log: seq<Event>)
  {
    forall i :: 0 <= i < |log| && log[i].Finished? && log[i].with.FinishResponse? ==>
      log[i].with.response == Latest(log[..i])
  }

  // ---- Counting events -------------------------------------------------------------------------

  ghost function ReceivedOn(call: nat): Event -> nat { (e: Event) => if e == Received(call) then 1 else 0 }

  /** A finishing operation, of a rejection or of the body, on the given call. */
  ghost function AnsweredOn(call: nat): Event -> nat
  {
    (e: Event) => if (e.Rejected? || e.Finished?) && e.call == call then 1 else 0
  }

  ghost function IsStart(e: Event): nat { if e.OnStart? then 1 else 0 }

  ghost function IsFinish(e: Event): nat { if e.OnFinish? then 1 else 0 }

  ghost function IsFreed(e: Event): nat { if e.Freed? then 1 else 0 }

  ghost function IsSpawn(e: Event): nat { if e.Spawned? then 1 else 0 }

  ghost function IsOpStart(e: Event): nat { if e.OnOpStart? then 1 else 0 }

  ghost function IsOpDone(e: Event): nat { if e.OnOpDone? then 1 else 0 }

  // ---- The invariant of a frame ----------------------------------------------------------------

  predicate Destroyed(f: Frame) { f.phase.Unused? || f.phase.Served? }

  predicate InUserCode(f: Frame) { f.phase.Body? || f.phase.Awaiting? }

  /** The body has been entered, whether or not it is over. */
  predicate Entered(f: Frame) { InUserCode(f) || f.phase.Finishing? || f.phase.Served? }

  /** A call was received on the current context and has not been answered yet. */
  predicate OwesAnswer(f: Frame) { f.phase.Authenticating? || InUserCode(f) }

  /** A call was received on the given context. */
  predicate GotCall(f: Frame, call: nat)
  {
    call < f.context || (call == f.context && !f.phase.Listening? && !f.phase.Unused?)
  }

  /** That call has been answered by a finishing operation. */
  predicate Answered(f: Frame, call: nat)
  {
    GotCall(f, call) && !(call == f.context && OwesAnswer(f))
  }

  /** What the log ends with in each phase. */
  ghost predicate LogEnd(f: Frame)
    requires f.log != []
  {
    var e := Last(f.log);
    match f.phase
    case Listening => e == Listened(f.context)
    case Authenticating => e == OnAuthenticate
    case Rejecting => e.Rejected? && e.call == f.context
    case Body => InBody(e)
    case Awaiting(op) => e == Issued(f.context, op)
    case Finishing => e.Finished? && e.call == f.context
    case Unused => e == Freed
    case Served => e == Freed
  }

  function Bit(b: bool): nat { if b then 1 else 0 }

  ghost predicate CallsOk(f: Frame, call: nat)
  {
    && Sum(ReceivedOn(call), f.log) == Bit(GotCall(f, call))
    && Sum(AnsweredOn(call), f.log) == Bit(Answered(f, call))
  }

  ghost predicate HooksOk(f: Frame)
  {
    && Sum(IsStart, f.log) == Bit(Entered(f))
    && Sum(IsFinish, f.log) == Bit(Entered(f) && !InUserCode(f))
    && Sum(IsFreed, f.log) == Bit(Destroyed(f))
    && Sum(IsOpStart, f.log) == Sum(IsOpDone, f.log) + Bit(f.phase.Awaiting?)
  }

  ghost predicate FrameInv(f: Frame)
  {
    && Protocol(f.kind, f.log) && LogEnd(f)
    && f.stream == f.context
    && (forall call :: CallsOk(f, call))
    && HooksOk(f)
    && f.response == Latest(f.log) && ResponsesCurrent(f.log)
    && (f.phase.Listening? && !ClientStreams(f.kind) ==> f.request == 0)
    && (!Entered(f) ==> f.status == OK && f.response == 0)
  }
}
