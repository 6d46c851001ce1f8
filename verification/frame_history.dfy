/** What a frame holds and logs, as functions of the inputs of its life alone. */
module FrameHistory {
  import opened Sums
  import opened Rpc
  import opened Frames
  import opened FrameLifecycle

  // ---- The request -------------------------------------------------------------------------------

  /** The message of the last call received in a life, or `before` if there was none. */
  function LastRequest(before: nat, inputs: seq<Input>): nat
    decreases |inputs|
  {
    if inputs == [] then before
    else LastRequest(if inputs[0].ListenEvent? && inputs[0].ok then inputs[0].request else before, inputs[1..])
  }

  /** The methods whose request is one message, which gRPC stores before the listen event. */
  predicate SingleRequest(kind: Method)
  {
    kind.Unary? || kind.ServerStreaming?
  }

  /** A call is there: it has been received, and the frame has not listened again. */
  predicate HasCall(f: Frame)
  {
    !f.phase.Listening? && !f.phase.Unused?
  }

  lemma {:induction false} LifeRequest(f: Frame, inputs: seq<Input>, g: Frame, before: nat)
    requires Lives(f, inputs, g) && SingleRequest(f.kind) && (HasCall(f) ==> f.request == before)
    ensures HasCall(g) ==> g.request == LastRequest(before, inputs)
    decreases |inputs|
  {
    if inputs != [] {
      var i := inputs[0];
      LifeRequest(Step(f, i).frame, inputs[1..], g, if i.ListenEvent? && i.ok then i.request else before);
    }
  }

  /**
   In every life, from the call that was received until the frame listens again or is destroyed, and so
   in the hook and in the whole body, the request is the message of that call; the methods that
   stream it have none.
   */
  lemma RequestDelivered(kind: Method, inputs: seq<Input>, f: Frame)
    requires Lives(NewFrame(kind).frame, inputs, f)
    ensures HasCall(f) ==> f.request == if SingleRequest(kind) then LastRequest(0, inputs) else 0
    ensures f.phase.Listening? ==> f.request == 0
  {
    NewFrameInv(kind);
    LivesInv(NewFrame(kind).frame, inputs, f);
    LifeContext(NewFrame(kind).frame, inputs, f);
    if SingleRequest(kind) {
      LifeRequest(NewFrame(kind).frame, inputs, f, 0);
    }
  }

  // ---- The log -----------------------------------------------------------------------------------

  /** What can be told of a life from its log, and from its inputs. */
  datatype Note =
    | Listens
    | Called
    | NotCalled
    | Verdict(status: Status)
    | Assigns(response: nat)
    | Creates
    | Awaits(op: Op)
    | Gets(ok: bool)
    | Ends(status: Status)
    | Dies

  /** What an event of the log tells; hooks and answers follow from the protocol. */
  ghost function Told(e: Event): seq<Note>
  {
    match e
    case Listened(_) => [Listens]
    case Received(_) => [Called]
    case ListenFailed => [NotCalled]
    case Authenticated(status) => [Verdict(status)]
    case ResponseSet(message) => [Assigns(message)]
    case Spawned => [Creates]
    case Issued(_, op) => [Awaits(op)]
    case OnOpDone(_, ok) => [Gets(ok)]
    case StatusSet(status) => [Ends(status)]
    case Freed => [Dies]
    case _ => []
  }

  /** What an input means. */
  ghost function Meant(i: Input): seq<Note>
  {
    match i
    case ListenEvent(ok, _) => if ok then [Called] else [NotCalled, Dies]
    case RejectEvent(_) => [Listens]
    case OpEvent(ok) => [Gets(ok)]
    case FinishEvent(_) => [Dies]
    case AuthCallback(result) => [Verdict(result)]
    case Await(op) => [Awaits(op)]
    case SetResponse(response) => [Assigns(response)]
    case SpawnNext => [Creates]
    case Return(status) => [Ends(status)]
    case Throw(hookStatus) => [Ends(hookStatus)]
  }

  lemma AddedTold(f: Frame, i: Input)
    requires Accepts(f, i)
    ensures Spread(Told, Added(f, i)) == Meant(i)
  {
  }

  lemma StepTold(f: Frame, i: Input)
    requires Accepts(f, i)
    ensures Collect(Told, Added(f, i)) == Meant(i)
  {
    CollectAdded(Told, f, i);
    AddedTold(f, i);
  }

  lemma {:induction false} LifeTold(f: Frame, inputs: seq<Input>, g: Frame)
    requires Lives(f, inputs, g)
    ensures Collect(Told, g.log) == Collect(Told, f.log) + Collect(Meant, inputs)
    decreases |inputs|
  {
    if inputs != [] {
      LifeTold(Step(f, inputs[0]).frame, inputs[1..], g);
      CollectConcat(Told, f.log, Added(f, inputs[0]));
      StepTold(f, inputs[0]);
      Assoc(Collect(Told, f.log), Meant(inputs[0]), Collect(Meant, inputs[1..]));
    }
  }

  /**
   The log theorem. In every life, what the log tells is what the inputs mean, one for one and in
   order, whatever was rejected and whatever the events reported.
   */
  lemma LogTellsLife(kind: Method, inputs: seq<Input>, f: Frame)
    requires Lives(NewFrame(kind).frame, inputs, f)
    ensures Collect(Told, f.log) == [Listens] + Collect(Meant, inputs)
  {
    var start := NewFrame(kind).frame;
    LifeTold(start, inputs, f);
    assert start.log == [] + [Listened(0)];
    CollectSnoc(Told, [], Listened(0));
  }

  /** An operation is only ever issued by a method kind that has it. */
  lemma OperationsOfKind(kind: Method, inputs: seq<Input>, f: Frame, i: nat)
    requires Lives(NewFrame(kind).frame, inputs, f) && i < |f.log| && f.log[i].Issued?
    ensures f.log[i].op.Read? ==> kind.ClientStreaming? || kind.Bidi?
    ensures f.log[i].op.Write? ==> kind.ServerStreaming? || kind.Bidi?
  {
    Lifecycle(kind, inputs, f);
    assert Follows(kind, f.log[i - 1], f.log[i]);
  }
}
