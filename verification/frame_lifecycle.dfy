/** Every life of a single frame, for any number of rejected calls and any body. */
module FrameLifecycle {
  import opened Sums
  import opened Rpc
  import opened Frames

  lemma SumTwo<T(!new)>(f: T -> nat, log: seq<T>, a: T, b: T)
    ensures Sum(f, log + [a, b]) == Sum(f, log) + f(a) + f(b)
  {
    assert log + [a, b] == log + [a] + [b];
    SumSnoc(f, log, a);
    SumSnoc(f, log + [a], b);
  }

  lemma SumThree<T(!new)>(f: T -> nat, log: seq<T>, a: T, b: T, c: T)
    ensures Sum(f, log + [a, b, c]) == Sum(f, log) + f(a) + f(b) + f(c)
  {
    assert log + [a, b, c] == log + [a, b] + [c];
    SumTwo(f, log, a, b);
    SumSnoc(f, log + [a, b], c);
  }

  /** The weight, under `w`, of a short list of events. */
  ghost function Weight(w: Event -> nat, more: seq<Event>): nat
    requires |more| <= 3
  {
    if |more| == 0 then 0
    else if |more| == 1 then w(more[0])
    else if |more| == 2 then w(more[0]) + w(more[1])
    else w(more[0]) + w(more[1]) + w(more[2])
  }

  /** How an input changes a sum over the log. */
  lemma StepSum(w: Event -> nat, f: Frame, i: Input)
    requires Accepts(f, i)
    ensures Sum(w, Step(f, i).frame.log) == Sum(w, f.log) + Weight(w, Added(f, i))
  {
    var more := Added(f, i);
    if |more| == 0 {
      assert f.log + more == f.log;
    } else if |more| == 1 {
      assert more == [more[0]];
      SumSnoc(w, f.log, more[0]);
    } else if |more| == 2 {
      assert more == [more[0], more[1]];
      SumTwo(w, f.log, more[0], more[1]);
    } else {
      assert more == [more[0], more[1], more[2]];
      SumThree(w, f.log, more[0], more[1], more[2]);
    }
  }

  /** The events an input adds to the log. */
  function Added(f: Frame, i: Input): (more: seq<Event>)
    requires Accepts(f, i)
    ensures Step(f, i).frame.log == f.log + more && |more| <= 3
  {
    match i
    case ListenEvent(ok, _) => if ok then [Received(f.context), OnAuthenticate] else [ListenFailed, Freed]
    case AuthCallback(r) =>
      if IsOk(r) then [Authenticated(r), OnStart] else [Authenticated(r), Rejected(f.stream, RejectFor(f.kind, r))]
    case RejectEvent(_) => [Listened(f.context + 1)]
    case Await(op) => [OnOpStart(op), Issued(f.stream, op)]
    case OpEvent(ok) => [OnOpDone(f.phase.op, ok)]
    case SetResponse(r) => [ResponseSet(r)]
    case SpawnNext => [Spawned]
    case Return(st) => var g := f.(status := st); [StatusSet(st), FinishHook(g), Finished(g.stream, FinishFor(g))]
    case Throw(st) => var g := f.(status := st); [StatusSet(st), FinishHook(g), Finished(g.stream, FinishFor(g))]
    case FinishEvent(_) => [Freed]
  }

  /** A new frame has logged its first listen only. */
  lemma NewFrameSum(kind: Method, w: Event -> nat)
    ensures Sum(w, NewFrame(kind).frame.log) == w(Listened(0))
  {
    assert NewFrame(kind).frame.log == [Listened(0)];
    assert [Listened(0)][1..] == [];
  }

  lemma NewFrameCounts(kind: Method)
    ensures HooksOk(NewFrame(kind).frame)
    ensures forall call :: CallsOk(NewFrame(kind).frame, call)
  {
    NewFrameSum(kind, IsStart);
    NewFrameSum(kind, IsFinish);
    NewFrameSum(kind, IsFreed);
    NewFrameSum(kind, IsOpStart);
    NewFrameSum(kind, IsOpDone);
    forall call ensures CallsOk(NewFrame(kind).frame, call) {
      NewFrameSum(kind, ReceivedOn(call));
      NewFrameSum(kind, AnsweredOn(call));
    }
  }

  lemma NewFrameInv(kind: Method)
    ensures FrameInv(NewFrame(kind).frame)
  {
    NewFrameCounts(kind);
  }

  lemma StepProtocol(f: Frame, i: Input)
    requires Protocol(f.kind, f.log) && LogEnd(f) && f.stream == f.context && Accepts(f, i)
    ensures var g := Step(f, i).frame; g.kind == f.kind && Protocol(g.kind, g.log) && LogEnd(g)
  {
    var more := Added(f, i);
    var log := f.log;
    if |more| > 0 {
      ProtocolSnoc(f.kind, log, more[0]);
      log := log + [more[0]];
    }
    if |more| > 1 {
      ProtocolSnoc(f.kind, log, more[1]);
      log := log + [more[1]];
    }
    if |more| > 2 {
      ProtocolSnoc(f.kind, log, more[2]);
      log := log + [more[2]];
    }
    assert log == f.log + more;
  }

  /** The call a new event belongs to is the current one, and only a listen event can receive it. */
  lemma CallWeights(f: Frame, i: Input, call: nat)
    requires f.stream == f.context && Accepts(f, i)
    ensures Weight(ReceivedOn(call), Added(f, i)) == Bit(i.ListenEvent? && i.ok && call == f.context)
    ensures Weight(AnsweredOn(call), Added(f, i))
      == Bit(call == f.context && (i.Return? || i.Throw? || (i.AuthCallback? && !IsOk(i.result))))
  {
  }

  lemma CallBits(f: Frame, i: Input, call: nat)
    requires f.stream == f.context && Accepts(f, i)
    ensures Bit(GotCall(Step(f, i).frame, call))
      == Bit(GotCall(f, call)) + Bit(i.ListenEvent? && i.ok && call == f.context)
    ensures Bit(Answered(Step(f, i).frame, call)) == Bit(Answered(f, call))
      + Bit(call == f.context && (i.Return? || i.Throw? || (i.AuthCallback? && !IsOk(i.result))))
  {
  }

  lemma StepCalls(f: Frame, i: Input, call: nat)
    requires CallsOk(f, call) && f.stream == f.context && Accepts(f, i)
    ensures CallsOk(Step(f, i).frame, call)
  {
    StepSum(ReceivedOn(call), f, i);
    StepSum(AnsweredOn(call), f, i);
    CallWeights(f, i, call);
    CallBits(f, i, call);
  }

  lemma HookWeights(f: Frame, i: Input)
    requires Accepts(f, i)
    ensures Weight(IsStart, Added(f, i)) == Bit(i.AuthCallback? && IsOk(i.result))
    ensures Weight(IsFinish, Added(f, i)) == Bit(i.Return? || i.Throw?)
    ensures Weight(IsFreed, Added(f, i)) == Bit(i.FinishEvent? || (i.ListenEvent? && !i.ok))
    ensures Weight(IsOpStart, Added(f, i)) == Bit(i.Await?)
    ensures Weight(IsOpDone, Added(f, i)) == Bit(i.OpEvent?)
    ensures Weight(IsSpawn, Added(f, i)) == Bit(i.SpawnNext?)
  {
  }

  lemma StepHooks(f: Frame, i: Input)
    requires HooksOk(f) && Accepts(f, i)
    ensures HooksOk(Step(f, i).frame)
  {
    HookWeights(f, i);
    StepSum(IsStart, f, i);
    StepSum(IsFinish, f, i);
    StepSum(IsFreed, f, i);
    StepSum(IsOpStart, f, i);
    StepSum(IsOpDone, f, i);
  }

  /** One more event keeps every response current, if it sends the latest one or none. */
  lemma CurrentSnoc(log: seq<Event>, e: Event)
    requires ResponsesCurrent(log)
    requires e.Finished? && e.with.FinishResponse? ==> e.with.response == Latest(log)
    ensures ResponsesCurrent(log + [e])
    ensures Latest(log + [e]) == if e.ResponseSet? then e.message else Latest(log)
  {
    var more := log + [e];
    assert more[..|log|] == log;
    forall i | 0 <= i < |more| && more[i].Finished? && more[i].with.FinishResponse?
      ensures more[i].with.response == Latest(more[..i])
    {
      if i < |log| {
        assert more[..i] == log[..i];
      }
    }
  }

  lemma {:induction false} CurrentExtends(log: seq<Event>, more: seq<Event>)
    requires ResponsesCurrent(log) && forall k :: 0 <= k < |more| ==> !more[k].ResponseSet?
    requires forall k :: 0 <= k < |more| ==>
      (more[k].Finished? && more[k].with.FinishResponse? ==> more[k].with.response == Latest(log))
    ensures ResponsesCurrent(log + more) && Latest(log + more) == Latest(log)
    decreases |more|
  {
    if more == [] {
      assert log + more == log;
    } else {
      CurrentSnoc(log, more[0]);
      CurrentExtends(log + [more[0]], more[1..]);
      assert log + [more[0]] + more[1..] == log + more;
    }
  }

  /** The frame's response stays the one assigned last, and is the one a finishing operation sends. */
  lemma StepResponse(f: Frame, i: Input)
    requires f.response == Latest(f.log) && ResponsesCurrent(f.log) && Accepts(f, i)
    ensures var g := Step(f, i).frame; g.response == Latest(g.log) && ResponsesCurrent(g.log)
  {
    if i.SetResponse? {
      CurrentSnoc(f.log, ResponseSet(i.response));
    } else {
      CurrentExtends(f.log, Added(f, i));
    }
  }

  lemma StepFrameInv(f: Frame, i: Input)
    requires FrameInv(f) && Accepts(f, i)
    ensures FrameInv(Step(f, i).frame)
  {
    StepProtocol(f, i);
    StepHooks(f, i);
    StepResponse(f, i);
    forall call ensures CallsOk(Step(f, i).frame, call) {
      assert CallsOk(f, call);
      StepCalls(f, i, call);
    }
  }

  /** The frame `f` becomes `g` by the given inputs. */
  ghost predicate Lives(f: Frame, inputs: seq<Input>, g: Frame)
    decreases |inputs|
  {
    if inputs == [] then f == g
    else Accepts(f, inputs[0]) && Lives(Step(f, inputs[0]).frame, inputs[1..], g)
  }

  lemma {:induction false} LivesInv(f: Frame, inputs: seq<Input>, g: Frame)
    requires FrameInv(f) && Lives(f, inputs, g)
    ensures FrameInv(g) && g.kind == f.kind
    decreases |inputs|
  {
    if inputs != [] {
      StepFrameInv(f, inputs[0]);
      LivesInv(Step(f, inputs[0]).frame, inputs[1..], g);
    }
  }

  /**
   What the log of a frame adds up to: the body was entered at most once; every call received was
   answered by exactly one finishing operation unless it is still in progress; the frame was freed
   exactly when it is destroyed; and every start hook has its finish hook once the body is over.
   */
  ghost predicate Balanced(f: Frame)
  {
    && Sum(IsStart, f.log) <= 1 && Sum(IsFreed, f.log) == Bit(Destroyed(f))
    && (!InUserCode(f) ==> Sum(IsFinish, f.log) == Sum(IsStart, f.log))
    && (!f.phase.Awaiting? ==> Sum(IsOpStart, f.log) == Sum(IsOpDone, f.log))
    && (forall call :: Sum(AnsweredOn(call), f.log) <= Sum(ReceivedOn(call), f.log) <= 1)
    && (forall call :: call != f.context || !OwesAnswer(f) ==>
      Sum(AnsweredOn(call), f.log) == Sum(ReceivedOn(call), f.log))
  }

  lemma InvBalanced(f: Frame)
    requires FrameInv(f)
    ensures Balanced(f)
  {
    forall call
      ensures Sum(AnsweredOn(call), f.log) <= Sum(ReceivedOn(call), f.log) <= 1
      ensures call != f.context || !OwesAnswer(f) ==>
        Sum(AnsweredOn(call), f.log) == Sum(ReceivedOn(call), f.log)
    {
      assert CallsOk(f, call);
    }
  }

  /**
   The lifecycle theorem: however many calls were rejected and whatever the body did, the log follows
   the protocol of the method kind and balances.
   */
  lemma Lifecycle(kind: Method, inputs: seq<Input>, f: Frame)
    requires Lives(NewFrame(kind).frame, inputs, f)
    ensures Protocol(kind, f.log) && Balanced(f)
  {
    NewFrameInv(kind);
    LivesInv(NewFrame(kind).frame, inputs, f);
    InvBalanced(f);
  }

  /** In every life of a frame, the body starts only right after an accepted authentication. */
  lemma StartAfterAcceptance(kind: Method, inputs: seq<Input>, f: Frame, i: nat)
    requires Lives(NewFrame(kind).frame, inputs, f) && i < |f.log| && f.log[i] == OnStart
    ensures 4 <= i && f.log[i - 1] == Authenticated(OK) && f.log[i - 2] == OnAuthenticate
    ensures f.log[i - 3].Received? && f.log[i - 4] == Listened(f.log[i - 3].call)
  {
    Lifecycle(kind, inputs, f);
    assert Follows(kind, f.log[i - 1], f.log[i]);
    assert Follows(kind, f.log[i - 2], f.log[i - 1]);
    assert Follows(kind, f.log[i - 3], f.log[i - 2]);
    assert Follows(kind, f.log[i - 4], f.log[i - 3]);
  }

  // ---- What a life sends, as a function of its inputs alone ------------------------------------------

  /** The finishing operation an event stands for, of a rejection or of the body. */
  ghost function Answer(e: Event): seq<Finish>
  {
    if e.Rejected? || e.Finished? then [e.with] else []
  }

  /** The finishing operations in a log, in order. */
  ghost function Answers(log: seq<Event>): seq<Finish>
  {
    Collect(Answer, log)
  }

  /** What `w` makes of a short list of events. */
  ghost function Spread<U>(w: Event -> seq<U>, more: seq<Event>): seq<U>
    requires |more| <= 3
  {
    if |more| == 0 then []
    else if |more| == 1 then w(more[0])
    else if |more| == 2 then w(more[0]) + w(more[1])
    else w(more[0]) + w(more[1]) + w(more[2])
  }

  lemma CollectAdded<U>(w: Event -> seq<U>, f: Frame, i: Input)
    requires Accepts(f, i)
    ensures Collect(w, Added(f, i)) == Spread(w, Added(f, i))
  {
    var more := Added(f, i);
    if |more| == 1 {
      assert more == [] + [more[0]];
      CollectSnoc(w, [], more[0]);
    } else if |more| == 2 {
      assert more == [more[0], more[1]];
      CollectPair(w, more[0], more[1]);
    } else if |more| == 3 {
      assert more == [more[0], more[1], more[2]];
      CollectTriple(w, more[0], more[1], more[2]);
    }
  }

  /** What a method kind sends for a status, kind by kind. */
  function Prescribed(kind: Method, status: Status, response: nat): Finish
  {
    match kind
    case ServerStreaming => FinishStream(status)
    case Bidi => FinishStream(status)
    case _ => if status == OK then FinishResponse(response, OK) else FinishError(status)
  }

  lemma FinishPrescribed(f: Frame)
    ensures FinishFor(f) == Prescribed(f.kind, f.status, f.response)
  {
  }

  /** The answer an input asks for. */
  function AnswerTo(kind: Method, response: nat, i: Input): seq<Finish>
  {
    match i
    case AuthCallback(result) =>
      if result == OK then []
      else if kind.ServerStreaming? || kind.Bidi? then [FinishStream(result)]
      else [FinishError(result)]
    case Return(status) => [Prescribed(kind, status, response)]
    case Throw(status) => [Prescribed(kind, status, response)]
    case _ => []
  }

  /** What the inputs ask to be sent: each refusal of the hook, then the status the body ends with. */
  function AnswersTo(kind: Method, response: nat, inputs: seq<Input>): seq<Finish>
    decreases |inputs|
  {
    if inputs == [] then []
    else
      AnswerTo(kind, response, inputs[0])
      + AnswersTo(kind, if inputs[0].SetResponse? then inputs[0].response else response, inputs[1..])
  }

  /** An input contributes to the log exactly the answer it asks for. */
  lemma StepAnswers(f: Frame, i: Input)
    requires Accepts(f, i)
    ensures Answers(Added(f, i)) == AnswerTo(f.kind, f.response, i)
  {
    CollectAdded(Answer, f, i);
    if i.Return? || i.Throw? {
      FinishPrescribed(f.(status := if i.Return? then i.status else i.hookStatus));
    }
  }

  lemma {:induction false} LifeAnswers(f: Frame, inputs: seq<Input>, g: Frame)
    requires Lives(f, inputs, g)
    ensures Answers(g.log) == Answers(f.log) + AnswersTo(f.kind, f.response, inputs)
    decreases |inputs|
  {
    if inputs != [] {
      LifeAnswers(Step(f, inputs[0]).frame, inputs[1..], g);
      CollectConcat(Answer, f.log, Added(f, inputs[0]));
      StepAnswers(f, inputs[0]);
      Assoc(Answers(f.log), AnswerTo(f.kind, f.response, inputs[0]), AnswersTo(f.kind,
        if inputs[0].SetResponse? then inputs[0].response else f.response, inputs[1..]));
    }
  }

  /** The statuses the body ends with, by `co_return` or through the exception hook. */
  function Outcomes(inputs: seq<Input>): seq<Status>
  {
    if inputs == [] then []
    else
      (match inputs[0]
       case Return(status) => [status]
       case Throw(status) => [status]
       case _ => []) + Outcomes(inputs[1..])
  }

  predicate BodyOver(f: Frame)
  {
    f.phase.Finishing? || Destroyed(f)
  }

  lemma {:induction false} LifeOutcomes(f: Frame, inputs: seq<Input>, g: Frame)
    requires Lives(f, inputs, g)
    ensures |Outcomes(inputs)| <= if BodyOver(f) then 0 else 1
    decreases |inputs|
  {
    if inputs != [] {
      LifeOutcomes(Step(f, inputs[0]).frame, inputs[1..], g);
    }
  }

  /**
   The status theorem. Over every life of a frame, the finishing operations that gRPC is asked for are,
   in order, a function of the inputs alone: the status of each refusal by the hook, and, at most once,
   the status set by `co_return` or by the exception hook, each in the form of the method kind, and
   with the response that was assigned last.
   */
  lemma StatusDelivered(kind: Method, inputs: seq<Input>, f: Frame)
    requires Lives(NewFrame(kind).frame, inputs, f)
    ensures Answers(f.log) == AnswersTo(kind, 0, inputs)
    ensures |Outcomes(inputs)| <= 1
  {
    var start := NewFrame(kind).frame;
    LifeAnswers(start, inputs, f);
    LifeOutcomes(start, inputs, f);
    assert start.log[1..] == [];
    assert Answers(start.log) == [];
  }

  ghost function Completion(e: Event): seq<(Op, bool)>
  {
    if e.OnOpDone? then [(e.op, e.ok)] else []
  }

  /** The operations completed in a log, with their results, in order. */
  ghost function Completed(log: seq<Event>): seq<(Op, bool)>
  {
    Collect(Completion, log)
  }

  /** Each operation event, with the operation awaited last before it. */
  function Paired(awaited: Op, inputs: seq<Input>): seq<(Op, bool)>
    decreases |inputs|
  {
    if inputs == [] then []
    else
      match inputs[0]
      case Await(op) => Paired(op, inputs[1..])
      case OpEvent(ok) => [(awaited, ok)] + Paired(awaited, inputs[1..])
      case _ => Paired(awaited, inputs[1..])
  }

  lemma {:induction false} LifeOperations(f: Frame, awaited: Op, inputs: seq<Input>, g: Frame)
    requires Lives(f, inputs, g) && (f.phase.Awaiting? ==> f.phase.op == awaited)
    ensures Completed(g.log) == Completed(f.log) + Paired(awaited, inputs)
    decreases |inputs|
  {
    if inputs != [] {
      var i, rest := inputs[0], inputs[1..];
      var more := Added(f, i);
      LifeOperations(Step(f, i).frame, if i.Await? then i.op else awaited, rest, g);
      CollectConcat(Completion, f.log, more);
      AddedOperations(f, i);
    }
  }

  lemma AddedOperations(f: Frame, i: Input)
    requires Accepts(f, i)
    ensures Completed(Added(f, i)) == if i.OpEvent? then [(f.phase.op, i.ok)] else []
  {
    CollectAdded(Completion, f, i);
  }

  /**
   Over every life, each operation event completes the operation awaited last, with its own result; and
   the done hook comes right after the operation was issued, and that right after its start hook.
   */
  lemma OperationsPaired(kind: Method, inputs: seq<Input>, f: Frame)
    requires Lives(NewFrame(kind).frame, inputs, f)
    ensures Completed(f.log) == Paired(SendMetadata, inputs)
    ensures forall i :: 0 <= i < |f.log| && f.log[i].OnOpDone? ==>
      && 2 <= i && f.log[i - 1].Issued? && f.log[i - 1].op == f.log[i].op
      && f.log[i - 2] == OnOpStart(f.log[i].op) && OpAllowed(kind, f.log[i].op)
  {
    var start := NewFrame(kind).frame;
    Lifecycle(kind, inputs, f);
    LifeOperations(start, SendMetadata, inputs, f);
    assert start.log[1..] == [];
    assert Completed(start.log) == [];
    forall i | 0 <= i < |f.log| && f.log[i].OnOpDone?
      ensures 2 <= i && f.log[i - 1].Issued? && f.log[i - 1].op == f.log[i].op
      ensures f.log[i - 2] == OnOpStart(f.log[i].op) && OpAllowed(kind, f.log[i].op)
    {
      assert Follows(kind, f.log[i - 1], f.log[i]);
      assert Follows(kind, f.log[i - 2], f.log[i - 1]);
    }
  }

  /** In every life of a frame, a response that is sent is the one the body assigned last before. */
  lemma ResponseDelivered(kind: Method, inputs: seq<Input>, f: Frame, i: nat)
    requires Lives(NewFrame(kind).frame, inputs, f) && i < |f.log|
    requires f.log[i].Finished? && f.log[i].with.FinishResponse?
    ensures f.log[i].with.response == Latest(f.log[..i])
  {
    NewFrameInv(kind);
    LivesInv(NewFrame(kind).frame, inputs, f);
  }

  function Relistens(inputs: seq<Input>): nat
  {
    if inputs == [] then 0 else Bit(inputs[0].RejectEvent?) + Relistens(inputs[1..])
  }

  /** A frame moves to a new context exactly when it listens again, and a streamed request is not stored. */
  lemma {:induction false} LifeContext(f: Frame, inputs: seq<Input>, g: Frame)
    requires Lives(f, inputs, g)
    ensures g.kind == f.kind && g.context == f.context + Relistens(inputs)
    ensures ClientStreams(f.kind) ==> g.request == f.request
    decreases |inputs|
  {
    if inputs != [] {
      LifeContext(Step(f, inputs[0]).frame, inputs[1..], g);
    }
  }

  /** In every life, a frame that listens is a new frame but for its log and the number of its context. */
  lemma ListensLikeNew(kind: Method, inputs: seq<Input>, f: Frame)
    requires Lives(NewFrame(kind).frame, inputs, f) && f.phase.Listening?
    ensures f == NewFrame(kind).frame.(context := Relistens(inputs), stream := Relistens(inputs), log := f.log)
  {
    NewFrameInv(kind);
    LivesInv(NewFrame(kind).frame, inputs, f);
    LifeContext(NewFrame(kind).frame, inputs, f);
  }

  lemma {:induction false} LivesSnoc(f: Frame, inputs: seq<Input>, g: Frame, i: Input)
    requires Lives(f, inputs, g) && Accepts(g, i)
    ensures Lives(f, inputs + [i], Step(g, i).frame)
    ensures Relistens(inputs + [i]) == Relistens(inputs) + Bit(i.RejectEvent?)
    decreases |inputs|
  {
    assert inputs == [] ==> inputs + [i] == [i] && [i][1..] == [];
    if inputs != [] {
      assert (inputs + [i])[0] == inputs[0] && (inputs + [i])[1..] == inputs[1..] + [i];
      LivesSnoc(Step(f, inputs[0]).frame, inputs[1..], g, i);
    }
  }

  /**
   However many calls a frame has rejected before: the next rejection sends the hook's status in the
   operation of the method kind, and with its event the frame listens again like a new one, on the next
   context.
   */
  lemma RejectionRelistens(kind: Method, inputs: seq<Input>, f: Frame, result: Status, ok: bool)
    requires Lives(NewFrame(kind).frame, inputs, f) && f.phase.Authenticating? && !IsOk(result)
    ensures var r := Step(f, AuthCallback(result));
      && r.issued == [RejectTag] && Last(r.frame.log).Rejected? && Last(r.frame.log).call == Relistens(inputs)
      && RightReject(kind, result, Last(r.frame.log).with)
      && Accepts(r.frame, RejectEvent(ok))
      && var again := Step(r.frame, RejectEvent(ok));
        && again.issued == [ListenTag]
        && again.frame == NewFrame(kind).frame.(
          context := Relistens(inputs) + 1, stream := Relistens(inputs) + 1, log := again.frame.log)
  {
    var start := NewFrame(kind).frame;
    var rejected := Step(f, AuthCallback(result)).frame;
    NewFrameInv(kind);
    LivesInv(start, inputs, f);
    LifeContext(start, inputs, f);
    LivesSnoc(start, inputs, f, AuthCallback(result));
    LivesSnoc(start, inputs + [AuthCallback(result)], rejected, RejectEvent(ok));
    ListensLikeNew(kind, inputs + [AuthCallback(result)] + [RejectEvent(ok)], Step(rejected, RejectEvent(ok)).frame);
  }
}
