/**
 One client-side streaming call: its operations, its completion, and the tear-down by which the state
 object frees itself. `halfCloses` and `finishes` count what gRPC has been asked for.
 */
module StreamCall {
  import opened Rpc

  datatype Kind = ServerStreaming | ClientStreaming | Bidi

  predicate ClientStreams(k: Kind) { !k.ServerStreaming? }

  predicate ServerStreams(k: Kind) { !k.ClientStreaming? }

  /** The tags of the awaiters, the two of `finish`, and the two of the state object itself. */
  datatype Tag =
    | StartTag | ReadTag | WriteTag | WriteLastTag | WritesDoneTag
    | FinishHalf | FinishEnd
    | ExitHalf | ExitEnd

  /**
   `owned` until the call object is destroyed; `freed` counts deletions of the state object; `fault`
   records a use of the absent stream or of the deleted state. `status` belongs to the awaiter of
   `finish`, and `results` are what its resumptions returned.
   */
  datatype Call = Call(
    kind: Kind,
    owned: bool,
    freed: nat,
    context: bool,
    stream: bool,
    needWritesDone: bool,
    cancelled: bool,
    started: bool,
    startOk: bool,
    tags: multiset<Tag>,
    halfCloses: nat,
    finishes: nat,
    status: Status,
    results: seq<Status>,
    fault: bool)

  function NewCall(kind: Kind): Call
  {
    Call(kind, true, 0, true, false, false, false, false, false, multiset{}, 0, 0, OK, [], false)
  }

  datatype Action =
    | Start
    | Read
    | Write
    | WriteLast
    | WritesDone
    | Finish
    | Destroy
    | Event(tag: Tag, ok: bool, server: Status)

  /** The type-level requirements of the operations, and that an event needs an outstanding tag. */
  predicate Callable(c: Call, a: Action)
  {
    match a
    case Event(tag, _, _) => tag in c.tags
    case Read => c.owned && ServerStreams(c.kind)
    case Write => c.owned && ClientStreams(c.kind)
    case WriteLast => c.owned && ClientStreams(c.kind)
    case WritesDone => c.owned && ClientStreams(c.kind)
    case _ => c.owned
  }

  function Issue(c: Call, tag: Tag): Call
  {
    c.(tags := c.tags + multiset{tag})
  }

  /** A use of the absent stream. */
  function Fault(c: Call): Call
  {
    c.(fault := true)
  }

  /** `stream->Read` or `stream->Write` with the given tag: a fault if there is no stream. */
  function Transfer(c: Call, tag: Tag): Call
  {
    if c.stream then Issue(c, tag) else Fault(c)
  }

  /** `stream->WritesDone` with the given tag. */
  function HalfClose(c: Call, tag: Tag): Call
  {
    if c.stream then Issue(c, tag).(halfCloses := c.halfCloses + 1) else Fault(c)
  }

  /** `stream->Finish` with the given tag. */
  function AskFinish(c: Call, tag: Tag): Call
  {
    if c.stream then Issue(c, tag).(finishes := c.finishes + 1) else Fault(c)
  }

  /** `delete this`: the members of the state object go with it. */
  function Delete(c: Call): Call
  {
    c.(stream := false, context := false, freed := c.freed + 1)
  }

  /** The event of `start`: without success there is no stream. */
  function StartDone(c: Call, ok: bool): Call
  {
    c.(startOk := ok, needWritesDone := if ClientStreams(c.kind) then ok else c.needWritesDone,
    stream := c.stream && ok)
  }

  /** The event of `write_last` or `writes_done`. */
  function CloseDone(c: Call): Call
  {
    c.(needWritesDone := false)
  }

  /** The first event of `finish`, after the half-close: the status is spoilt if that failed. */
  function HalfDone(c: Call, ok: bool): Call
  {
    AskFinish(if ok then c else c.(status := UNKNOWN), FinishEnd)
  }

  /** The last event of `finish`, which resumes the caller. */
  function FinishDone(c: Call, result: Status): Call
  {
    c.(status := result, stream := false, results := c.results + [result])
  }

  /** The handler of a tag. `server` is the status gRPC stores when a `Finish` completes. */
  function Handle(c: Call, tag: Tag, ok: bool, server: Status): (d: Call)
    ensures d.kind == c.kind
  {
    match tag
    case StartTag => StartDone(c, ok)
    case ReadTag => c
    case WriteTag => c
    case WriteLastTag => CloseDone(c)
    case WritesDoneTag => CloseDone(c)
    case FinishHalf => HalfDone(c, ok)
    case FinishEnd => FinishDone(c, if ok then server else UNKNOWN)
    case ExitHalf => AskFinish(c, ExitEnd)
    case ExitEnd => Delete(c)
  }

  /** What the destructor makes of the state object. */
  function Destruct(c: Call): (d: Call)
    ensures d.kind == c.kind
  {
    if c.stream then
      var d := c.(cancelled := true);
      if ClientStreams(c.kind) && c.needWritesDone then HalfClose(d, ExitHalf) else AskFinish(d, ExitEnd)
    else Delete(c)
  }

  /** `finish` half-closes first, if the flag says so. */
  function StartFinish(c: Call): (d: Call)
    ensures d.kind == c.kind
  {
    if ClientStreams(c.kind) && c.needWritesDone then HalfClose(c, FinishHalf) else AskFinish(c, FinishEnd)
  }

  function Step(c: Call, a: Action): (d: Call)
    requires Callable(c, a)
    ensures d.kind == c.kind
  {
    match a
    case Start => Issue(c, StartTag).(started := true, stream := true)
    case Read => Transfer(c, ReadTag)
    case Write => if c.stream then Issue(c, WriteTag) else c
    case WriteLast => if c.stream then HalfClose(c, WriteLastTag) else c
    case WritesDone => if c.stream then HalfClose(c, WritesDoneTag) else c
    case Finish => StartFinish(c.(status := OK))
    case Destroy => Destruct(c.(owned := false))
    case Event(tag, ok, server) =>
      var d := c.(tags := c.tags - multiset{tag});
      if c.freed > 0 then d.(fault := true) else Handle(d, tag, ok, server)
  }

  /** The tags of the operations that write or half-close. */
  predicate Writing(c: Call)
  {
    WriteTag in c.tags || WriteLastTag in c.tags || WritesDoneTag in c.tags
  }

  /** The call is being started or finished. */
  predicate Busy(c: Call)
  {
    StartTag in c.tags || FinishHalf in c.tags || FinishEnd in c.tags
  }

  /**
   What gRPC asks of a caller: start once; one read and one write at a time; nothing written after the
   half-close; and neither `finish` nor destruction while an operation is outstanding. It is not asked
   that there be a call to read from or to finish.
   */
  predicate Disciplined(c: Call, a: Action)
  {
    match a
    case Start => !c.started
    case Read => !Busy(c) && ReadTag !in c.tags
    case Write => !Busy(c) && !Writing(c) && c.halfCloses == 0
    case WriteLast => !Busy(c) && !Writing(c) && c.halfCloses == 0
    case WritesDone => !Busy(c) && !Writing(c) && c.halfCloses == 0
    case Finish => c.tags == multiset{}
    case Destroy => c.tags == multiset{}
    case Event(_, _, _) => true
  }

  /** A fault ends the run. */
  predicate Enabled(c: Call, a: Action)
  {
    !c.fault && Callable(c, a) && Disciplined(c, a)
  }

  ghost predicate Steps(c: Call, run: seq<Action>, c': Call)
    decreases |run|
  {
    if run == [] then c == c'
    else Enabled(c, run[0]) && Steps(Step(c, run[0]), run[1..], c')
  }

  // ---- The stages of a call ----------------------------------------------------------------------

  function Bit(b: bool): nat { if b then 1 else 0 }

  /** Nothing was issued and nothing is outstanding. */
  predicate Untouched(c: Call)
  {
    c.tags == multiset{} && c.halfCloses == c.finishes == 0 && c.results == []
  }

  predicate Held(c: Call) { c.owned && c.freed == 0 && c.context && !c.cancelled }

  predicate Fresh(c: Call)
  {
    Held(c) && Untouched(c) && !c.started && !c.startOk && !c.stream && !c.needWritesDone
  }

  predicate Starting(c: Call)
  {
    && Held(c) && c.started && !c.startOk && c.stream && !c.needWritesDone
    && c.tags == multiset{StartTag} && c.halfCloses == c.finishes == 0 && c.results == []
  }

  predicate Failed(c: Call)
  {
    Held(c) && Untouched(c) && c.started && !c.startOk && !c.stream && !c.needWritesDone
  }

  predicate HalfClosing(c: Call)
  {
    WriteLastTag in c.tags || WritesDoneTag in c.tags
  }

  /** The flag says that the stream is not half-closed, or that the half-close has not completed. */
  predicate FlagMeaning(c: Call)
  {
    c.needWritesDone <==> ClientStreams(c.kind) && (c.halfCloses == 0 || HalfClosing(c))
  }

  predicate Active(c: Call)
  {
    && Held(c) && c.started && c.startOk && c.stream && c.finishes == 0 && c.results == []
    && c.halfCloses <= 1 && (HalfClosing(c) ==> c.halfCloses == 1)
    && (!ClientStreams(c.kind) ==> c.halfCloses == 0 && !Writing(c))
    && FlagMeaning(c)
    && c.tags[ReadTag] <= 1
    && c.tags[WriteTag] + c.tags[WriteLastTag] + c.tags[WritesDoneTag] <= 1
    && c.tags[StartTag] == c.tags[FinishHalf] == c.tags[FinishEnd] == 0
    && c.tags[ExitHalf] == c.tags[ExitEnd] == 0
  }

  /** Half-closed, if the kind has that. */
  predicate HalfClosed(c: Call)
  {
    c.halfCloses == Bit(ClientStreams(c.kind))
  }

  predicate FinishingHalf(c: Call)
  {
    && Held(c) && c.started && c.startOk && c.stream && ClientStreams(c.kind) && c.halfCloses == 1
    && c.finishes == 0 && c.tags == multiset{FinishHalf} && c.results == [] && c.needWritesDone
  }

  predicate FinishingEnd(c: Call)
  {
    && Held(c) && c.started && c.startOk && c.stream && HalfClosed(c)
    && c.finishes == 1 && c.tags == multiset{FinishEnd} && c.results == []
    && (c.needWritesDone ==> ClientStreams(c.kind))
  }

  predicate Ended(c: Call)
  {
    && Held(c) && c.started && c.startOk && !c.stream && HalfClosed(c)
    && c.finishes == 1 && c.tags == multiset{} && |c.results| == 1
  }

  predicate ExitingHalf(c: Call)
  {
    && !c.owned && c.freed == 0 && c.context && c.cancelled && c.started && c.startOk && c.stream
    && ClientStreams(c.kind) && c.halfCloses == 1 && c.finishes == 0 && c.tags == multiset{ExitHalf}
    && c.results == []
  }

  predicate ExitingEnd(c: Call)
  {
    && !c.owned && c.freed == 0 && c.context && c.cancelled && c.started && c.startOk && c.stream
    && HalfClosed(c) && c.finishes == 1 && c.tags == multiset{ExitEnd} && c.results == []
  }

  predicate Gone(c: Call)
  {
    && !c.owned && c.freed == 1 && c.tags == multiset{} && !c.stream && !c.context
    && (c.cancelled <==> c.startOk && c.results == [])
    && c.finishes == Bit(c.startOk) && c.halfCloses == Bit(c.startOk && ClientStreams(c.kind))
    && |c.results| <= 1
  }

  predicate Inv(c: Call)
  {
    || Fresh(c) || Starting(c) || Failed(c) || Active(c) || FinishingHalf(c) || FinishingEnd(c)
    || Ended(c) || ExitingHalf(c) || ExitingEnd(c) || Gone(c)
  }

  lemma WriteInv(c: Call, a: Action)
    requires Inv(c) && Enabled(c, a) && (a.Write? || a.WriteLast? || a.WritesDone?)
    ensures Inv(Step(c, a))
  {
  }

  lemma OtherCallInv(c: Call, a: Action)
    requires Inv(c) && Enabled(c, a) && (a.Start? || a.Read? || a.Finish?)
    ensures Inv(Step(c, a))
  {
  }

  lemma DestroyInv(c: Call)
    requires Inv(c) && Enabled(c, Destroy)
    ensures Inv(Step(c, Destroy))
  {
  }

  /** Which stage an outstanding tag belongs to. */
  lemma StageOfTag(c: Call, tag: Tag)
    requires Inv(c) && tag in c.tags
    ensures match tag
      case StartTag => Starting(c)
      case FinishHalf => FinishingHalf(c)
      case FinishEnd => FinishingEnd(c)
      case ExitHalf => ExitingHalf(c)
      case ExitEnd => ExitingEnd(c)
      case _ => Active(c)
    ensures c.freed == 0
  {
  }

  /** The completion of a read or of any kind of write keeps the call active. */
  lemma OperationEventInv(c: Call, tag: Tag, ok: bool, server: Status)
    requires Active(c) && tag in c.tags
    ensures Active(Step(c, Event(tag, ok, server)))
  {
    var d := Step(c, Event(tag, ok, server));
    assert tag.ReadTag? || tag.WriteTag? || tag.WriteLastTag? || tag.WritesDoneTag?;
    forall x: Tag ensures d.tags[x] == c.tags[x] - Bit(x == tag) {
    }
  }

  lemma StartEventInv(c: Call, ok: bool, server: Status)
    requires Starting(c)
    ensures Inv(Step(c, Event(StartTag, ok, server)))
  {
    assert c.tags - multiset{StartTag} == multiset{};
  }

  lemma HalfEventInv(c: Call, tag: Tag, ok: bool, server: Status)
    requires tag in c.tags && (FinishingHalf(c) || ExitingHalf(c))
    ensures Inv(Step(c, Event(tag, ok, server)))
  {
    assert c.tags - multiset{tag} == multiset{};
    assert multiset{} + multiset{FinishEnd} == multiset{FinishEnd};
    assert multiset{} + multiset{ExitEnd} == multiset{ExitEnd};
  }

  lemma EndEventInv(c: Call, tag: Tag, ok: bool, server: Status)
    requires tag in c.tags && (FinishingEnd(c) || ExitingEnd(c))
    ensures Inv(Step(c, Event(tag, ok, server)))
  {
    assert c.tags - multiset{tag} == multiset{};
  }

  lemma {:induction false} EventInv(c: Call, tag: Tag, ok: bool, server: Status)
    requires Inv(c) && Enabled(c, Event(tag, ok, server))
    ensures Inv(Step(c, Event(tag, ok, server)))
  {
    StageOfTag(c, tag);
    match tag
    case StartTag => StartEventInv(c, ok, server);
    case FinishHalf => HalfEventInv(c, tag, ok, server);
    case ExitHalf => HalfEventInv(c, tag, ok, server);
    case FinishEnd => EndEventInv(c, tag, ok, server);
    case ExitEnd => EndEventInv(c, tag, ok, server);
    case _ => OperationEventInv(c, tag, ok, server);
  }

  lemma {:induction false} StepInv(c: Call, a: Action)
    requires Inv(c) && Enabled(c, a)
    ensures Inv(Step(c, a))
  {
    if a.Event? {
      EventInv(c, a.tag, a.ok, a.server);
    } else if a.Destroy? {
      DestroyInv(c);
    } else if a.Start? || a.Read? || a.Finish? {
      OtherCallInv(c, a);
    } else {
      WriteInv(c, a);
    }
  }

  lemma {:induction false} StepsInv(c: Call, run: seq<Action>, c': Call)
    requires Inv(c) && Steps(c, run, c')
    ensures Inv(c') && c'.kind == c.kind
    decreases |run|
  {
    if run != [] {
      var d := Step(c, run[0]);
      StepInv(c, run[0]);
      StepsInv(d, run[1..], c');
    }
  }
}
