/**
 The lives of the frames of a system: what a run of the system does to one frame is a life of that frame
 alone, and every life occurs in some run.
 */
module SystemLives {
  import opened Sums
  import opened Rpc
  import opened Frames
  import opened FrameLifecycle
  import opened FrameHistory
  import opened FrameSystem

  // ---- What a run means for one frame --------------------------------------------------------------

  /** The handler that the event of a tag runs, with the result and the message of that event. */
  function Handles(slot: Slot, ok: bool, message: nat): Input
  {
    match slot
    case ListenTag => ListenEvent(ok, message)
    case RejectTag => RejectEvent(ok)
    case OpTag => OpEvent(ok)
    case FinishTag => FinishEvent(ok)
  }

  /** What an action of the system is for the frame `f`. */
  function Concerns(a: FrameSystem.Action, f: nat): seq<Input>
  {
    match a
    case Seed(_) => []
    case Event(tag, ok, message) => if tag.frame == f then [Handles(tag.slot, ok, message)] else []
    case AuthDone(g, result) => if g == f then [AuthCallback(result)] else []
    case User(g, input) => if g == f then [input] else []
    case Spawn(g, _) => if g == f then [SpawnNext] else []
  }

  /** The inputs of frame `f` in a run. */
  function InputsOf(run: seq<FrameSystem.Action>, f: nat): seq<Input>
  {
    if run == [] then [] else Concerns(run[0], f) + InputsOf(run[1..], f)
  }

  function Born(a: FrameSystem.Action): seq<Method>
  {
    match a
    case Seed(kind) => [kind]
    case Spawn(_, kind) => [kind]
    case _ => []
  }

  /** The kinds of the frames a run creates, in order. */
  function Births(run: seq<FrameSystem.Action>): seq<Method>
  {
    if run == [] then [] else Born(run[0]) + Births(run[1..])
  }

  /** An action concerns one frame that exists, which accepts it, or none. */
  lemma StepConcerns(s: System, a: FrameSystem.Action, f: nat)
    requires Ownership(s) && FrameSystem.Enabled(s, a) && f < |s.frames|
    ensures var s' := FrameSystem.Step(s, a);
      && |s'.frames| == |s.frames| + |Born(a)|
      && (Concerns(a, f) == [] ==> s'.frames[f] == s.frames[f])
      && (Concerns(a, f) != [] ==>
        |Concerns(a, f)| == 1 && Accepts(s.frames[f], Concerns(a, f)[0])
        && s'.frames[f] == Frames.Step(s.frames[f], Concerns(a, f)[0]).frame)
  {
    if a.Event? {
      assert s.tags[a.tag] == Bit(Owned(s, a.tag));
    }
  }

  /** A frame that does not exist yet is concerned by nothing, and is born as a new one of its kind. */
  lemma StepBirths(s: System, a: FrameSystem.Action)
    requires Ownership(s) && FrameSystem.Enabled(s, a)
    ensures forall f :: |s.frames| <= f ==> Concerns(a, f) == []
    ensures |FrameSystem.Step(s, a).frames| == |s.frames| + |Born(a)| && |Born(a)| <= 1
    ensures Born(a) != [] ==> FrameSystem.Step(s, a).frames[|s.frames|] == NewFrame(Born(a)[0]).frame
  {
    if a.Event? {
      assert s.tags[a.tag] == Bit(Owned(s, a.tag));
    }
  }

  lemma {:induction false} LivesCons(f: Frame, i: seq<Input>, m: Frame, rest: seq<Input>, g: Frame)
    requires |i| <= 1 && (i == [] ==> m == f)
    requires i != [] ==> Accepts(f, i[0]) && m == Frames.Step(f, i[0]).frame
    requires Lives(m, rest, g)
    ensures Lives(f, i + rest, g)
  {
    if i == [] {
      assert i + rest == rest;
    } else {
      assert (i + rest)[0] == i[0] && (i + rest)[1..] == rest;
    }
  }

  /** A run creates as many frames as it has births. */
  lemma {:induction false} RunBirths(s: System, run: seq<FrameSystem.Action>, s': System)
    requires SystemInv(s) && FrameSystem.Steps(s, run, s')
    ensures |s'.frames| == |s.frames| + |Births(run)|
    decreases |run|
  {
    if run != [] {
      FrameSystem.StepInv(s, run[0]);
      StepBirths(s, run[0]);
      RunBirths(FrameSystem.Step(s, run[0]), run[1..], s');
    }
  }

  /** What frame `f` starts as in a run from `s`: itself if it exists, else a new frame of its kind. */
  function StartOf(s: System, births: seq<Method>, f: nat): Frame
  {
    if f < |s.frames| then s.frames[f]
    else NewFrame(if f - |s.frames| < |births| then births[f - |s.frames|] else Unary).frame
  }

  /** The first action of a run does to the start of frame `f` what it means for `f`. */
  lemma StartStep(s: System, a: FrameSystem.Action, later: seq<Method>, f: nat)
    requires Ownership(s) && FrameSystem.Enabled(s, a) && f < |s.frames| + |Born(a) + later|
    ensures var start, next := StartOf(s, Born(a) + later, f), StartOf(FrameSystem.Step(s, a), later, f);
      && |Concerns(a, f)| <= 1
      && (Concerns(a, f) == [] ==> next == start)
      && (Concerns(a, f) != [] ==>
        Accepts(start, Concerns(a, f)[0]) && next == Frames.Step(start, Concerns(a, f)[0]).frame)
  {
    StepBirths(s, a);
    if f < |s.frames| {
      StepConcerns(s, a, f);
    }
  }

  lemma {:induction false} RunLives(s: System, run: seq<FrameSystem.Action>, s': System, f: nat)
    requires SystemInv(s) && FrameSystem.Steps(s, run, s') && f < |s.frames| + |Births(run)| == |s'.frames|
    ensures Lives(StartOf(s, Births(run), f), InputsOf(run, f), s'.frames[f])
    decreases |run|
  {
    if run != [] {
      var a, m, later := run[0], FrameSystem.Step(s, run[0]), Births(run[1..]);
      FrameSystem.StepInv(s, a);
      RunBirths(m, run[1..], s');
      RunLives(m, run[1..], s', f);
      StartStep(s, a, later, f);
      LivesCons(StartOf(s, Born(a) + later, f), Concerns(a, f), StartOf(m, later, f), InputsOf(run[1..], f),
                s'.frames[f]);
    }
  }

  lemma StartOfNothing(births: seq<Method>, f: nat)
    requires f < |births|
    ensures StartOf(NOTHING, births, f) == NewFrame(births[f]).frame
  {
  }

  /**
   In every run of the system, each frame is what its own life has made of a new frame of its kind: the
   events, callbacks and moves of that frame in the run, each with its own result and message, in order.
   */
  lemma FrameLives(run: seq<FrameSystem.Action>, s: System, f: nat)
    requires FrameSystem.Steps(NOTHING, run, s) && f < |s.frames|
    ensures |Births(run)| == |s.frames|
    ensures Lives(NewFrame(Births(run)[f]).frame, InputsOf(run, f), s.frames[f])
  {
    assert SystemInv(NOTHING);
    RunBirths(NOTHING, run, s);
    RunLives(NOTHING, run, s, f);
    StartOfNothing(Births(run), f);
  }

  /**
   So the theorems of a single life hold of every frame of every run: the answers sent, the operations
   completed, the request the body sees and what the log tells, as functions of what happened to it.
   */
  lemma EveryFrameServes(run: seq<FrameSystem.Action>, s: System, f: nat)
    requires FrameSystem.Steps(NOTHING, run, s) && f < |s.frames|
    ensures |Births(run)| == |s.frames| && s.frames[f].kind == Births(run)[f]
    ensures Answers(s.frames[f].log) == AnswersTo(Births(run)[f], 0, InputsOf(run, f))
    ensures Completed(s.frames[f].log) == Paired(SendMetadata, InputsOf(run, f))
    ensures Collect(Told, s.frames[f].log) == [Listens] + Collect(Meant, InputsOf(run, f))
    ensures HasCall(s.frames[f]) && SingleRequest(Births(run)[f]) ==>
      s.frames[f].request == LastRequest(0, InputsOf(run, f))
  {
    FrameLives(run, s, f);
    var kind, inputs := Births(run)[f], InputsOf(run, f);
    LifeContext(NewFrame(kind).frame, inputs, s.frames[f]);
    StatusDelivered(kind, inputs, s.frames[f]);
    OperationsPaired(kind, inputs, s.frames[f]);
    LogTellsLife(kind, inputs, s.frames[f]);
    RequestDelivered(kind, inputs, s.frames[f]);
  }

  // ---- Every life occurs -----------------------------------------------------------------------

  /** The action by which the first frame gets an input. */
  function Occurs(i: Input, kind: Method): FrameSystem.Action
  {
    match i
    case ListenEvent(ok, request) => Event(Tag(0, ListenTag), ok, request)
    case RejectEvent(ok) => Event(Tag(0, RejectTag), ok, 0)
    case OpEvent(ok) => Event(Tag(0, OpTag), ok, 0)
    case FinishEvent(ok) => Event(Tag(0, FinishTag), ok, 0)
    case AuthCallback(result) => AuthDone(0, result)
    case SpawnNext => Spawn(0, kind)
    case _ => User(0, i)
  }

  /** Whatever a frame is ready for can happen to it in the system, with that effect. */
  lemma InputOccurs(s: System, i: Input, kind: Method)
    requires Ownership(s) && |s.frames| > 0 && Accepts(s.frames[0], i)
    ensures FrameSystem.Enabled(s, Occurs(i, kind))
    ensures |FrameSystem.Step(s, Occurs(i, kind)).frames| > 0
    ensures FrameSystem.Step(s, Occurs(i, kind)).frames[0] == Frames.Step(s.frames[0], i).frame
  {
    var a := Occurs(i, kind);
    if a.Event? {
      assert s.tags[a.tag] == Bit(Owned(s, a.tag));
    }
  }

  lemma {:induction false} LifeGoesOn(s: System, inputs: seq<Input>, g: Frame, kind: Method)
    returns (run: seq<FrameSystem.Action>, s': System)
    requires SystemInv(s) && |s.frames| > 0 && Lives(s.frames[0], inputs, g)
    ensures FrameSystem.Steps(s, run, s') && |s'.frames| > 0 && s'.frames[0] == g
    decreases |inputs|
  {
    if inputs == [] {
      run, s' := [], s;
    } else {
      var a := Occurs(inputs[0], kind);
      InputOccurs(s, inputs[0], kind);
      FrameSystem.StepInv(s, a);
      var rest;
      rest, s' := LifeGoesOn(FrameSystem.Step(s, a), inputs[1..], g, kind);
      run := [a] + rest;
      assert run[0] == a && run[1..] == rest;
    }
  }

  /** Conversely, every life of a frame of any kind is the life of a frame in some run of the system. */
  lemma EveryLifeOccurs(kind: Method, inputs: seq<Input>, g: Frame)
    requires Lives(NewFrame(kind).frame, inputs, g)
    ensures exists run: seq<FrameSystem.Action>, s ::
      FrameSystem.Steps(NOTHING, run, s) && |s.frames| > 0 && s.frames[0] == g
  {
    FrameSystem.StepInv(NOTHING, Seed(kind));
    var rest, s := LifeGoesOn(FrameSystem.Step(NOTHING, Seed(kind)), inputs, g, kind);
    var run := [Seed(kind)] + rest;
    assert run[0] == Seed(kind) && run[1..] == rest;
    assert FrameSystem.Steps(NOTHING, run, s);
  }
}
