/**
 The self-replenishing server: the start-up barrier seeds the frames while other frames already live,
 and each body first creates its successor. The number of listeners is then fixed.
 */
module Listeners {
  import opened Sums
  import opened Rpc
  import opened Frames
  import opened FrameLifecycle
  import opened FrameSystem
  import Startup

  // ---- Bodies that create their successor first --------------------------------------------------

  /** The body has been entered and has done nothing yet. */
  predicate JustEntered(f: Frame)
  {
    f.phase.Body? && f.log != [] && Last(f.log) == OnStart
  }

  /** Every body first creates one frame, and creates no other. */
  predicate SuccessorFirst(s: System, a: Action)
    requires Enabled(s, a)
  {
    match a
    case User(f, _) => !JustEntered(s.frames[f])
    case Spawn(f, _) => JustEntered(s.frames[f])
    case _ => true
  }

  /** A body that is past its first move has created exactly one frame, and no other frame has. */
  ghost predicate Replenishing(f: Frame)
  {
    Spawns(f) == Bit(Entered(f) && !JustEntered(f))
  }

  lemma NewReplenishing(kind: Method)
    ensures Replenishing(NewFrame(kind).frame)
  {
    var f := NewFrame(kind).frame;
    assert f.log[1..] == [];
  }

  lemma StepReplenishing(f: Frame, i: Input)
    requires Replenishing(f) && Accepts(f, i)
    requires i.SpawnNext? ==> JustEntered(f)
    requires UserInput(i) ==> !JustEntered(f)
    ensures Replenishing(Frames.Step(f, i).frame)
  {
    StepSum(IsSpawn, f, i);
    HookWeights(f, i);
    LastAdded(f, i);
  }

  /** The last event after an input, if it added any. */
  lemma LastAdded(f: Frame, i: Input)
    requires Accepts(f, i)
    ensures Added(f, i) != []
    ensures Last(Frames.Step(f, i).frame.log) == Last(Added(f, i))
    ensures Last(Added(f, i)) == OnStart <==> i.AuthCallback? && IsOk(i.result)
  {
  }

  ghost predicate AllReplenishing(s: System)
  {
    forall f :: 0 <= f < |s.frames| ==> Replenishing(s.frames[f])
  }

  lemma FeedReplenishing(s: System, f: nat, i: Input)
    requires AllReplenishing(s) && f < |s.frames| && Accepts(s.frames[f], i)
    requires i.SpawnNext? ==> JustEntered(s.frames[f])
    requires UserInput(i) ==> !JustEntered(s.frames[f])
    ensures AllReplenishing(Feed(s, f, i))
  {
    StepReplenishing(s.frames[f], i);
  }

  lemma CreateReplenishing(s: System, kind: Method)
    requires AllReplenishing(s)
    ensures AllReplenishing(Create(s, kind))
  {
    NewReplenishing(kind);
  }

  lemma StepAllReplenishing(s: System, a: Action)
    requires AllReplenishing(s) && Ownership(s) && Enabled(s, a) && SuccessorFirst(s, a)
    ensures AllReplenishing(FrameSystem.Step(s, a))
  {
    match a
    case Seed(kind) => CreateReplenishing(s, kind);
    case Event(tag, ok, message) =>
      assert s.tags[tag] == Bit(Owned(s, tag));
      OwnedAccepts(s, tag, ok, message);
      FeedReplenishing(s.(tags := s.tags - multiset{tag}), tag.frame, InputFor(tag.slot, ok, message));
    case AuthDone(f, result) => FeedReplenishing(s, f, AuthCallback(result));
    case User(f, input) => FeedReplenishing(s, f, input);
    case Spawn(f, kind) =>
      FeedReplenishing(s, f, SpawnNext);
      CreateReplenishing(Feed(s, f, SpawnNext), kind);
  }

  ghost function Entering(f: Frame): nat
  {
    Bit(JustEntered(f))
  }

  /** The frames before their body, and those about to create their successor, are the seeds. */
  lemma ReplenishedBalance(s: System)
    requires SystemInv(s) && AllReplenishing(s)
    ensures Sum(Waiting, s.frames) + Sum(Entering, s.frames) == s.seeds
  {
    SumAdds(Spawns, Entering, EnteredBodies, s.frames);
    FramesBalance(s);
  }

  // ---- Start-up and service together ---------------------------------------------------------------

  /** The barrier of the server's threads, and the frames on its completion queues. */
  datatype Server = Server(startup: Startup.State, system: System)

  datatype ServerAction = Thread(a: Startup.Action) | Serve(action: Action)

  predicate ServerEnabled(s: Server, a: ServerAction)
  {
    match a
    case Thread(step) => Startup.Enabled(s.startup, step)
    case Serve(action) => !action.Seed? && Enabled(s.system, action) && SuccessorFirst(s.system, action)
  }

  /** The frames after a step of a thread: calling an initializer creates a frame of its kind. */
  function Seeded(kindOf: nat -> Method, s: Server, a: Startup.Action): System
    requires Startup.Enabled(s.startup, a)
  {
    var list := s.startup.initializers;
    if a.Invoke? && s.startup.workers[a.t].next < |list| then
      FrameSystem.Step(s.system, Seed(kindOf(list[s.startup.workers[a.t].next])))
    else s.system
  }

  function ServerStep(kindOf: nat -> Method, s: Server, a: ServerAction): Server
    requires ServerEnabled(s, a)
  {
    match a
    case Thread(step) => Server(Startup.Step(s.startup, step), Seeded(kindOf, s, step))
    case Serve(action) => s.(system := FrameSystem.Step(s.system, action))
  }

  ghost predicate ServerSteps(kindOf: nat -> Method, s: Server, run: seq<ServerAction>, s': Server)
    decreases |run|
  {
    if run == [] then s == s'
    else ServerEnabled(s, run[0]) && ServerSteps(kindOf, ServerStep(kindOf, s, run[0]), run[1..], s')
  }

  /** A step of a thread makes one more seed exactly if it calls an initializer, which is then there. */
  lemma ThreadSeeds(s: Startup.State, a: Startup.Action)
    requires Startup.Inv(s) && Startup.Enabled(s, a)
    ensures Startup.Seeds(Startup.Step(s, a)) == Startup.Seeds(s) + Bit(a.Invoke?)
    ensures a.Invoke? ==> s.workers[a.t].next < |s.initializers|
  {
    if a.Invoke? {
      assert Startup.WorkerOk(s, a.t);
      Startup.IteratingKeepsList(s, a.t);
      SumUpdate(Startup.Length, s.seeded, a.t, Startup.Step(s, a).seeded[a.t]);
    }
  }

  ghost predicate ServerInv(s: Server)
  {
    && Startup.Inv(s.startup)
    && SystemInv(s.system) && AllReplenishing(s.system)
    && s.system.seeds == Startup.Seeds(s.startup)
  }

  lemma SeedsKept(s: System, a: Action)
    requires Enabled(s, a)
    ensures FrameSystem.Step(s, a).seeds == s.seeds + Bit(a.Seed?)
  {
  }

  lemma ServerStepInv(kindOf: nat -> Method, s: Server, a: ServerAction)
    requires ServerInv(s) && ServerEnabled(s, a)
    ensures ServerInv(ServerStep(kindOf, s, a))
  {
    match a
    case Thread(step) =>
      Startup.StepInv(s.startup, step);
      ThreadSeeds(s.startup, step);
      if step.Invoke? {
        var seed := Seed(kindOf(s.startup.initializers[s.startup.workers[step.t].next]));
        FrameSystem.StepInv(s.system, seed);
        StepAllReplenishing(s.system, seed);
        SeedsKept(s.system, seed);
      }
    case Serve(action) =>
      FrameSystem.StepInv(s.system, action);
      StepAllReplenishing(s.system, action);
      SeedsKept(s.system, action);
  }

  lemma {:induction false} ServerStepsInv(kindOf: nat -> Method, s: Server, run: seq<ServerAction>, s': Server)
    requires ServerInv(s) && ServerSteps(kindOf, s, run, s')
    ensures ServerInv(s')
    decreases |run|
  {
    if run != [] {
      var m := ServerStep(kindOf, s, run[0]);
      ServerStepInv(kindOf, s, run[0]);
      ServerStepsInv(kindOf, m, run[1..], s');
    }
  }

  /** What is registered and how many threads there are does not change. */
  lemma {:induction false} ServerStepsShape(kindOf: nat -> Method, s: Server, run: seq<ServerAction>, s': Server)
    requires ServerSteps(kindOf, s, run, s')
    ensures s'.startup.registered == s.startup.registered && |s'.startup.workers| == |s.startup.workers|
    decreases |run|
  {
    if run != [] {
      ServerStepsShape(kindOf, ServerStep(kindOf, s, run[0]), run[1..], s');
    }
  }

  /** A server with its threads not yet running and no frame. */
  function Boot(registered: seq<nat>, threads: nat): Server
  {
    Server(Startup.Start(registered, threads), NOTHING)
  }

  lemma BootInv(registered: seq<nat>, threads: nat)
    ensures ServerInv(Boot(registered, threads))
  {
    Startup.StartInv(registered, threads);
    SumConstant(Startup.Length, Boot(registered, threads).startup.seeded, 0);
  }

  /**
   Listener conservation, in every reachable state, while threads start up and while frames live: the
   frames that have not entered their body, those destroyed by a failed listen included, and those
   that have just entered it and not yet created their successor, are as many as the initializers
   called so far.
   */
  lemma ListenersConserved(kindOf: nat -> Method, registered: seq<nat>, threads: nat,
                           run: seq<ServerAction>, s: Server)
    requires ServerSteps(kindOf, Boot(registered, threads), run, s)
    ensures Sum(Waiting, s.system.frames) + Sum(Entering, s.system.frames) == Startup.Seeds(s.startup)
  {
    BootInv(registered, threads);
    ServerStepsInv(kindOf, Boot(registered, threads), run, s);
    ReplenishedBalance(s.system);
  }

  /** Once all threads serve, there is one listener for each thread and each registered task, for ever. */
  lemma ListenersAfterStartup(kindOf: nat -> Method, registered: seq<nat>, threads: nat,
                              run: seq<ServerAction>, s: Server)
    requires ServerSteps(kindOf, Boot(registered, threads), run, s) && Startup.Finished(s.startup)
    ensures Sum(Waiting, s.system.frames) + Sum(Entering, s.system.frames) == threads * |registered|
  {
    ListenersConserved(kindOf, registered, threads, run, s);
    BootInv(registered, threads);
    ServerStepsInv(kindOf, Boot(registered, threads), run, s);
    ServerStepsShape(kindOf, Boot(registered, threads), run, s);
    Startup.FinishedSeeds(s.startup);
  }

  // ---- The kinds of the listeners ------------------------------------------------------------------

  /** How many seeds of a kind a run of the system has. */
  ghost function SeedsOf(kind: Method, a: Action): nat
  {
    Bit(a == Seed(kind))
  }

  ghost function SeedsIn(kind: Method, served: seq<Action>): nat
  {
    if served == [] then 0 else SeedsOf(kind, served[0]) + SeedsIn(kind, served[1..])
  }

  /** The actions that are not seeds. */
  function Unseeded(served: seq<Action>): seq<Action>
  {
    if served == [] then [] else (if served[0].Seed? then [] else [served[0]]) + Unseeded(served[1..])
  }

  /** The part of a server's run that is not start-up. */
  function Service(run: seq<ServerAction>): seq<Action>
  {
    if run == [] then [] else (if run[0].Serve? then [run[0].action] else []) + Service(run[1..])
  }

  ghost function OfKind(kindOf: nat -> Method, kind: Method): nat -> nat
  {
    (task: nat) => Bit(kindOf(task) == kind)
  }

  /** How many of the initializers called on one queue listen for a kind. */
  ghost function CalledOfKind(kindOf: nat -> Method, kind: Method): seq<nat> -> nat
  {
    (called: seq<nat>) => Sum(OfKind(kindOf, kind), called)
  }

  lemma ThreadKinds(kindOf: nat -> Method, kind: Method, s: Startup.State, a: Startup.Action)
    requires Startup.Inv(s) && Startup.Enabled(s, a)
    ensures a.Invoke? ==> s.workers[a.t].next < |s.initializers|
    ensures Sum(CalledOfKind(kindOf, kind), Startup.Step(s, a).seeded)
      == Sum(CalledOfKind(kindOf, kind), s.seeded)
        + if a.Invoke? then OfKind(kindOf, kind)(s.initializers[s.workers[a.t].next]) else 0
  {
    ThreadSeeds(s, a);
    if a.Invoke? {
      SumUpdate(CalledOfKind(kindOf, kind), s.seeded, a.t, Startup.Step(s, a).seeded[a.t]);
      SumSnoc(OfKind(kindOf, kind), s.seeded[a.t], s.initializers[s.workers[a.t].next]);
    }
  }

  lemma {:induction false} ServedConcat(kind: Method, a: seq<Action>, b: seq<Action>)
    ensures SeedsIn(kind, a + b) == SeedsIn(kind, a) + SeedsIn(kind, b)
    ensures Unseeded(a + b) == Unseeded(a) + Unseeded(b)
  {
    if a == [] {
      assert a + b == b;
    } else {
      assert (a + b)[0] == a[0] && (a + b)[1..] == a[1..] + b;
      ServedConcat(kind, a[1..], b);
    }
  }

  lemma {:induction false} ServiceFirst(run: seq<ServerAction>)
    requires run != []
    ensures Service(run) == Service([run[0]]) + Service(run[1..])
  {
    assert [run[0]][1..] == [];
  }

  /** Between two states of the server the system has served `served`, the seeds included. */
  ghost predicate Accounts(kindOf: nat -> Method, kind: Method, s: Server, served: seq<Action>, s': Server)
  {
    && FrameSystem.Steps(s.system, served, s'.system)
    && SeedsIn(kind, served) + Sum(CalledOfKind(kindOf, kind), s.startup.seeded)
      == Sum(CalledOfKind(kindOf, kind), s'.startup.seeded)
  }

  lemma AccountsConcat(kindOf: nat -> Method, kind: Method, s: Server, a: seq<Action>, m: Server, b: seq<Action>,
                       s': Server)
    requires |a| <= 1 && Accounts(kindOf, kind, s, a, m) && Accounts(kindOf, kind, m, b, s')
    ensures Accounts(kindOf, kind, s, a + b, s')
  {
    if a == [] {
      assert a + b == b;
    } else {
      assert a == [a[0]];
      StepsOne(s.system, a[0], m.system);
      StepsCons(s.system, a[0], b, s'.system);
    }
    ServedConcat(kind, a, b);
  }

  /** The seed a step of a server makes, or the action it serves. */
  lemma StepServes(kindOf: nat -> Method, kind: Method, s: Server, a: ServerAction) returns (served: seq<Action>)
    requires ServerInv(s) && ServerEnabled(s, a)
    ensures |served| <= 1 && Accounts(kindOf, kind, s, served, ServerStep(kindOf, s, a))
    ensures Unseeded(served) == Service([a])
  {
    match a
    case Serve(action) => served := [action];
    case Thread(step) =>
      ThreadKinds(kindOf, kind, s.startup, step);
      served := if step.Invoke? then [Seed(kindOf(s.startup.initializers[s.startup.workers[step.t].next]))] else [];
  }

  lemma {:induction false} RunServes(kindOf: nat -> Method, kind: Method, s: Server, run: seq<ServerAction>,
                                     s': Server)
    returns (served: seq<Action>)
    requires ServerInv(s) && ServerSteps(kindOf, s, run, s')
    ensures Accounts(kindOf, kind, s, served, s') && Unseeded(served) == Service(run)
    decreases |run|
  {
    served := [];
    if run != [] {
      var m := ServerStep(kindOf, s, run[0]);
      ServerStepInv(kindOf, s, run[0]);
      var first := StepServes(kindOf, kind, s, run[0]);
      var rest := RunServes(kindOf, kind, m, run[1..], s');
      AccountsConcat(kindOf, kind, s, first, m, rest, s');
      ServedConcat(kind, first, rest);
      ServiceFirst(run);
      served := first + rest;
    }
  }

  /**
   A run of the server is a run of its frames: the same service, and for each kind as many seeds as
   initializers of that kind have been called. So every theorem about runs of the frames holds in it.
   */
  lemma ServerRunsFrames(kindOf: nat -> Method, kind: Method, registered: seq<nat>, threads: nat,
                         run: seq<ServerAction>, s: Server)
    requires ServerSteps(kindOf, Boot(registered, threads), run, s)
    ensures exists served: seq<Action> ::
      && FrameSystem.Steps(NOTHING, served, s.system) && Unseeded(served) == Service(run)
      && SeedsIn(kind, served) == Sum(CalledOfKind(kindOf, kind), s.startup.seeded)
  {
    BootInv(registered, threads);
    SumConstant(CalledOfKind(kindOf, kind), Boot(registered, threads).startup.seeded, 0);
    var served := RunServes(kindOf, kind, Boot(registered, threads), run, s);
  }

  // ---- Service goes on -------------------------------------------------------------------------------

  /** The action by which frame `f` gets an input; a frame that is created on the way is of kind `next`. */
  function ActionFor(f: nat, i: Input, next: Method): Action
  {
    match i
    case ListenEvent(ok, request) => Event(Tag(f, ListenTag), ok, request)
    case RejectEvent(ok) => Event(Tag(f, RejectTag), ok, 0)
    case OpEvent(ok) => Event(Tag(f, OpTag), ok, 0)
    case FinishEvent(ok) => Event(Tag(f, FinishTag), ok, 0)
    case AuthCallback(result) => AuthDone(f, result)
    case SpawnNext => Spawn(f, next)
    case _ => User(f, i)
  }

  /** Whatever a frame is ready for, its successor coming first, can happen to it in a running server. */
  lemma Happens(kindOf: nat -> Method, s: Server, f: nat, i: Input, next: Method) returns (s': Server)
    requires ServerInv(s) && f < |s.system.frames| && Accepts(s.system.frames[f], i)
    requires UserInput(i) ==> !JustEntered(s.system.frames[f])
    requires i.SpawnNext? ==> JustEntered(s.system.frames[f])
    ensures ServerEnabled(s, Serve(ActionFor(f, i, next)))
    ensures s' == ServerStep(kindOf, s, Serve(ActionFor(f, i, next))) && ServerInv(s')
    ensures |s'.system.frames| == |s.system.frames| + Bit(i.SpawnNext?)
    ensures s'.system.frames[f] == Frames.Step(s.system.frames[f], i).frame
    ensures i.SpawnNext? ==> s'.system.frames[|s.system.frames|] == NewFrame(next).frame
    ensures !i.SpawnNext? ==> s'.system.frames == s.system.frames[f := s'.system.frames[f]]
  {
    var a := ActionFor(f, i, next);
    if a.Event? {
      assert s.system.tags[a.tag] == Bit(Owned(s.system, a.tag));
    }
    s' := ServerStep(kindOf, s, Serve(a));
    ServerStepInv(kindOf, s, Serve(a));
  }

  lemma ServerStepsCons(kindOf: nat -> Method, s: Server, a: ServerAction, rest: seq<ServerAction>, s': Server)
    requires ServerEnabled(s, a) && ServerSteps(kindOf, ServerStep(kindOf, s, a), rest, s')
    ensures ServerSteps(kindOf, s, [a] + rest, s')
  {
    assert ([a] + rest)[1..] == rest;
  }

  /** A body that has been entered creates its successor, returns, and is freed. */
  lemma BodyServes(kindOf: nat -> Method, s: Server, f: nat, next: Method, status: Status)
    returns (run: seq<ServerAction>, s': Server)
    requires ServerInv(s) && f < |s.system.frames| && JustEntered(s.system.frames[f])
    ensures ServerSteps(kindOf, s, run, s') && |s'.system.frames| == |s.system.frames| + 1
    ensures s'.system.frames[f].phase.Served? && s'.system.frames[|s.system.frames|] == NewFrame(next).frame
  {
    var n := |s.system.frames|;
    var s1 := Happens(kindOf, s, f, SpawnNext, next);
    var s2 := Happens(kindOf, s1, f, Return(status), next);
    s' := Happens(kindOf, s2, f, FinishEvent(true), next);
    assert s'.system.frames[n] == s1.system.frames[n];
    assert ServerSteps(kindOf, s', [], s');
    var a := Serve(ActionFor(f, FinishEvent(true), next));
    ServerStepsCons(kindOf, s2, a, [], s');
    var b := Serve(ActionFor(f, Return(status), next));
    ServerStepsCons(kindOf, s1, b, [a] + [], s');
    var c := Serve(ActionFor(f, SpawnNext, next));
    ServerStepsCons(kindOf, s, c, [b] + ([a] + []), s');
    run := [c] + ([b] + ([a] + []));
  }

  /** A call that is accepted. */
  lemma BodyEntered(kindOf: nat -> Method, s: Server, f: nat, message: nat, next: Method)
    returns (s1: Server, s2: Server)
    requires ServerInv(s) && f < |s.system.frames| && s.system.frames[f].phase.Listening?
    ensures ServerEnabled(s, Serve(ActionFor(f, ListenEvent(true, message), next)))
    ensures s1 == ServerStep(kindOf, s, Serve(ActionFor(f, ListenEvent(true, message), next)))
    ensures ServerEnabled(s1, Serve(ActionFor(f, AuthCallback(OK), next)))
    ensures s2 == ServerStep(kindOf, s1, Serve(ActionFor(f, AuthCallback(OK), next)))
    ensures ServerInv(s2) && |s2.system.frames| == |s.system.frames| && JustEntered(s2.system.frames[f])
  {
    s1 := Happens(kindOf, s, f, ListenEvent(true, message), next);
    s2 := Happens(kindOf, s1, f, AuthCallback(OK), next);
  }

  lemma {:induction false} ServesFrom(kindOf: nat -> Method, s: Server, f: nat, message: nat, next: Method,
                                      status: Status)
    returns (run: seq<ServerAction>, s': Server)
    requires ServerInv(s) && f < |s.system.frames| && s.system.frames[f].phase.Listening?
    ensures ServerSteps(kindOf, s, run, s') && |s'.system.frames| == |s.system.frames| + 1
    ensures s'.system.frames[f].phase.Served? && s'.system.frames[|s.system.frames|] == NewFrame(next).frame
  {
    var s1, s2 := BodyEntered(kindOf, s, f, message, next);
    var first := Serve(ActionFor(f, ListenEvent(true, message), next));
    var second := Serve(ActionFor(f, AuthCallback(OK), next));
    var rest;
    rest, s' := BodyServes(kindOf, s2, f, next, status);
    ServerStepsCons(kindOf, s1, second, rest, s');
    ServerStepsCons(kindOf, s, first, [second] + rest, s');
    run := [first] + ([second] + rest);
  }

  /**
   In every reachable state of the server, whatever the threads are doing, a frame that listens can
   receive a call, serve it and be freed, and leaves a new listener of the kind its body creates.
   */
  lemma ListenerServes(kindOf: nat -> Method, registered: seq<nat>, threads: nat, before: seq<ServerAction>,
                       s: Server, f: nat, message: nat, next: Method, status: Status)
    requires ServerSteps(kindOf, Boot(registered, threads), before, s)
    requires f < |s.system.frames| && s.system.frames[f].phase.Listening?
    ensures exists run: seq<ServerAction>, s' ::
      && ServerSteps(kindOf, s, run, s') && |s'.system.frames| == |s.system.frames| + 1
      && s'.system.frames[f].phase.Served? && s'.system.frames[|s.system.frames|] == NewFrame(next).frame
  {
    BootInv(registered, threads);
    ServerStepsInv(kindOf, Boot(registered, threads), before, s);
    var run, s' := ServesFrom(kindOf, s, f, message, next, status);
  }
}
