/** What every run does with the submitted closures: conservation, exactly-once, and a step bound. */
module Work {
  import opened Sums
  import opened Dispatch
  import opened Wakeups

  // ---- Trees of closures -----------------------------------------------------------------------

  /** The total weight, under `m`, of a closure and of everything it will push. */
  ghost function Mass(m: Closure -> nat, c: Closure): nat
    decreases c
  {
    m(c) + if c.Fn? then PushesMass(m, c.pushes) else 0
  }

  ghost function PushesMass(m: Closure -> nat, ps: seq<PushCall>): nat
    decreases ps
  {
    if ps == [] then 0 else PushMass(m, ps[0]) + PushesMass(m, ps[1..])
  }

  ghost function PushMass(m: Closure -> nat, p: PushCall): nat
    decreases p
  {
    Mass(m, p.fn)
  }

  ghost function MassOf(m: Closure -> nat): Closure -> nat
  {
    c => Mass(m, c)
  }

  /** The weight a thread has in hand: the closure it popped and the pushes it has yet to make. */
  ghost function HandMass(m: Closure -> nat): Thread -> nat
  {
    (th: Thread) => PushesMass(m, th.pending) + if th.held.Some? then Mass(m, th.held.value) else 0
  }

  /** The weight of everything not called yet. */
  ghost function Future(m: Closure -> nat, s: State): nat
  {
    Sum(MassOf(m), s.queue) + Sum(HandMass(m), s.threads)
  }

  ghost function One(c: Closure): nat { 1 }

  ghost function Is(x: Closure): Closure -> nat
  {
    c => if c == x then 1 else 0
  }

  /** How often the closure `x` occurs among everything the threads of `s` will ever push. */
  ghost function Occurrences(x: Closure, s: State): nat
  {
    Future(Is(x), s)
  }

  lemma {:induction false} CountIsSum(x: Closure, s: seq<Closure>)
    ensures multiset(s)[x] == Sum(Is(x), s)
  {
    if s != [] {
      CountIsSum(x, s[1..]);
      assert s == [s[0]] + s[1..];
    }
  }

  // ---- Conservation ----------------------------------------------------------------------------

  /** Every action keeps the weight called so far plus the weight still to be called. */
  lemma StepConserves(m: Closure -> nat, s: State, a: Action)
    requires WellFormed(s) && Enabled(s, a)
    ensures Sum(m, Step(s, a).ran) + Future(m, Step(s, a)) == Sum(m, s.ran) + Future(m, s)
  {
    var s' := Step(s, a);
    if a != Close {
      assert ThreadOk(s, a.t);
      SumUpdate(HandMass(m), s.threads, a.t, s'.threads[a.t]);
    }
    match a
    case Emplace(t) =>
      var p := s.threads[t].pending[0];
      assert PushMass(m, p) == Mass(m, p.fn);
      SumSnoc(MassOf(m), s.queue, p.fn);
    case Call(t) =>
      SumSnoc(m, s.ran, s.threads[t].held.value);
    case _ =>
  }

  lemma {:induction false} RunConserves(m: Closure -> nat, s: State, run: seq<Action>, s': State)
    requires WellFormed(s) && Steps(s, run, s')
    ensures Sum(m, s'.ran) + Future(m, s') == Sum(m, s.ran) + Future(m, s)
    decreases |run|
  {
    if run != [] {
      StepWellFormed(s, run[0]);
      StepConserves(m, s, run[0]);
      RunConserves(m, Step(s, run[0]), run[1..], s');
    }
  }

  /** In every reachable state each closure has been called at most as often as it was submitted. */
  lemma NeverCalledTwice(s0: State, run: seq<Action>, s: State, x: Closure)
    requires Init(s0) && Steps(s0, run, s)
    ensures multiset(s.ran)[x] + Occurrences(x, s) == Occurrences(x, s0)
  {
    InitWellFormed(s0);
    RunConserves(Is(x), s0, run, s);
    CountIsSum(x, s.ran);
  }

  // ---- Termination -----------------------------------------------------------------------------

  ghost function PhaseCost(p: Phase): nat
  {
    match p
    case Outside => 0
    case Exited => 0
    case Idle => 1
    case LastDrain => 2
    case Enabling => 3
    case FirstDrain => 4
  }

  ghost function PushCost(p: PushPc): nat
  {
    match p
    case Ready => 0
    case Winner(_) => 5
    case Emplaced(_) => 6
  }

  /** Steps a thread may still take, or cause, besides those of its pending pushes. */
  ghost function Cost(th: Thread): nat
  {
    PhaseCost(th.phase) + PushCost(th.push)
  }

  /** A closure still to be appended costs 9 steps, one in the queue 2, one popped 1. */
  ghost function QueueCredit(s: State): int
  {
    9 * Future(One, s) - 7 * |s.queue| - 8 * Sum(Holding, s.threads)
  }

  ghost function Holding(th: Thread): nat
  {
    if th.held.Some? then 1 else 0
  }

  ghost function Measure(s: State): int
  {
    QueueCredit(s) + Sum(Cost, s.threads) + 4 * |s.outstanding| + s.cqs - s.closed
  }

  /** How an action changes the three sums of the measure. */
  lemma StepSums(s: State, a: Action)
    requires WellFormed(s) && Enabled(s, a)
    ensures Future(One, s) == Future(One, Step(s, a)) + if a.Call? then 1 else 0
    ensures a != Close ==>
      && Sum(Cost, Step(s, a).threads) + Cost(s.threads[a.t])
        == Sum(Cost, s.threads) + Cost(Step(s, a).threads[a.t])
      && Sum(Holding, Step(s, a).threads) + Holding(s.threads[a.t])
        == Sum(Holding, s.threads) + Holding(Step(s, a).threads[a.t])
  {
    StepConserves(One, s, a);
    if a != Close {
      SumUpdate(Cost, s.threads, a.t, Step(s, a).threads[a.t]);
      SumUpdate(Holding, s.threads, a.t, Step(s, a).threads[a.t]);
    }
    if a.Call? {
      SumSnoc(One, s.ran, s.threads[a.t].held.value);
    }
  }

  /** What one action of a thread changes in its own cost, in its hand, in the queue and in the alarms. */
  lemma ThreadCost(s: State, a: Action)
    requires WellFormed(s) && Enabled(s, a) && a != Close && ThreadOk(s, a.t)
    ensures var th, th' := s.threads[a.t], Step(s, a).threads[a.t];
      var s' := Step(s, a);
      9 * (if a.Call? then 1 else 0) + 7 * (|s'.queue| - |s.queue|) + 8 * (Holding(th') - Holding(th))
      > Cost(th') - Cost(th) + 4 * (|s'.outstanding| - |s.outstanding|)
  {
  }

  lemma StepMeasure(s: State, a: Action)
    requires WellFormed(s) && Enabled(s, a)
    ensures Measure(Step(s, a)) < Measure(s)
  {
    StepSums(s, a);
    if a == Close {
    } else {
      assert ThreadOk(s, a.t);
      ThreadCost(s, a);
    }
  }

  lemma MassAtLeastOne(s: seq<Closure>)
    ensures |s| <= Sum(MassOf(One), s)
  {
    if s != [] {
      MassAtLeastOne(s[1..]);
    }
  }

  lemma HeldAtMostHand(ths: seq<Thread>)
    ensures Sum(Holding, ths) <= Sum(HandMass(One), ths)
  {
    if ths != [] {
      HeldAtMostHand(ths[1..]);
    }
  }

  lemma MeasureNonNegative(s: State)
    requires WellFormed(s)
    ensures 0 <= Measure(s)
  {
    MassAtLeastOne(s.queue);
    HeldAtMostHand(s.threads);
  }

  lemma {:induction false} RunMeasure(s: State, run: seq<Action>, s': State)
    requires WellFormed(s) && Steps(s, run, s')
    ensures Measure(s') + |run| <= Measure(s) && WellFormed(s')
    decreases |run|
  {
    if run != [] {
      StepWellFormed(s, run[0]);
      StepMeasure(s, run[0]);
      RunMeasure(Step(s, run[0]), run[1..], s');
    }
  }

  /** The number of closures, empty ones included, that are pushed in the whole run. */
  ghost function Closures(s: State): nat
  {
    Future(One, s)
  }

  lemma {:induction false} InitCost(ths: seq<Thread>, n: nat)
    requires n <= |ths|
    requires forall t :: 0 <= t < |ths| ==> ths[t] == if t < n then IDLE_THREAD else Pusher(ths[t].pending)
    ensures Sum(Cost, ths) == n && Sum(Holding, ths) == 0
  {
    if ths != [] {
      InitCost(ths[1..], if n == 0 then 0 else n - 1);
    }
  }

  /**
   Every run is finite: nine steps for each closure ever pushed, plus one shut-down and one exit for
   each completion queue.
   */
  lemma RunsAreBounded(s0: State, run: seq<Action>, s: State)
    requires Init(s0) && Steps(s0, run, s)
    ensures |run| <= 9 * Closures(s0) + 2 * s0.cqs
  {
    InitWellFormed(s0);
    RunMeasure(s0, run, s);
    MeasureNonNegative(s);
    InitCost(s0.threads, s0.cqs);
  }

  // ---- Driving a run ---------------------------------------------------------------------------

  /**
   Ways to go on from a state: without shutting down, also with no thread outside the event loops
   beginning a push, by shutting down and leaving the loops only, in any way, or without shutting down
   and without thread `t`.
   */
  datatype Leg = Working | Settling | Closing | Leaving | Without(t: nat)

  predicate Permitted(leg: Leg, s: State, a: Action)
  {
    match leg
    case Working => !a.Close? && !a.Exit?
    case Settling => !a.Close? && !a.Exit? && !(a.Emplace? && s.cqs <= a.t)
    case Closing => a.Close? || a.Exit?
    case Leaving => true
    case Without(t) => !a.Close? && !a.Exit? && !By(a, t)
  }

  /** The leg cannot go on. */
  ghost predicate Stopped(leg: Leg, s: State)
  {
    forall a :: Enabled(s, a) ==> !Permitted(leg, s, a)
  }

  /** No alarm is on its way and no event loop is handling one. */
  ghost predicate LoopsIdle(s: State)
  {
    s.outstanding == [] && forall t :: 0 <= t < s.cqs && t < |s.threads| ==> !Handling(s.threads[t])
  }

  predicate Handling(th: Thread)
  {
    th.phase.FirstDrain? || th.phase.Enabling? || th.phase.LastDrain?
  }

  ghost predicate LoopsReturned(s: State)
  {
    forall t :: 0 <= t < s.cqs && t < |s.threads| ==> s.threads[t].phase.Exited?
  }

  /** A thread outside the event loops has a push yet to begin. */
  ghost predicate MorePushes(s: State)
  {
    exists t :: s.cqs <= t < |s.threads| && s.threads[t].pending != []
  }

  ghost predicate AllClosed(s: State)
  {
    s.closed == s.cqs
  }

  /** The thread `t` is where it was. */
  ghost predicate Same(s: State, s': State, t: nat)
  {
    |s'.threads| == |s.threads| && (t < |s.threads| ==> s'.threads[t] == s.threads[t])
  }

  /** What a leg keeps. */
  ghost predicate Kept(leg: Leg, s: State, s': State)
  {
    match leg
    case Working => s'.closed == s.closed
    case Settling => MorePushes(s) ==> MorePushes(s')
    case Closing => LoopsIdle(s) ==> LoopsIdle(s') && s'.queue == s.queue && (MorePushes(s) ==> MorePushes(s'))
    case Leaving =>
      LoopsReturned(s) ==> LoopsReturned(s') && (s.queue != [] || MorePushes(s) ==> s'.queue != [] || MorePushes(s'))
    case Without(t) =>
      && Same(s, s', t)
      && (AllClosed(s) ==> AllClosed(s') && forall q :: q in s'.outstanding ==> q in s.outstanding)
  }

  lemma StepKept(leg: Leg, s: State, a: Action)
    requires Inv(s) && Enabled(s, a) && Permitted(leg, s, a)
    ensures Kept(leg, s, Step(s, a))
  {
    var s' := Step(s, a);
    if a != Close {
      assert ThreadOk(s, a.t);
    }
    if MorePushes(s) {
      var t :| s.cqs <= t < |s.threads| && s.threads[t].pending != [];
      assert ThreadOk(s, t);
      assert a != Emplace(t) ==> s'.threads[t].pending == s.threads[t].pending;
    }
  }

  /** Every leg comes to a stop. */
  lemma {:induction false} Drive(leg: Leg, s: State) returns (run: seq<Action>, s': State)
    requires Inv(s)
    ensures Steps(s, run, s') && Inv(s') && Stopped(leg, s') && Kept(leg, s, s')
    decreases Measure(s)
  {
    if Stopped(leg, s) {
      run, s' := [], s;
    } else {
      var a :| Enabled(s, a) && Permitted(leg, s, a);
      StepInv(s, a);
      StepMeasure(s, a);
      MeasureNonNegative(Step(s, a));
      StepKept(leg, s, a);
      var rest;
      rest, s' := Drive(leg, Step(s, a));
      run := [a] + rest;
      assert run[0] == a && run[1..] == rest;
    }
  }

  // ---- What a finished run has done --------------------------------------------------------------

  /** Nothing is left to do but to shut queues down or to leave the event loops. */
  ghost predicate Quiet(s: State)
  {
    forall a :: Enabled(s, a) ==> a.Close? || a.Exit?
  }

  ghost predicate AllWaiting(s: State)
  {
    forall t :: 0 <= t < |s.threads| ==>
      && s.threads[t].pending == [] && AtRest(s.threads[t])
      && (s.threads[t].phase.Outside? || s.threads[t].phase.Idle? || s.threads[t].phase.Exited?)
  }

  /** Once no action but a thread's own first step of a push is left, every thread is at rest. */
  lemma SettledThread(s: State, t: nat)
    requires Inv(s) && Stopped(Settling, s) && t < |s.threads|
    ensures AtRest(s.threads[t]) && !Handling(s.threads[t])
    ensures t < s.cqs ==> s.threads[t].pending == []
  {
    assert ThreadOk(s, t);
    assert !Enabled(s, Emplace(t)) || s.cqs <= t;
    assert !Enabled(s, Exchange(t));
    assert !Enabled(s, Arm(t));
    assert !Enabled(s, Call(t));
    assert !Enabled(s, Pop(t));
    assert !Enabled(s, Enable(t));
  }

  lemma SettledAlarms(s: State)
    requires Inv(s) && Stopped(Settling, s)
    ensures s.outstanding == []
  {
    if s.outstanding != [] {
      var t := s.outstanding[0];
      SettledThread(s, t);
      assert ThreadOk(s, t);
      assert Enabled(s, Deliver(t, 0));
    }
  }

  /** All threads waiting and no alarm to come: without a lost alarm the queue must be empty. */
  lemma WaitingDrained(s: State)
    requires Inv(s) && AllWaiting(s) && s.outstanding == [] && !s.misused
    ensures s.queue == [] && s.needAlarm
  {
    forall x ensures !Holds(s, x) {
    }
  }

  /** With the queue empty too, every closure was called exactly as often as it was submitted. */
  lemma AllCalled(s0: State, run: seq<Action>, s: State)
    requires Init(s0) && Steps(s0, run, s) && AllWaiting(s) && s.queue == []
    ensures forall x :: multiset(s.ran)[x] == Occurrences(x, s0)
    ensures |s.ran| == Closures(s0)
  {
    forall x ensures multiset(s.ran)[x] == Occurrences(x, s0) {
      NeverCalledTwice(s0, run, s, x);
      SumConstant(HandMass(Is(x)), s.threads, 0);
    }
    InitWellFormed(s0);
    RunConserves(One, s0, run, s);
    SumConstant(HandMass(One), s.threads, 0);
    SumConstant(One, s.ran, 1);
  }

  /**
   The main liveness theorem. A run that can only go on by shutting down has an empty queue and the
   flag re-enabled, and every closure was called exactly as often as it was submitted.
   */
  lemma MaximalRunCallsEverything(s0: State, run: seq<Action>, s: State)
    requires Init(s0) && Steps(s0, run, s) && Quiet(s) && !s.misused
    ensures s.queue == [] && s.needAlarm && s.outstanding == []
    ensures forall x :: multiset(s.ran)[x] == Occurrences(x, s0)
    ensures |s.ran| == Closures(s0)
  {
    Safety(s0, run, s);
    forall t | 0 <= t < |s.threads|
      ensures s.threads[t].pending == [] && AtRest(s.threads[t])
        && (s.threads[t].phase.Outside? || s.threads[t].phase.Idle? || s.threads[t].phase.Exited?)
    {
      SettledThread(s, t);
      assert !Enabled(s, Emplace(t));
    }
    SettledAlarms(s);
    WaitingDrained(s);
    AllCalled(s0, run, s);
  }

  /** No deadlock: from every reachable state the work can be finished without shutting down. */
  lemma CanFinish(s: State) returns (run: seq<Action>, s': State)
    requires Inv(s)
    ensures Steps(s, run, s') && Quiet(s') && s'.closed == s.closed
  {
    run, s' := Drive(Working, s);
  }

  // ---- Economy ---------------------------------------------------------------------------------

  ghost function Pushing(th: Thread): nat
  {
    if th.push.Ready? then 0 else 1
  }

  /** Alarms set, pushes that have not decided yet, and events, in every reachable state. */
  ghost predicate Economy(s: State)
  {
    && s.armed + Sum(Pushing, s.threads) <= |s.pushed|
    && s.armed == s.delivered + |s.outstanding| + (if s.misused then 1 else 0)
  }

  lemma StepEconomy(s: State, a: Action)
    requires WellFormed(s) && TokenUnique(s) && Economy(s) && Enabled(s, a)
    ensures Economy(Step(s, a))
  {
    if a != Close {
      SumUpdate(Pushing, s.threads, a.t, Step(s, a).threads[a.t]);
    }
    if a.Arm? {
      assert Holds(s, ByPusher(a.t));
      assert !Holds(s, Lost);
    }
  }

  lemma {:induction false} RunEconomy(s: State, run: seq<Action>, s': State)
    requires Inv(s) && Economy(s) && Steps(s, run, s')
    ensures Economy(s')
    decreases |run|
  {
    if run != [] {
      StepInv(s, run[0]);
      StepEconomy(s, run[0]);
      RunEconomy(Step(s, run[0]), run[1..], s');
    }
  }

  /** At most one alarm per push, and at most one armed alarm is not delivered (or was lost). */
  lemma WakeupEconomy(s0: State, run: seq<Action>, s: State)
    requires Init(s0) && Steps(s0, run, s)
    ensures s.armed <= |s.pushed|
    ensures s.delivered <= s.armed <= s.delivered + 1
  {
    SumConstant(Pushing, s0.threads, 0);
    InitWellFormed(s0);
    InitToken(s0);
    RunEconomy(s0, run, s);
    Safety(s0, run, s);
    assert Holds(s, ByAlarm(0)) ==> !Holds(s, ByAlarm(1)) && !Holds(s, Lost);
  }
}
