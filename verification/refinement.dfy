/** The dispatcher refines the abstract service, for both handler orders and any number of threads. */
module Refinement {
  import opened Sums
  import opened Dispatch
  import opened Wakeups
  import opened Fifo
  import opened TearDown

  /** The closures popped and not called yet, over all threads. */
  ghost function Held(ths: seq<Thread>): multiset<Closure>
  {
    if ths == [] then multiset{} else HeldBy(ths[0]) + Held(ths[1..])
  }

  ghost function HeldBy(th: Thread): multiset<Closure>
  {
    if th.held.Some? then multiset{th.held.value} else multiset{}
  }

  lemma Cancel<T>(a: multiset<T>, b: multiset<T>, h: multiset<T>)
    requires a + h == b + h
    ensures a == b
  {
    assert a == a + h - h;
    assert b == b + h - h;
  }

  ghost function HeldCount(x: Closure): Thread -> nat
  {
    (th: Thread) => HeldBy(th)[x]
  }

  lemma {:induction false} HeldIsSum(x: Closure, ths: seq<Thread>)
    ensures Held(ths)[x] == Sum(HeldCount(x), ths)
  {
    if ths != [] {
      HeldIsSum(x, ths[1..]);
    }
  }

  lemma HeldUpdate(ths: seq<Thread>, t: nat, th: Thread)
    requires t < |ths|
    ensures Held(ths[t := th]) + HeldBy(ths[t]) == Held(ths) + HeldBy(th)
  {
    forall x ensures (Held(ths[t := th]) + HeldBy(ths[t]))[x] == (Held(ths) + HeldBy(th))[x] {
      HeldIsSum(x, ths);
      HeldIsSum(x, ths[t := th]);
      SumUpdate(HeldCount(x), ths, t, th);
    }
  }

  lemma {:induction false} HeldEmpty(ths: seq<Thread>)
    requires forall t :: 0 <= t < |ths| ==> ths[t].held.None?
    ensures Held(ths) == multiset{}
  {
    if ths != [] {
      HeldEmpty(ths[1..]);
    }
  }

  /** The abstract view of a dispatcher state. */
  ghost function View(s: State): Service<Closure>
  {
    Service(s.queue, Held(s.threads), s.pushed, s.popped, s.ran)
  }

  /** What an action looks like from outside. */
  ghost function LabelOf(s: State, a: Action): Label<Closure>
    requires Enabled(s, a)
  {
    match a
    case Emplace(t) => Submit(s.threads[t].pending[0].fn)
    case Pop(t) => if s.queue == [] then Internal else Take
    case Call(t) => Run(s.threads[t].held.value)
    case _ => Internal
  }

  /** A step changes what is in hand only by taking one closure or by calling one. */
  lemma StepHeld(s: State, a: Action)
    requires WellFormed(s) && Enabled(s, a)
    ensures a.Pop? && s.queue != [] ==>
      Held(Step(s, a).threads) == Held(s.threads) + multiset{s.queue[0]}
    ensures a.Call? ==>
      && s.threads[a.t].held.value in Held(s.threads)
      && Held(Step(s, a).threads) == Held(s.threads) - multiset{s.threads[a.t].held.value}
    ensures !(a.Pop? && s.queue != []) && !a.Call? ==> Held(Step(s, a).threads) == Held(s.threads)
  {
    if a != Close {
      assert ThreadOk(s, a.t);
      var before, after := Held(s.threads), Held(Step(s, a).threads);
      var mine, new' := HeldBy(s.threads[a.t]), HeldBy(Step(s, a).threads[a.t]);
      HeldUpdate(s.threads, a.t, Step(s, a).threads[a.t]);
      if a.Call? {
        assert after + mine == before;
        assert after == after + mine - mine;
        assert mine <= before;
      } else if a.Pop? && s.queue != [] {
        assert after == before + new';
      } else {
        Cancel(after, before, mine);
      }
    }
  }

  lemma StepRefines(s: State, a: Action)
    requires WellFormed(s) && Enabled(s, a)
    ensures Next(View(s), LabelOf(s, a), View(Step(s, a)))
  {
    StepHeld(s, a);
  }

  /** The labels of a run. */
  ghost function Labels(s: State, run: seq<Action>, s': State): (ls: seq<Label<Closure>>)
    requires Steps(s, run, s')
    ensures |ls| == |run|
    decreases |run|
  {
    if run == [] then []
    else [LabelOf(s, run[0])] + Labels(Step(s, run[0]), run[1..], s')
  }

  lemma {:induction false} RunRefines(s: State, run: seq<Action>, s': State)
    requires WellFormed(s) && Steps(s, run, s')
    ensures Behaves(View(s), Labels(s, run, s'), View(s'))
    decreases |run|
  {
    if run != [] {
      var m := Step(s, run[0]);
      StepWellFormed(s, run[0]);
      StepRefines(s, run[0]);
      RunRefines(m, run[1..], s');
      var ls := Labels(s, run, s');
      assert ls[1..] == Labels(m, run[1..], s');
      assert Next(View(s), ls[0], View(m)) && Behaves(View(m), ls[1..], View(s'));
    }
  }

  /** Every run of either dispatcher is a behaviour of the abstract service, from its empty state. */
  lemma DispatcherRefinesService(s0: State, run: seq<Action>, s: State)
    requires Init(s0) && Steps(s0, run, s)
    ensures Empty(View(s0)) && Behaves(View(s0), Labels(s0, run, s), View(s))
  {
    InitWellFormed(s0);
    HeldEmpty(s0.threads);
    RunRefines(s0, run, s);
  }

  /** Closures leave the queue in the order in which they were pushed, and none is called unpopped. */
  lemma FirstInFirstOut(s0: State, run: seq<Action>, s: State)
    requires Init(s0) && Steps(s0, run, s)
    ensures s.pushed == s.popped + s.queue
    ensures multiset(s.popped) == multiset(s.ran) + Held(s.threads)
  {
    DispatcherRefinesService(s0, run, s);
    BehavesLedger(View(s0), Labels(s0, run, s), View(s));
  }

  // ---- One completion queue: calls are serial ----------------------------------------------------

  ghost function HeldSeq(th: Thread): seq<Closure>
  {
    if th.held.Some? then [th.held.value] else []
  }

  lemma {:induction false} RunSerial(s: State, run: seq<Action>, s': State)
    requires WellFormed(s) && s.cqs == 1 && s.popped == s.ran + HeldSeq(s.threads[0])
    requires Steps(s, run, s')
    ensures WellFormed(s') && s'.cqs == 1 && s'.popped == s'.ran + HeldSeq(s'.threads[0])
    decreases |run|
  {
    if run != [] {
      var a := run[0];
      StepWellFormed(s, a);
      if a != Close {
        assert ThreadOk(s, a.t);
      }
      RunSerial(Step(s, a), run[1..], s');
    }
  }

  /** With one completion queue, closures are called one at a time in exactly the order of pushing. */
  lemma SerialCallsInPushOrder(s0: State, run: seq<Action>, s: State)
    requires Init(s0) && Steps(s0, run, s) && s0.cqs == 1
    ensures |s.threads| > 0 && s.pushed == s.ran + HeldSeq(s.threads[0]) + s.queue
  {
    InitWellFormed(s0);
    RunSerial(s0, run, s);
    FirstInFirstOut(s0, run, s);
  }

  /** With one completion queue, tear-down ends with exactly what was pushed called, in that order. */
  lemma SerialTearDown(s0: State, before: seq<Action>, s: State, after: seq<Action>, s': State)
    requires Init(s0) && s0.cqs == 1 && Steps(s0, before, s) && s.closed == 0 && PushersDone(s)
    requires Steps(s, after, s') && Joined(s')
    ensures s'.queue == [] && s'.ran == s'.pushed
  {
    TearDownDrains(s0, before, s, after, s');
    StepsConcat(s0, before, s, after, s');
    Safety(s0, before + after, s');
    JoinedWaiting(s');
    SerialCallsInPushOrder(s0, before + after, s');
  }
}
