/**
 The start-up barrier of the server: every thread runs the shared list of initializers on its own
 completion queue, then counts itself in; the thread that completes the count clears the list.
 */
module Startup {
  import opened Sums

  /** `Running(next, end)` is inside the range-for, whose end was read when it started. */
  datatype Worker = Absent | Created | Running(next: nat, end: nat) | Clearing | Serving

  /**
   `initializers` is the shared vector and `registered` what it held at construction; `seeded[t]` are
   the initializers called on queue `t`; `dangling` records a read past the vector's contents.
   */
  datatype State = State(
    registered: seq<nat>,
    initializers: seq<nat>,
    online: nat,
    workers: seq<Worker>,
    seeded: seq<seq<nat>>,
    clears: nat,
    dangling: bool)

  datatype Action = Spawn(t: nat) | Begin(t: nat) | Invoke(t: nat) | CountIn(t: nat) | Clear(t: nat)

  function Start(registered: seq<nat>, threads: nat): State
  {
    State(registered, registered, 0, seq(threads, i => Absent), seq(threads, i => []), 0, false)
  }

  predicate Enabled(s: State, a: Action)
  {
    && a.t < |s.workers| && a.t < |s.seeded|
    && match a
       case Spawn(t) => s.workers[t].Absent? && (forall u :: 0 <= u < t ==> !s.workers[u].Absent?)
       case Begin(t) => s.workers[t].Created?
       case Invoke(t) => s.workers[t].Running? && s.workers[t].next < s.workers[t].end
       case CountIn(t) => s.workers[t].Running? && s.workers[t].next >= s.workers[t].end
       case Clear(t) => s.workers[t].Clearing?
  }

  function Step(s: State, a: Action): State
    requires Enabled(s, a)
  {
    match a
    case Spawn(t) => s.(workers := s.workers[t := Created])
    case Begin(t) => s.(workers := s.workers[t := Running(0, |s.initializers|)])
    case Invoke(t) =>
      var w := s.workers[t];
      if w.next < |s.initializers| then
        s.(workers := s.workers[t := w.(next := w.next + 1)],
        seeded := s.seeded[t := s.seeded[t] + [s.initializers[w.next]]])
      else
        s.(workers := s.workers[t := w.(next := w.next + 1)], dangling := true)
    case CountIn(t) =>
      s.(online := s.online + 1,
      workers := s.workers[t := if s.online + 1 == |s.workers| then Clearing else Serving])
    case Clear(t) =>
      s.(initializers := [], clears := s.clears + 1, workers := s.workers[t := Serving])
  }

  ghost predicate Steps(s: State, run: seq<Action>, s': State)
    decreases |run|
  {
    if run == [] then s == s'
    else Enabled(s, run[0]) && Steps(Step(s, run[0]), run[1..], s')
  }

  lemma {:induction false} StepsConcat(s: State, a: seq<Action>, m: State, b: seq<Action>, s': State)
    requires Steps(s, a, m)
    ensures Steps(m, b, s') <==> Steps(s, a + b, s')
    decreases |a|
  {
    if a == [] {
      assert a + b == b;
    } else {
      assert (a + b)[0] == a[0] && (a + b)[1..] == a[1..] + b;
      StepsConcat(Step(s, a[0]), a[1..], m, b, s');
    }
  }

  /** Other threads do not move worker `t` or touch its completion queue, and may only bring it into being. */
  lemma {:induction false} OthersKeepWorker(s: State, run: seq<Action>, s': State, t: nat)
    requires Steps(s, run, s') && t < |s.workers| && t < |s.seeded|
    requires forall i :: 0 <= i < |run| ==> run[i].t != t
    ensures |s'.workers| == |s.workers| && |s'.seeded| == |s.seeded|
    ensures s'.workers[t] == s.workers[t] && s'.seeded[t] == s.seeded[t]
    decreases |run|
  {
    if run != [] {
      assert run[0].t != t;
      OthersKeepWorker(Step(s, run[0]), run[1..], s', t);
    }
  }

  /** Only the constructor's thread brings workers into being. */
  lemma {:induction false} OthersSpawnNothing(s: State, run: seq<Action>, s': State)
    requires Steps(s, run, s')
    requires forall i :: 0 <= i < |run| ==> !run[i].Spawn?
    ensures |s'.workers| == |s.workers| && |s'.seeded| == |s.seeded|
    ensures forall u :: 0 <= u < |s.workers| ==> (s'.workers[u].Absent? <==> s.workers[u].Absent?)
    decreases |run|
  {
    if run != [] {
      assert !run[0].Spawn?;
      OthersSpawnNothing(Step(s, run[0]), run[1..], s');
    }
  }

  // ---- Counting --------------------------------------------------------------------------------

  ghost function CountedIn(w: Worker): nat
  {
    if w.Clearing? || w.Serving? then 1 else 0
  }

  ghost function IsClearing(w: Worker): nat
  {
    if w.Clearing? then 1 else 0
  }

  /** One worker that has not counted itself in keeps the count below the number of threads. */
  lemma {:induction false} MissingWorker(ws: seq<Worker>, t: nat)
    requires t < |ws| && CountedIn(ws[t]) == 0
    ensures Sum(CountedIn, ws) < |ws|
  {
    if t == 0 {
      CountAtMost(ws[1..]);
    } else {
      MissingWorker(ws[1..], t - 1);
    }
  }

  lemma CountAtMost(ws: seq<Worker>)
    ensures Sum(CountedIn, ws) <= |ws|
  {
    if ws != [] {
      CountAtMost(ws[1..]);
    }
  }

  // ---- The invariant ---------------------------------------------------------------------------

  ghost predicate WorkerOk(s: State, t: nat)
    requires t < |s.workers| == |s.seeded|
  {
    match s.workers[t]
    case Absent => s.seeded[t] == []
    case Created => s.seeded[t] == []
    case Running(next, end) =>
      end == |s.registered| && next <= end && s.seeded[t] == s.registered[..next]
    case Clearing => s.seeded[t] == s.registered
    case Serving => s.seeded[t] == s.registered
  }

  ghost predicate Inv(s: State)
  {
    && |s.workers| == |s.seeded|
    && (forall t :: 0 <= t < |s.workers| ==> WorkerOk(s, t))
    && s.online == Sum(CountedIn, s.workers)
    && s.clears + Sum(IsClearing, s.workers) == (if 0 < s.online == |s.workers| then 1 else 0)
    && s.initializers == (if s.clears == 0 then s.registered else [])
    && !s.dangling
  }

  lemma StartInv(registered: seq<nat>, threads: nat)
    ensures Inv(Start(registered, threads))
  {
    var s := Start(registered, threads);
    SumConstant(CountedIn, s.workers, 0);
    SumConstant(IsClearing, s.workers, 0);
  }

  /** While some thread has not counted itself in, the list is complete and nobody is clearing it. */
  lemma IteratingKeepsList(s: State, t: nat)
    requires Inv(s) && t < |s.workers| && CountedIn(s.workers[t]) == 0
    ensures s.initializers == s.registered && s.clears == 0 && Sum(IsClearing, s.workers) == 0
    ensures s.online < |s.workers|
  {
    MissingWorker(s.workers, t);
  }

  lemma StepSums(s: State, a: Action)
    requires Inv(s) && Enabled(s, a)
    ensures |Step(s, a).workers| == |s.workers|
    ensures Sum(CountedIn, Step(s, a).workers) == Sum(CountedIn, s.workers) + if a.CountIn? then 1 else 0
    ensures Sum(IsClearing, Step(s, a).workers) + (if a.Clear? then 1 else 0)
      == Sum(IsClearing, s.workers) + if a.CountIn? && s.online + 1 == |s.workers| then 1 else 0
  {
    SumUpdate(CountedIn, s.workers, a.t, Step(s, a).workers[a.t]);
    SumUpdate(IsClearing, s.workers, a.t, Step(s, a).workers[a.t]);
  }

  lemma StepInv(s: State, a: Action)
    requires Inv(s) && Enabled(s, a)
    ensures Inv(Step(s, a))
  {
    var s' := Step(s, a);
    StepSums(s, a);
    assert WorkerOk(s, a.t);
    if CountedIn(s.workers[a.t]) == 0 {
      IteratingKeepsList(s, a.t);
    } else {
      SumMember(IsClearing, s.workers, a.t);
    }
    forall t | 0 <= t < |s.workers| ensures WorkerOk(s', t) {
      assert WorkerOk(s, t);
    }
  }

  lemma {:induction false} StepsInv(s: State, run: seq<Action>, s': State)
    requires Inv(s) && Steps(s, run, s')
    ensures Inv(s') && s'.registered == s.registered && |s'.workers| == |s.workers|
    decreases |run|
  {
    if run != [] {
      StepInv(s, run[0]);
      StepsInv(Step(s, run[0]), run[1..], s');
    }
  }

  // ---- Every interleaving ------------------------------------------------------------------------

  /**
   Safety of the barrier, for any number of threads and initializers under any interleaving: a thread
   still inside the loop sees the complete list, no element is read after the clear, and at most one
   thread clears.
   */
  lemma BarrierSafety(registered: seq<nat>, threads: nat, run: seq<Action>, s: State)
    requires Steps(Start(registered, threads), run, s)
    ensures !s.dangling && s.clears <= 1
    ensures forall t :: 0 <= t < |s.workers| && !s.workers[t].Clearing? && !s.workers[t].Serving? ==>
      s.initializers == registered && s.clears == 0
    ensures forall t, u :: 0 <= t < |s.workers| && 0 <= u < |s.workers| ==>
      !(s.workers[t].Clearing? && s.workers[u].Running?)
  {
    StartInv(registered, threads);
    StepsInv(Start(registered, threads), run, s);
    forall u | 0 <= u < |s.workers| && CountedIn(s.workers[u]) == 0
      ensures s.initializers == registered && s.clears == 0
      ensures forall t :: 0 <= t < |s.workers| ==> !s.workers[t].Clearing?
    {
      IteratingKeepsList(s, u);
      forall t | 0 <= t < |s.workers| ensures !s.workers[t].Clearing? {
        SumMember(IsClearing, s.workers, t);
      }
    }
  }

  ghost predicate Finished(s: State)
  {
    forall a :: !Enabled(s, a)
  }

  lemma FinishedServing(s: State, t: nat)
    requires Inv(s) && Finished(s) && t < |s.workers|
    ensures s.workers[t].Serving?
    decreases t
  {
    assert WorkerOk(s, t);
    assert !Enabled(s, Begin(t)) && !Enabled(s, Invoke(t)) && !Enabled(s, CountIn(t)) && !Enabled(s, Clear(t));
    if s.workers[t].Absent? {
      FirstAbsent(s, t);
    }
  }

  lemma {:induction false} FirstAbsent(s: State, t: nat)
    requires t < |s.workers| && t < |s.seeded| && s.workers[t].Absent?
    ensures !Finished(s)
    decreases t
  {
    if u :| 0 <= u < t && s.workers[u].Absent? {
      FirstAbsent(s, u);
    } else {
      assert Enabled(s, Spawn(t));
    }
  }

  /** What a state in which no thread can go on looks like. */
  lemma FinishedSeeds(s: State)
    requires Inv(s) && Finished(s)
    ensures forall t :: 0 <= t < |s.workers| ==> s.workers[t].Serving? && s.seeded[t] == s.registered
    ensures Seeds(s) == |s.workers| * |s.registered|
  {
    forall t | 0 <= t < |s.workers| ensures s.workers[t].Serving? && s.seeded[t] == s.registered {
      FinishedServing(s, t);
      assert WorkerOk(s, t);
    }
    SumConstant(Length, s.seeded, |s.registered|);
    assert |s.registered| * |s.workers| == |s.workers| * |s.registered|;
  }

  /**
   When no thread can go on, every queue has been seeded with every initializer exactly once and in
   order, all threads serve, and, if there are any, exactly one of them has cleared the list.
   */
  lemma BarrierOutcome(registered: seq<nat>, threads: nat, run: seq<Action>, s: State)
    requires Steps(Start(registered, threads), run, s) && Finished(s)
    ensures |s.seeded| == |s.workers| == threads
    ensures forall t :: 0 <= t < threads ==> s.seeded[t] == registered && s.workers[t].Serving?
    ensures s.online == threads && s.clears == (if threads == 0 then 0 else 1)
    ensures s.initializers == if threads == 0 then registered else []
    ensures Seeds(s) == threads * |registered|
  {
    StartInv(registered, threads);
    StepsInv(Start(registered, threads), run, s);
    FinishedSeeds(s);
    SumConstant(CountedIn, s.workers, 1);
    SumConstant(IsClearing, s.workers, 0);
  }

  ghost function Length(xs: seq<nat>): nat { |xs| }

  /** How many listeners the initializers have started, over all queues. */
  ghost function Seeds(s: State): nat
  {
    Sum(Length, s.seeded)
  }

  // ---- Step bound --------------------------------------------------------------------------------

  /** The steps a worker may still take, given the number of initializers. */
  ghost function ToGo(k: nat): Worker -> nat
  {
    (w: Worker) =>
      match w
      case Absent => k + 4
      case Created => k + 3
      case Running(next, end) => (if next < end then end - next else 0) + 2
      case Clearing => 1
      case Serving => 0
  }

  lemma StepToGo(s: State, a: Action)
    requires Inv(s) && Enabled(s, a)
    ensures Sum(ToGo(|s.registered|), Step(s, a).workers) < Sum(ToGo(|s.registered|), s.workers)
  {
    var k := |s.registered|;
    assert WorkerOk(s, a.t);
    if a.Begin? {
      IteratingKeepsList(s, a.t);
    }
    SumUpdate(ToGo(k), s.workers, a.t, Step(s, a).workers[a.t]);
  }

  lemma {:induction false} RunToGo(s: State, run: seq<Action>, s': State)
    requires Inv(s) && Steps(s, run, s')
    ensures |run| <= Sum(ToGo(|s.registered|), s.workers)
    decreases |run|
  {
    if run != [] {
      StepInv(s, run[0]);
      StepToGo(s, run[0]);
      RunToGo(Step(s, run[0]), run[1..], s');
    }
  }

  /** Start-up takes at most four steps per thread besides the calls of the initializers. */
  lemma BarrierTerminates(registered: seq<nat>, threads: nat, run: seq<Action>, s: State)
    requires Steps(Start(registered, threads), run, s)
    ensures |run| <= (|registered| + 4) * threads
  {
    StartInv(registered, threads);
    RunToGo(Start(registered, threads), run, s);
    SumConstant(ToGo(|registered|), Start(registered, threads).workers, |registered| + 4);
  }

  // ---- What each thread does -----------------------------------------------------------------------

  /** The steps of thread `t` in a run. */
  function StepsOf(run: seq<Action>, t: nat): seq<Action>
  {
    if run == [] then [] else (if run[0].t == t then [run[0]] else []) + StepsOf(run[1..], t)
  }

  /** Coming into being, entering the loop, and calling the first `n` initializers. */
  function Calling(t: nat, n: nat): seq<Action>
  {
    [Spawn(t), Begin(t)] + seq(n, i => Invoke(t))
  }

  /** What a thread that is at `w` has done, in order; `k` is the number of initializers. */
  predicate Did(t: nat, k: nat, w: Worker, did: seq<Action>)
  {
    match w
    case Absent => did == []
    case Created => did == [Spawn(t)]
    case Running(next, _) => did == Calling(t, next)
    case Clearing => did == Calling(t, k) + [CountIn(t)]
    case Serving => did == Calling(t, k) + [CountIn(t)] || did == Calling(t, k) + [CountIn(t), Clear(t)]
  }

  lemma StepDid(s: State, a: Action, did: seq<Action>)
    requires Inv(s) && Enabled(s, a) && Did(a.t, |s.registered|, s.workers[a.t], did)
    ensures Did(a.t, |s.registered|, Step(s, a).workers[a.t], did + [a])
  {
    assert WorkerOk(s, a.t);
    match a
    case Begin(t) => assert seq(0, i => Invoke(t)) == [];
    case Invoke(t) =>
      var n := s.workers[t].next;
      assert seq(n + 1, i => Invoke(t)) == seq(n, i => Invoke(t)) + [Invoke(t)];
    case Clear(t) => assert [CountIn(t)] + [Clear(t)] == [CountIn(t), Clear(t)];
    case _ =>
  }

  lemma {:induction false} RunDid(s: State, run: seq<Action>, s': State, t: nat, did: seq<Action>)
    requires Inv(s) && Steps(s, run, s') && t < |s.workers| && Did(t, |s.registered|, s.workers[t], did)
    ensures |s'.workers| == |s.workers| && Did(t, |s.registered|, s'.workers[t], did + StepsOf(run, t))
    decreases |run|
  {
    if run == [] {
      assert did + [] == did;
    } else {
      var mine := if run[0].t == t then [run[0]] else [];
      StepInv(s, run[0]);
      if run[0].t == t {
        StepDid(s, run[0], did);
      } else {
        assert did + mine == did;
      }
      RunDid(Step(s, run[0]), run[1..], s', t, did + mine);
      Assoc(did, mine, StepsOf(run[1..], t));
    }
  }

  /**
   In every run each thread has done a first part of the same program: it comes into being, enters the
   loop, calls an initializer for each one registered, counts itself in and, in one thread, clears.
   */
  lemma EachThreadInOrder(registered: seq<nat>, threads: nat, run: seq<Action>, s: State, t: nat)
    requires Steps(Start(registered, threads), run, s) && t < threads
    ensures |s.workers| == threads && Did(t, |registered|, s.workers[t], StepsOf(run, t))
  {
    StartInv(registered, threads);
    RunDid(Start(registered, threads), run, s, t, []);
    assert [] + StepsOf(run, t) == StepsOf(run, t);
  }
}
