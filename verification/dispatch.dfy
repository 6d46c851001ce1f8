/**
 The cross-thread dispatchers: any number of threads append closures to one queue, an atomic flag
 decides which of them arms the single alarm, and the thread that receives the alarm event drains
 the queue.

 `Server` and `ClientCq` run the same `push`; their handlers differ in where the flag is re-enabled,
 which is the `order` of the configuration. Every action below is one atomic step of one thread.
 */
module Dispatch {
  import opened Sums

  /** A `std::function<void()>`: empty, or a body that itself pushes further closures in order. */
  datatype Closure = Null | Fn(id: nat, pushes: seq<PushCall>)

  /** The pushes that a closure makes. */
  function Body(c: Closure): seq<PushCall>
  {
    if c.Fn? then c.pushes else []
  }

  /** The arguments of one call of `push(fn, cq_idx)`. */
  datatype PushCall = PushCall(fn: Closure, cq: nat)

  /** Where a thread is inside `push`. */
  datatype PushPc =
    | Ready              // not inside `push`, or about to append the next closure
    | Emplaced(cq: nat)  // appended, flag not exchanged yet
    | Winner(cq: nat)    // won the exchange, alarm not set yet

  /** Where a thread is outside `push`. */
  datatype Phase =
    | Outside     // not a completion-queue thread
    | Idle        // blocked in `Next`
    | FirstDrain  // draining before the flag is re-enabled
    | Enabling    // about to re-enable the flag
    | LastDrain   // draining after the flag was re-enabled
    | Exited      // `Next` returned false

  /** `held` is a closure popped but not called yet; `pending` are the pushes still to be made. */
  datatype Thread = Thread(phase: Phase, held: Option<Closure>, pending: seq<PushCall>, push: PushPc)

  /** The server drains, enables, drains again; the client clears its flag and drains once. */
  datatype Order = DrainEnableDrain | ClearThenDrain

  /**
   `needAlarm` is the flag (the negation of the client's `m_alarm_set`); `outstanding` lists the
   queues with an alarm armed or fired and not delivered yet; the first `cqs` threads serve the queue
   of their own index and the rest only push; the queues below `closed` are shut down; `misused`
   records an alarm set on a queue that is shut down. `pushed`, `popped`, `ran`, `armed` and
   `delivered` are history.
   */
  datatype State = State(
    order: Order,
    cqs: nat,
    queue: seq<Closure>,
    needAlarm: bool,
    outstanding: seq<nat>,
    threads: seq<Thread>,
    closed: nat,
    misused: bool,
    pushed: seq<Closure>,
    popped: seq<Closure>,
    ran: seq<Closure>,
    armed: nat,
    delivered: nat)

  datatype Action =
    | Emplace(t: nat)
    | Exchange(t: nat)
    | Arm(t: nat)
    | Deliver(t: nat, k: nat)
    | Pop(t: nat)
    | Call(t: nat)
    | Enable(t: nat)
    | Close
    | Exit(t: nat)

  const IDLE_THREAD := Thread(Idle, None, [], Ready)

  function Pusher(program: seq<PushCall>): Thread
  {
    Thread(Outside, None, program, Ready)
  }

  /** All completion-queue threads idle, everything empty, and one program for each other thread. */
  ghost predicate Init(s: State)
  {
    && 0 < s.cqs <= |s.threads|
    && (forall t :: 0 <= t < s.cqs ==> s.threads[t] == IDLE_THREAD)
    && (forall t :: s.cqs <= t < |s.threads| ==> s.threads[t] == Pusher(s.threads[t].pending))
    && s.queue == s.pushed == s.popped == s.ran == []
    && s.outstanding == []
    && s.needAlarm && !s.misused
    && s.closed == s.armed == s.delivered == 0
  }

  /** The state right after construction, with one program for each thread that only pushes. */
  function Start(order: Order, cqs: nat, programs: seq<seq<PushCall>>): (s: State)
    requires 0 < cqs
    ensures Init(s)
  {
    var threads := seq(cqs, i => IDLE_THREAD) + seq(|programs|, i requires 0 <= i < |programs| => Pusher(programs[i]));
    State(order, cqs, [], true, [], threads, 0, false, [], [], [], 0, 0)
  }

  /** The thread is between two statements of its own code and not inside `push`. */
  predicate AtRest(th: Thread)
  {
    th.push.Ready? && th.held.None?
  }

  predicate Draining(th: Thread)
  {
    th.phase.FirstDrain? || th.phase.LastDrain?
  }

  predicate Enabled(s: State, a: Action)
  {
    match a
    case Emplace(t) => t < |s.threads| && AtRest(s.threads[t]) && s.threads[t].pending != []
    case Exchange(t) => t < |s.threads| && s.threads[t].push.Emplaced?
    case Arm(t) => t < |s.threads| && s.threads[t].push.Winner? && 0 < s.cqs
    case Deliver(t, k) =>
      t < |s.threads| && s.threads[t].phase.Idle? && k < |s.outstanding| && s.outstanding[k] == t
    case Pop(t) =>
      t < |s.threads| && Draining(s.threads[t]) && AtRest(s.threads[t]) && s.threads[t].pending == []
    case Call(t) => t < |s.threads| && s.threads[t].held.Some?
    case Enable(t) => t < |s.threads| && s.threads[t].phase.Enabling?
    case Close => s.closed < s.cqs
    case Exit(t) => t < |s.threads| && s.threads[t].phase.Idle? && t < s.closed && t !in s.outstanding
  }

  function Step(s: State, a: Action): State
    requires Enabled(s, a)
  {
    match a
    case Emplace(t) =>
      var th := s.threads[t];
      var p := th.pending[0];
      s.(queue := s.queue + [p.fn],
      pushed := s.pushed + [p.fn],
      threads := s.threads[t := th.(pending := th.pending[1..], push := Emplaced(p.cq))])
    case Exchange(t) =>
      var th := s.threads[t];
      s.(needAlarm := false,
      threads := s.threads[t := th.(push := if s.needAlarm then Winner(th.push.cq) else Ready)])
    case Arm(t) =>
      var th := s.threads[t];
      var target := th.push.cq % s.cqs;
      s.(outstanding := if target < s.closed then s.outstanding else s.outstanding + [target],
      misused := s.misused || target < s.closed,
      armed := s.armed + 1,
      threads := s.threads[t := th.(push := Ready)])
    case Deliver(t, k) =>
      s.(outstanding := s.outstanding[..k] + s.outstanding[k + 1..],
      delivered := s.delivered + 1,
      threads := s.threads[t := s.threads[t].(phase :=
        if s.order.DrainEnableDrain? then FirstDrain else Enabling)])
    case Pop(t) =>
      var th := s.threads[t];
      if s.queue == [] then
        s.(threads := s.threads[t := th.(phase := if th.phase.FirstDrain? then Enabling else Idle)])
      else
        s.(queue := s.queue[1..],
        popped := s.popped + [s.queue[0]],
        threads := s.threads[t := th.(held := Some(s.queue[0]))])
    case Call(t) =>
      var th := s.threads[t];
      var c := th.held.value;
      s.(ran := s.ran + [c],
      threads := s.threads[t := th.(held := None, pending := Body(c))])
    case Enable(t) =>
      s.(needAlarm := true, threads := s.threads[t := s.threads[t].(phase := LastDrain)])
    case Close => s.(closed := s.closed + 1)
    case Exit(t) => s.(threads := s.threads[t := s.threads[t].(phase := Exited)])
  }

  /** The actions `run` lead from `s` to `s'`. */
  ghost predicate Steps(s: State, run: seq<Action>, s': State)
    decreases |run|
  {
    if run == [] then s == s'
    else Enabled(s, run[0]) && Steps(Step(s, run[0]), run[1..], s')
  }

  lemma {:induction false} StepsConcat(s: State, a: seq<Action>, m: State, b: seq<Action>, s': State)
    requires Steps(s, a, m) && Steps(m, b, s')
    ensures Steps(s, a + b, s')
    decreases |a|
  {
    if a == [] {
      assert a + b == b;
    } else {
      assert (a + b)[0] == a[0] && (a + b)[1..] == a[1..] + b;
      StepsConcat(Step(s, a[0]), a[1..], m, b, s');
    }
  }

  lemma StepsSnoc(s: State, run: seq<Action>, m: State, a: Action)
    requires Steps(s, run, m) && Enabled(m, a)
    ensures Steps(s, run + [a], Step(m, a))
  {
    assert [a][1..] == [];
    assert Steps(Step(m, a), [a][1..], Step(m, a));
    StepsConcat(s, run, m, [a], Step(m, a));
  }

  lemma {:induction false} StepsSuffix(s: State, a: seq<Action>, m: State, b: seq<Action>, s': State)
    requires Steps(s, a, m) && Steps(s, a + b, s')
    ensures Steps(m, b, s')
    decreases |a|
  {
    if a == [] {
      assert a + b == b;
    } else {
      assert (a + b)[0] == a[0] && (a + b)[1..] == a[1..] + b;
      StepsSuffix(Step(s, a[0]), a[1..], m, b, s');
    }
  }

  /** The action is a step of thread `t`; shutting a queue down is nobody's step. */
  predicate By(a: Action, t: nat)
  {
    !a.Close? && a.t == t
  }

  /** Other threads neither move thread `t` nor change the configuration. */
  lemma {:induction false} OthersKeepThread(s: State, run: seq<Action>, s': State, t: nat)
    requires Steps(s, run, s')
    requires forall i :: 0 <= i < |run| ==> !By(run[i], t)
    ensures |s'.threads| == |s.threads| && s'.order == s.order && s'.cqs == s.cqs
    ensures t < |s.threads| ==> s'.threads[t] == s.threads[t]
    decreases |run|
  {
    if run != [] {
      assert !By(run[0], t);
      OthersKeepThread(Step(s, run[0]), run[1..], s', t);
    }
  }
}
