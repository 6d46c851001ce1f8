/** The client completion queue: its dispatcher, its event loop and its shut-down. */
module ClientQueue {
  import opened Sums
  import opened Dispatch
  import opened Wakeups
  import opened Work
  import opened TearDown
  import opened LateAlarms
  import opened Interleaving
  import opened Refinement

  /** The index of the event-loop thread; every other thread only pushes. */
  const LOOP: nat := 0

  class ClientCq {
    var dispatched: seq<Closure>
    var alarmSet: bool

    // The completion queue: its undelivered alarm events, and whether it is shut down.
    var alarms: seq<nat>
    var shutDown: bool
    var alarmAfterShutdown: bool

    // The run so far of all threads together, and the state it has reached.
    ghost const origin: State
    ghost var trace: seq<Action>
    ghost var world: State

    /** The fields are what the run has made of them; the flag is kept the other way round. */
    ghost predicate Valid()
      reads this
    {
      && History(origin, trace, world)
      && origin.order == world.order == ClearThenDrain && origin.cqs == world.cqs == 1
      && world.queue == dispatched
      && world.needAlarm == !alarmSet
      && world.outstanding == alarms
      && world.closed == (if shutDown then 1 else 0)
      && world.misused == alarmAfterShutdown
    }

    /** The thread `t` is where `th` says. */
    ghost predicate At(t: nat, th: Thread)
      reads this
    {
      t < |world.threads| && world.threads[t] == th
    }

    /** What thread `t` has done so far. */
    ghost function Did(t: nat): seq<Doing>
      requires Valid()
      reads this
    {
      Doings(origin, trace, world, t)
    }

    constructor (ghost programs: seq<seq<PushCall>>)
      ensures Valid() && trace == [] && world == Start(ClearThenDrain, 1, programs)
    {
      dispatched, alarmSet := [], false;
      alarms, shutDown, alarmAfterShutdown := [], false, false;
      origin := Start(ClearThenDrain, 1, programs);
      world := Start(ClearThenDrain, 1, programs);
      trace := [];
    }

    /** The other threads run, as much or as little as they like. */
    method Interfere(t: nat)
      requires Valid()
      modifies this
      ensures Valid() && OnlyOthers(old(trace), trace, t)
    {
    }

    /** A point between two atomic steps of thread `t`: whatever happens there, `t` stays where it is. */
    method Yield(t: nat)
      requires Valid() && t < |world.threads|
      modifies this
      ensures Valid() && old(trace) <= trace && At(t, old(world.threads[t])) && Did(t) == old(Did(t))
      ensures 0 <= Measure(world) <= old(Measure(world)) && Inv(world)
    {
      Interfere(t);
      Relies(origin, old(trace), old(world), trace, world, t);
    }

    /** Ghost bookkeeping of one atomic step. */
    ghost method Record(a: Action)
      requires History(origin, trace, world) && Enabled(world, a)
      modifies `trace, `world
      ensures trace == old(trace) + [a] && world == Step(old(world), a)
      ensures History(origin, trace, world) && Inv(world)
      ensures !a.Close? ==>
        Doings(origin, trace, world, a.t) == Doings(origin, old(trace), old(world), a.t) + Does(old(world), a)
      ensures 0 <= Measure(world) < old(Measure(world))
    {
      Advances(origin, trace, world, a);
      trace, world := trace + [a], Step(world, a);
    }

    // ---- Atomic steps ----------------------------------------------------------------------------

    method Enqueue(t: nat, fn: Closure)
      requires Valid() && Enabled(world, Emplace(t)) && world.threads[t].pending[0].fn == fn
      modifies this
      ensures Valid() && trace == old(trace) + [Emplace(t)] && Did(t) == old(Did(t)) + [Appended(fn)]
      ensures var th := old(world.threads[t]);
        At(t, th.(pending := th.pending[1..], push := Emplaced(th.pending[0].cq)))
      ensures 0 <= Measure(world) < old(Measure(world))
    {
      dispatched := dispatched + [fn];
      Record(Emplace(t));
    }

    /** `m_alarm_set.test_and_set()`. */
    method TestAndSetFlag(t: nat) returns (was: bool)
      requires Valid() && Enabled(world, Exchange(t))
      modifies this
      ensures Valid() && trace == old(trace) + [Exchange(t)] && was == old(alarmSet)
      ensures Did(t) == old(Did(t)) + [Exchanged(!was)]
      ensures var th := old(world.threads[t]);
        At(t, th.(push := if was then Ready else Winner(th.push.cq)))
      ensures 0 <= Measure(world) < old(Measure(world))
    {
      was := alarmSet;
      alarmSet := true;
      Record(Exchange(t));
    }

    /** `Alarm::Set` with a deadline that has passed: one event on the queue, if it is not shut down. */
    method SetAlarm(t: nat)
      requires Valid() && t < |world.threads| && world.threads[t].push.Winner?
      modifies this
      ensures Valid() && trace == old(trace) + [Arm(t)] && At(t, old(world.threads[t]).(push := Ready))
      ensures Did(t) == old(Did(t)) + [AlarmSet(LOOP)]
      ensures if old(shutDown) then alarms == old(alarms) && alarmAfterShutdown
              else alarms == old(alarms) + [LOOP] && alarmAfterShutdown == old(alarmAfterShutdown)
      ensures 0 <= Measure(world) < old(Measure(world))
    {
      if shutDown {
        alarmAfterShutdown := true;
      } else {
        alarms := alarms + [LOOP];
      }
      Record(Arm(t));
    }

    method TryPop() returns (task: Option<Closure>)
      requires Valid() && Enabled(world, Dispatch.Pop(LOOP)) && world.threads[LOOP].phase.LastDrain?
      modifies this
      ensures Valid() && trace == old(trace) + [Dispatch.Pop(LOOP)]
      ensures task == if old(dispatched) == [] then None else Some(old(dispatched)[0])
      ensures task.None? ==> dispatched == []
      ensures var th := old(world.threads[LOOP]);
        At(LOOP, if task.Some? then th.(held := task) else th.(phase := Idle))
      ensures 0 <= Measure(world) < old(Measure(world))
    {
      if dispatched == [] {
        task := None;
      } else {
        task := Some(dispatched[0]);
        dispatched := dispatched[1..];
      }
      Record(Dispatch.Pop(LOOP));
    }

    /** `m_alarm_set.clear()`. */
    method ClearFlag()
      requires Valid() && At(LOOP, Thread(Enabling, None, [], Ready))
      modifies this
      ensures Valid() && trace == old(trace) + [Enable(LOOP)] && At(LOOP, Thread(LastDrain, None, [], Ready))
      ensures 0 <= Measure(world) < old(Measure(world))
    {
      alarmSet := false;
      Record(Enable(LOOP));
    }

    /** The completion queue hands out an alarm event. */
    method TakeEvent()
      requires Valid() && At(LOOP, IDLE_THREAD) && alarms != [] && alarms[0] == LOOP
      modifies this
      ensures Valid() && trace == old(trace) + [Deliver(LOOP, 0)] && At(LOOP, Thread(Enabling, None, [], Ready))
      ensures 0 <= Measure(world) < old(Measure(world))
    {
      alarms := alarms[1..];
      Record(Deliver(LOOP, 0));
    }

    /** The completion queue is shut down and has nothing left. */
    method LeaveLoop()
      requires Valid() && At(LOOP, IDLE_THREAD) && shutDown && alarms == []
      modifies this
      ensures Valid() && trace == old(trace) + [Exit(LOOP)] && At(LOOP, Thread(Exited, None, [], Ready))
      ensures alarms == old(alarms) && shutDown == old(shutDown)
      ensures 0 <= Measure(world) < old(Measure(world))
    {
      Record(Exit(LOOP));
    }

    /** The body of the popped closure starts. */
    ghost method StartCall(cb: Closure)
      requires Valid() && 0 < |world.threads| && world.threads[LOOP].held == Some(cb)
      modifies `trace, `world
      ensures Valid() && trace == old(trace) + [Call(LOOP)]
      ensures Did(LOOP) == old(Did(LOOP)) + Begins(cb)
      ensures At(LOOP, Thread(old(world.threads[LOOP].phase), None, Body(cb), Ready))
      ensures 0 <= Measure(world) < old(Measure(world))
    {
      Safety(origin, trace, world);
      assert ThreadOk(world, LOOP);
      Record(Call(LOOP));
    }

    // ---- Pushing, handling and shutting down ------------------------------------------------------------------

    /** Appends, then tests and sets the flag, then sets the alarm if it was clear; nothing else. */
    method Push(t: nat, fn: Closure) returns (ghost first: bool)
      requires Valid() && t < |world.threads| && AtRest(world.threads[t])
      requires world.threads[t].pending != [] && world.threads[t].pending[0].fn == fn
      modifies this
      ensures Valid() && old(trace) <= trace
      ensures Did(t) == old(Did(t)) + PushDoes(old(world.threads[t].pending[0]), first, 1)
      ensures At(t, old(world.threads[t]).(pending := old(world.threads[t].pending)[1..]))
      ensures 0 <= Measure(world) < old(Measure(world))
    {
      Yield(t);
      Enqueue(t, fn);
      first := WakeHandler(t);
      assert old(world.threads[t].pending[0]).cq % 1 == LOOP;
    }

    /** The second half of `push`: the first to set the flag sets the alarm. */
    method WakeHandler(t: nat) returns (first: bool)
      requires Valid() && t < |world.threads| && world.threads[t].push.Emplaced?
      modifies this
      ensures Valid() && old(trace) <= trace
      ensures Did(t) == old(Did(t)) + [Exchanged(first)] + if first then [AlarmSet(LOOP)] else []
      ensures At(t, old(world.threads[t]).(push := Ready))
      ensures 0 <= Measure(world) < old(Measure(world))
    {
      Yield(t);
      var was := TestAndSetFlag(t);
      first := !was;
      if first {
        Yield(t);
        SetAlarm(t);
      }
    }

    /** `if (*task) (*task)();`, where the body of the closure makes its pushes; an empty one does nothing. */
    method CallIfSet(task: Closure) returns (ghost firsts: seq<bool>)
      requires Valid() && 0 < |world.threads| && world.threads[LOOP].held == Some(task)
      modifies this
      ensures Valid() && old(trace) <= trace
      ensures |firsts| == |Body(task)|
      ensures Did(LOOP) == old(Did(LOOP)) + Begins(task) + PushesDo(Body(task), firsts, 1)
      ensures At(LOOP, Thread(old(world.threads[LOOP].phase), None, [], Ready))
      ensures 0 <= Measure(world) < old(Measure(world))
    {
      Yield(LOOP);
      StartCall(task);
      firsts := [];
      if task.Fn? {
        firsts := MakePushes(task.pushes);
      }
    }

    /** The pushes of a closure's body, in order. */
    method MakePushes(pushes: seq<PushCall>) returns (ghost firsts: seq<bool>)
      requires Valid() && 0 < |world.threads| && AtRest(world.threads[LOOP]) && world.threads[LOOP].pending == pushes
      modifies this
      ensures Valid() && old(trace) <= trace && |firsts| == |pushes|
      ensures Did(LOOP) == old(Did(LOOP)) + PushesDo(pushes, firsts, 1)
      ensures At(LOOP, old(world.threads[LOOP]).(pending := []))
      ensures 0 <= Measure(world) <= old(Measure(world))
      decreases |pushes|
    {
      if pushes == [] {
        Yield(LOOP);
        firsts := [];
      } else {
        ghost var first := Push(LOOP, pushes[0].fn);
        assert Did(LOOP) == old(Did(LOOP)) + PushDoes(pushes[0], first, 1);
        ghost var rest := MakePushes(pushes[1..]);
        firsts := [first] + rest;
        assert firsts[1..] == rest;
      }
    }

    method PopNext() returns (task: Option<Closure>)
      requires Valid() && At(LOOP, Thread(LastDrain, None, [], Ready))
      modifies this
      ensures Valid() && old(trace) <= trace && (task.None? ==> dispatched == [])
      ensures At(LOOP, Thread(if task.Some? then LastDrain else Idle, task, [], Ready))
      ensures 0 <= Measure(world) < old(Measure(world))
    {
      Yield(LOOP);
      task := TryPop();
    }

    /** The drain loop: pops and calls until the queue is seen empty. */
    method DrainUntilEmpty()
      requires Valid() && At(LOOP, Thread(LastDrain, None, [], Ready))
      modifies this
      ensures Valid() && old(trace) <= trace && At(LOOP, IDLE_THREAD) && dispatched == []
      ensures 0 <= Measure(world) < old(Measure(world))
    {
      var task := PopNext();
      while task.Some?
        invariant Valid() && old(trace) <= trace && (task.None? ==> dispatched == [])
        invariant At(LOOP, Thread(if task.Some? then LastDrain else Idle, task, [], Ready))
        invariant 0 <= Measure(world) < old(Measure(world))
        decreases Measure(world)
      {
        ghost var firsts := CallIfSet(task.value);
        task := PopNext();
      }
    }

    /**
     Clears the flag, then drains the queue, pushes of the running tasks included. On return the last
     look at the queue found it empty, and all that was pushed by then has been called, in order.
     */
    method HandleEvent()
      requires Valid() && At(LOOP, Thread(Enabling, None, [], Ready))
      modifies this
      ensures Valid() && old(trace) <= trace && At(LOOP, IDLE_THREAD)
      ensures dispatched == [] && world.ran == world.pushed
      ensures TokenUnique(world) && NoLostWakeup(world)
      ensures 0 <= Measure(world) < old(Measure(world))
    {
      Yield(LOOP);
      ClearFlag();
      DrainUntilEmpty();
      CalledInPushOrder();
    }

    /** While the loop has no closure in hand, what was called is what was pushed, less the queue. */
    lemma CalledInPushOrder()
      requires Valid() && 0 < |world.threads| && world.threads[LOOP].held.None?
      ensures world.pushed == world.ran + dispatched
      ensures TokenUnique(world) && NoLostWakeup(world)
    {
      Safety(origin, trace, world);
      SerialCallsInPushOrder(origin, trace, world);
    }

    /** `CompletionQueue::Next`: an event if there is one, else the end once the queue is shut down. */
    method Next() returns (r: NextResult)
      requires Valid() && At(LOOP, IDLE_THREAD)
      modifies this
      ensures Valid() && old(trace) <= trace
      ensures r.Event? ==> At(LOOP, Thread(Enabling, None, [], Ready))
      ensures r.ShutDown? ==> At(LOOP, Thread(Exited, None, [], Ready)) && alarms == [] && shutDown
      ensures r.Blocked? ==> At(LOOP, IDLE_THREAD) && alarms == [] && !shutDown
      ensures 0 <= Measure(world) <= old(Measure(world))
    {
      Yield(LOOP);
      if alarms != [] {
        Safety(origin, trace, world);
        TakeEvent();
        r := Event;
      } else if shutDown {
        LeaveLoop();
        r := ShutDown;
      } else {
        r := Blocked;
      }
    }

    /** The thread of the constructor: handles events until `Next` returns false, or waits for ever. */
    method EventLoop() returns (returned: bool)
      requires Valid() && At(LOOP, IDLE_THREAD)
      modifies this
      ensures Valid() && old(trace) <= trace
      ensures At(LOOP, Thread(if returned then Exited else Idle, None, [], Ready))
      ensures alarms == [] && returned == shutDown
      ensures world.pushed == world.ran + dispatched
      ensures returned && Joined(world) && !alarmAfterShutdown ==> dispatched == [] && world.ran == world.pushed
    {
      var r := Next();
      while r.Event?
        invariant Valid() && old(trace) <= trace
        invariant At(LOOP, Thread(
          match r case Event => Enabling case ShutDown => Exited case Blocked => Idle, None, [], Ready))
        invariant !r.Event? ==> alarms == [] && r.ShutDown? == shutDown
        invariant 0 <= Measure(world)
        decreases Measure(world)
      {
        HandleEvent();
        r := Next();
      }
      returned := r.ShutDown?;
      CalledInPushOrder();
      if Joined(world) && !alarmAfterShutdown {
        JoinDrains(origin, trace, world);
      }
    }

    /** The destructor up to the join: shuts the queue down; the event loop then ends by itself. */
    method Shutdown()
      requires Valid() && !shutDown
      modifies this
      ensures Valid() && trace == old(trace) + [Close] && shutDown
      ensures dispatched == old(dispatched) && alarms == old(alarms) && alarmSet == old(alarmSet)
    {
      shutDown := true;
      Record(Close);
    }

    /**
     Going on from here, shutting down included, never sets an alarm on the queue after its shut-down if
     and only if none was, the other threads have made their pushes, and either nobody has anything left
     to push or the loop is draining with an alarm already set.
     */
    lemma NoLateAlarmIff()
      requires Valid()
      ensures NoLateAlarm(world) <==>
        && !alarmAfterShutdown && PushersDone(world)
        && (PushesOver(world) || DrainsWithAlarm(world))
    {
      ClientNoLateAlarmIff(origin, trace, world);
    }
  }
}
