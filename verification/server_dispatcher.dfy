/** The dispatcher half of the server class, run by any of its threads against any interleaving. */
module ServerDispatcher {
  import opened Sums
  import opened Dispatch
  import opened Wakeups
  import opened Work
  import opened TearDown
  import opened Interleaving
  import opened Alarms
  import opened Refinement

  class Server {
    var dispatchQueue: seq<Closure>
    var dispatchNeedAlarm: bool
    const cqCount: nat

    // The completion queues: alarm events not delivered yet, and how many queues are shut down.
    var alarms: seq<nat>
    var shutDown: nat
    var alarmAfterShutdown: bool

    // The run so far of all threads together, and the state it has reached.
    ghost const origin: State
    ghost var trace: seq<Action>
    ghost var world: State

    /** The fields are what the run has made of them. */
    ghost predicate Valid()
      reads this
    {
      && History(origin, trace, world)
      && world.order == DrainEnableDrain && world.cqs == cqCount > 0
      && world.queue == dispatchQueue
      && world.needAlarm == dispatchNeedAlarm
      && world.outstanding == alarms
      && world.closed == shutDown
      && world.misused == alarmAfterShutdown
    }

    /** The thread `t` is where `th` says. */
    ghost predicate At(t: nat, th: Thread)
      reads this
    {
      t < |world.threads| && world.threads[t] == th
    }

    /** What thread `t` has done so far. */
    ghost function Did(t: nat): seq<Doing>
      requires Valid()
      reads this
    {
      Doings(origin, trace, world, t)
    }

    constructor (threadCount: nat, ghost programs: seq<seq<PushCall>>)
      requires 0 < threadCount
      ensures Valid() && trace == [] && world == Start(DrainEnableDrain, threadCount, programs)
    {
      dispatchQueue, dispatchNeedAlarm, cqCount := [], true, threadCount;
      alarms, shutDown, alarmAfterShutdown := [], 0, false;
      origin := Start(DrainEnableDrain, threadCount, programs);
      world := Start(DrainEnableDrain, threadCount, programs);
      trace := [];
    }

    /** The other threads run, as much or as little as they like. */
    method Interfere(t: nat)
      requires Valid()
      modifies this
      ensures Valid() && OnlyOthers(old(trace), trace, t)
    {
    }

    /** A point between two atomic steps of thread `t`: whatever happens there, `t` stays where it is. */
    method Yield(t: nat)
      requires Valid() && t < |world.threads|
      modifies this
      ensures Valid() && old(trace) <= trace && At(t, old(world.threads[t])) && Did(t) == old(Did(t))
      ensures 0 <= Measure(world) <= old(Measure(world)) && Inv(world)
    {
      Interfere(t);
      Relies(origin, old(trace), old(world), trace, world, t);
    }

    /** Ghost bookkeeping of one atomic step. */
    ghost method Record(a: Action)
      requires History(origin, trace, world) && Enabled(world, a)
      modifies `trace, `world
      ensures trace == old(trace) + [a] && world == Step(old(world), a)
      ensures History(origin, trace, world) && Inv(world)
      ensures !a.Close? ==>
        Doings(origin, trace, world, a.t) == Doings(origin, old(trace), old(world), a.t) + Does(old(world), a)
      ensures 0 <= Measure(world) < old(Measure(world))
    {
      Advances(origin, trace, world, a);
      trace, world := trace + [a], Step(world, a);
    }

    // ---- Atomic steps ----------------------------------------------------------------------------

    method Enqueue(t: nat, fn: Closure)
      requires Valid() && Enabled(world, Emplace(t)) && world.threads[t].pending[0].fn == fn
      modifies this
      ensures Valid() && trace == old(trace) + [Emplace(t)] && Did(t) == old(Did(t)) + [Appended(fn)]
      ensures var th := old(world.threads[t]);
        At(t, th.(pending := th.pending[1..], push := Emplaced(th.pending[0].cq)))
      ensures 0 <= Measure(world) < old(Measure(world))
    {
      dispatchQueue := dispatchQueue + [fn];
      Record(Emplace(t));
    }

    /** `m_dispatch_need_alarm.exchange(false)`. */
    method ExchangeFlag(t: nat) returns (first: bool)
      requires Valid() && Enabled(world, Exchange(t))
      modifies this
      ensures Valid() && trace == old(trace) + [Exchange(t)] && first == old(dispatchNeedAlarm)
      ensures Did(t) == old(Did(t)) + [Exchanged(first)]
      ensures var th := old(world.threads[t]);
        At(t, th.(push := if first then Winner(th.push.cq) else Ready))
      ensures 0 <= Measure(world) < old(Measure(world))
    {
      first := dispatchNeedAlarm;
      dispatchNeedAlarm := false;
      Record(Exchange(t));
    }

    /** `Alarm::Set` with a deadline that has passed: one event on the queue, if it is not shut down. */
    method SetAlarm(t: nat, cqIdx: nat)
      requires Valid() && t < |world.threads| && world.threads[t].push.Winner?
      requires 0 < cqCount && cqIdx == world.threads[t].push.cq % cqCount
      modifies this
      ensures Valid() && trace == old(trace) + [Arm(t)] && At(t, old(world.threads[t]).(push := Ready))
      ensures Did(t) == old(Did(t)) + [AlarmSet(cqIdx)]
      ensures if cqIdx < old(shutDown) then alarms == old(alarms) && alarmAfterShutdown
              else alarms == old(alarms) + [cqIdx] && alarmAfterShutdown == old(alarmAfterShutdown)
      ensures 0 <= Measure(world) < old(Measure(world))
    {
      if cqIdx < shutDown {
        alarmAfterShutdown := true;
      } else {
        alarms := alarms + [cqIdx];
      }
      Record(Arm(t));
    }

    method TryPop(t: nat) returns (cb: Option<Closure>)
      requires Valid() && Enabled(world, Dispatch.Pop(t))
      modifies this
      ensures Valid() && trace == old(trace) + [Dispatch.Pop(t)]
      ensures cb == if old(dispatchQueue) == [] then None else Some(old(dispatchQueue)[0])
      ensures cb.None? ==> dispatchQueue == []
      ensures var th := old(world.threads[t]);
        At(t, if cb.Some? then th.(held := cb)
        else th.(phase := if th.phase.FirstDrain? then Enabling else Idle))
      ensures 0 <= Measure(world) < old(Measure(world))
    {
      if dispatchQueue == [] {
        cb := None;
      } else {
        cb := Some(dispatchQueue[0]);
        dispatchQueue := dispatchQueue[1..];
      }
      Record(Dispatch.Pop(t));
    }

    /** `m_dispatch_need_alarm.store(true)`. */
    method EnableAlarm(t: nat)
      requires Valid() && At(t, Thread(Enabling, None, [], Ready))
      modifies this
      ensures Valid() && trace == old(trace) + [Enable(t)] && At(t, Thread(LastDrain, None, [], Ready))
      ensures 0 <= Measure(world) < old(Measure(world))
    {
      dispatchNeedAlarm := true;
      Record(Enable(t));
    }

    /** The completion queue of thread `t` hands out an alarm event. */
    method TakeEvent(t: nat, k: nat)
      requires Valid() && At(t, IDLE_THREAD) && k < |alarms| && alarms[k] == t
      modifies this
      ensures alarms == old(alarms[..k]) + old(alarms[k + 1..])
      ensures Valid() && trace == old(trace) + [Deliver(t, k)] && At(t, Thread(FirstDrain, None, [], Ready))
      ensures 0 <= Measure(world) < old(Measure(world))
    {
      alarms := alarms[..k] + alarms[k + 1..];
      Record(Deliver(t, k));
    }

    /** The completion queue of thread `t` is shut down and has nothing left. */
    method LeaveLoop(t: nat)
      requires Valid() && At(t, IDLE_THREAD) && t < shutDown && t !in alarms
      modifies this
      ensures Valid() && trace == old(trace) + [Exit(t)] && At(t, Thread(Exited, None, [], Ready))
      ensures shutDown == old(shutDown) && alarms == old(alarms)
      ensures 0 <= Measure(world) < old(Measure(world))
    {
      Record(Exit(t));
    }

    /** The body of the popped closure starts. */
    ghost method StartCall(t: nat, cb: Closure)
      requires Valid() && t < |world.threads| && world.threads[t].held == Some(cb)
      modifies `trace, `world
      ensures Valid() && trace == old(trace) + [Call(t)]
      ensures Did(t) == old(Did(t)) + Begins(cb)
      ensures At(t, Thread(old(world.threads[t].phase), None, Body(cb), Ready))
      ensures 0 <= Measure(world) < old(Measure(world))
    {
      Safety(origin, trace, world);
      assert ThreadOk(world, t);
      Record(Call(t));
    }

    // ---- Pushing, handling and shutting down ------------------------------------------------------------------

    /** Appends, then exchanges the flag, then sets the alarm if it took the flag; nothing else. */
    method Push(t: nat, fn: Closure, cqIdx: nat) returns (ghost first: bool)
      requires Valid() && t < |world.threads| && AtRest(world.threads[t])
      requires world.threads[t].pending != [] && world.threads[t].pending[0] == PushCall(fn, cqIdx)
      modifies this
      ensures Valid() && old(trace) <= trace
      ensures Did(t) == old(Did(t)) + PushDoes(PushCall(fn, cqIdx), first, cqCount)
      ensures At(t, old(world.threads[t]).(pending := old(world.threads[t].pending)[1..]))
      ensures 0 <= Measure(world) < old(Measure(world))
    {
      Yield(t);
      Enqueue(t, fn);
      first := WakeHandler(t, cqIdx);
    }

    /** `push(fn)`: the alarm, if it has to be set, goes to the first queue. */
    method PushToFirst(t: nat, fn: Closure) returns (ghost first: bool)
      requires Valid() && t < |world.threads| && AtRest(world.threads[t])
      requires world.threads[t].pending != [] && world.threads[t].pending[0] == PushCall(fn, 0)
      modifies this
      ensures Valid() && old(trace) <= trace
      ensures Did(t) == old(Did(t)) + [Appended(fn), Exchanged(first)] + if first then [AlarmSet(0)] else []
      ensures At(t, old(world.threads[t]).(pending := old(world.threads[t].pending)[1..]))
    {
      first := Push(t, fn, 0);
    }

    /** The second half of `push`: the first to take the flag sets the alarm on the chosen queue. */
    method WakeHandler(t: nat, cqIdx: nat) returns (first: bool)
      requires Valid() && t < |world.threads| && world.threads[t].push == Emplaced(cqIdx)
      modifies this
      ensures Valid() && old(trace) <= trace
      ensures Did(t) == old(Did(t)) + [Exchanged(first)] + if first then [AlarmSet(cqIdx % cqCount)] else []
      ensures At(t, old(world.threads[t]).(push := Ready))
      ensures 0 <= Measure(world) < old(Measure(world))
    {
      Yield(t);
      first := ExchangeFlag(t);
      if first {
        Yield(t);
        SetAlarm(t, cqIdx % cqCount);
      }
    }

    /** `if (*cb) (*cb)();`, where the body of the closure makes its pushes; an empty one does nothing. */
    method CallIfSet(t: nat, cb: Closure) returns (ghost firsts: seq<bool>)
      requires Valid() && t < |world.threads| && world.threads[t].held == Some(cb)
      modifies this
      ensures Valid() && old(trace) <= trace
      ensures |firsts| == |Body(cb)|
      ensures Did(t) == old(Did(t)) + Begins(cb) + PushesDo(Body(cb), firsts, cqCount)
      ensures At(t, Thread(old(world.threads[t].phase), None, [], Ready))
      ensures 0 <= Measure(world) < old(Measure(world))
    {
      Yield(t);
      StartCall(t, cb);
      firsts := [];
      if cb.Fn? {
        firsts := MakePushes(t, cb.pushes);
      }
    }

    /** The pushes of a closure's body, in order. */
    method MakePushes(t: nat, pushes: seq<PushCall>) returns (ghost firsts: seq<bool>)
      requires Valid() && t < |world.threads| && AtRest(world.threads[t]) && world.threads[t].pending == pushes
      modifies this
      ensures Valid() && old(trace) <= trace && |firsts| == |pushes|
      ensures Did(t) == old(Did(t)) + PushesDo(pushes, firsts, cqCount)
      ensures At(t, old(world.threads[t]).(pending := []))
      ensures 0 <= Measure(world) <= old(Measure(world))
      decreases |pushes|
    {
      if pushes == [] {
        Yield(t);
        firsts := [];
      } else {
        ghost var first := Push(t, pushes[0].fn, pushes[0].cq);
        ghost var rest := MakePushes(t, pushes[1..]);
        firsts := [first] + rest;
        assert firsts[1..] == rest;
      }
    }

    /** One of the two drain loops: pops and calls until the queue is seen empty. */
    method DrainUntilEmpty(t: nat)
      requires Valid() && t < |world.threads| && Draining(world.threads[t])
      requires AtRest(world.threads[t]) && world.threads[t].pending == []
      modifies this
      ensures Valid() && old(trace) < trace && trace[|trace| - 1] == Dispatch.Pop(t)
      ensures At(t, Thread(if old(world.threads[t]).phase.FirstDrain? then Enabling else Idle, None, [], Ready))
      ensures dispatchQueue == []
      ensures 0 <= Measure(world) < old(Measure(world))
    {
      Yield(t);
      while true
        invariant Valid() && old(trace) <= trace && At(t, old(world.threads[t]))
        invariant 0 <= Measure(world) <= old(Measure(world))
        decreases Measure(world)
      {
        Yield(t);
        var cb := TryPop(t);
        if cb.None? {
          break;
        }
        ghost var firsts := CallIfSet(t, cb.value);
      }
    }

    /**
     Drains the queue, re-enables the alarm, and drains again. On return the last look at the queue
     found it empty: all that any thread had pushed by then has been popped.
     */
    method HandleEvent(t: nat)
      requires Valid() && At(t, Thread(FirstDrain, None, [], Ready))
      modifies this
      ensures Valid() && old(trace) < trace && At(t, IDLE_THREAD)
      ensures dispatchQueue == [] && world.popped == world.pushed
      ensures TokenUnique(world) && NoLostWakeup(world)
      ensures 0 <= Measure(world) < old(Measure(world))
    {
      DrainUntilEmpty(t);
      Yield(t);
      EnableAlarm(t);
      DrainUntilEmpty(t);
      Safety(origin, trace, world);
      FirstInFirstOut(origin, trace, world);
    }

    /** `CompletionQueue::Next` on queue `t`: an event if there is one, else the end once it is shut down. */
    method Next(t: nat) returns (r: NextResult)
      requires Valid() && t < cqCount && At(t, IDLE_THREAD)
      modifies this
      ensures Valid() && old(trace) <= trace
      ensures r.Event? ==> At(t, Thread(FirstDrain, None, [], Ready))
      ensures r.ShutDown? ==> At(t, Thread(Exited, None, [], Ready)) && t < shutDown && t !in alarms
      ensures r.Blocked? ==> At(t, IDLE_THREAD) && t !in alarms && shutDown <= t
      ensures 0 <= Measure(world) <= old(Measure(world))
    {
      Yield(t);
      if k :| 0 <= k < |alarms| && alarms[k] == t {
        TakeEvent(t, k);
        r := Event;
      } else if t < shutDown {
        LeaveLoop(t);
        r := ShutDown;
      } else {
        r := Blocked;
      }
    }

    /** The event loop of thread `t`: handles events until `Next` returns false, or waits for ever. */
    method EventLoop(t: nat) returns (returned: bool)
      requires Valid() && t < cqCount && At(t, IDLE_THREAD)
      modifies this
      ensures Valid() && old(trace) <= trace
      ensures At(t, Thread(if returned then Exited else Idle, None, [], Ready))
      ensures if returned then t < shutDown else shutDown <= t && t !in alarms
      ensures world.pushed == world.popped + dispatchQueue
      ensures TokenUnique(world) && NoLostWakeup(world)
    {
      var r := Next(t);
      while r.Event?
        invariant Valid() && old(trace) <= trace
        invariant At(t, Thread(
          match r case Event => FirstDrain case ShutDown => Exited case Blocked => Idle, None, [], Ready))
        invariant r.ShutDown? ==> t < shutDown
        invariant r.Blocked? ==> shutDown <= t && t !in alarms
        invariant 0 <= Measure(world)
        decreases Measure(world)
      {
        HandleEvent(t);
        r := Next(t);
      }
      returned := r.ShutDown?;
      Safety(origin, trace, world);
      FirstInFirstOut(origin, trace, world);
    }

    /** Shuts every completion queue down, in order, while the threads go on running. */
    method ShutdownQueues(t: nat)
      requires Valid() && t < |world.threads|
      modifies this
      ensures Valid() && old(trace) <= trace && shutDown == cqCount
    {
      Yield(t);
      Safety(origin, trace, world);
      while shutDown < cqCount
        invariant Valid() && old(trace) <= trace && shutDown <= cqCount && t < |world.threads|
        invariant 0 <= Measure(world)
        decreases Measure(world)
      {
        shutDown := shutDown + 1;
        Record(Close);
        Yield(t);
        Safety(origin, trace, world);
      }
    }

    /**
     Stopping now is sure to leave nothing queued if and only if no thread outside the loops has a push
     yet to begin, and either the queue is empty, an alarm event is on its way, or a handler is running.
     */
    lemma StopDrainsIff()
      requires Valid()
      ensures JoinsDrained(world) <==>
        !MorePushes(world) && (dispatchQueue == [] || !LoopsIdle(world))
    {
      DrainedIffSecured(origin, trace, world);
    }

    /** The alarm law for the fields. */
    lemma AlarmsAccounted(q: nat)
      requires Valid()
      ensures Handed(trace, q) + multiset(alarms)[q] == SetOpen(origin, trace, world, q)
      ensures alarmAfterShutdown <==> SetLate(origin, trace, world) > 0
    {
      AlarmsArriveWhereSet(origin, trace, world, q);
    }

    /** After the shut-down, once all threads are done, everything pushed has been called. */
    lemma JoinedMeansDrained()
      requires Valid() && Joined(world) && !alarmAfterShutdown
      ensures dispatchQueue == []
      ensures forall x :: multiset(world.ran)[x] == Occurrences(x, origin)
    {
      JoinDrains(origin, trace, world);
    }
  }
}
