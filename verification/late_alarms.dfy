/**
 When a run can still set an alarm on a completion queue that is shut down, which gRPC forbids: the
 exact condition, for both handler orders and any number of queues and threads.
 */
module LateAlarms {
  import opened Sums
  import opened Dispatch
  import opened Wakeups
  import opened Work
  import opened TearDown

  // ---- What is still to be pushed --------------------------------------------------------------

  predicate Leaf(c: Closure)
  {
    Body(c) == []
  }

  /** The thread is not pushing, and what it has in hand does not push. */
  predicate Light(th: Thread)
  {
    th.push.Ready? && th.pending == [] && (th.held.Some? ==> Leaf(th.held.value))
  }

  ghost predicate Leaves(queue: seq<Closure>)
  {
    forall c :: c in queue ==> Leaf(c)
  }

  /** Nobody is making a push, and no closure that is queued or in hand makes one. */
  ghost predicate PushesOver(s: State)
  {
    Leaves(s.queue) && forall t :: 0 <= t < |s.threads| ==> Light(s.threads[t])
  }

  predicate LeafPushes(ps: seq<PushCall>)
  {
    forall i :: 0 <= i < |ps| ==> Leaf(ps[i].fn)
  }

  /** What the thread appends from here on makes no push itself. */
  predicate Shallow(th: Thread)
  {
    LeafPushes(th.pending) && (th.held.Some? ==> LeafPushes(Body(th.held.value)))
  }

  // ---- The condition ---------------------------------------------------------------------------

  /**
   The event loop `h` will drain the queue while the flag is down, so that its own pushes lose the
   exchange: it is in its first drain loop or, with its alarm event outstanding, either in its last one
   or about to begin its first.
   */
  predicate Drains(s: State, h: nat)
  {
    && h < |s.threads|
    && (s.threads[h].phase.FirstDrain? || (h in s.outstanding && s.threads[h].phase.LastDrain?)
        || (h in s.outstanding && s.threads[h].phase.Idle? && s.order.DrainEnableDrain?))
  }

  /** Nobody but `h` is in a last drain loop. */
  ghost predicate Alone(s: State, h: nat)
  {
    forall t :: 0 <= t < |s.threads| && t != h ==> !s.threads[t].phase.LastDrain?
  }

  /** Only `h` has anything to push, and nobody else gets to call a closure that pushes. */
  ghost predicate Contained(s: State, h: nat)
  {
    && Drains(s, h)
    && (forall t :: 0 <= t < |s.threads| && t != h ==> Light(s.threads[t]))
    && (Alone(s, h) || (Leaves(s.queue) && Shallow(s.threads[h])))
  }

  ghost predicate Harmless(s: State)
  {
    !s.misused && (PushesOver(s) || exists h :: Contained(s, h))
  }

  /** However the run goes on, no alarm is set on a queue that is shut down. */
  ghost predicate NoLateAlarm(s: State)
  {
    forall run: seq<Action>, s' :: Steps(s, run, s') ==> !s'.misused
  }

  // ---- The condition is kept ---------------------------------------------------------------------

  /** A loop that drains with the flag down has the token, so nobody else has. */
  lemma DrainerHasToken(s: State, h: nat)
    requires TokenUnique(s) && Drains(s, h)
    ensures !s.needAlarm && !s.misused
    ensures forall t :: 0 <= t < |s.threads| ==>
      && !s.threads[t].push.Winner? && !s.threads[t].phase.Enabling?
      && (s.threads[t].phase.FirstDrain? ==> t == h)
    ensures forall k :: 0 <= k < |s.outstanding| ==> s.outstanding[k] == h && !s.threads[h].phase.FirstDrain?
  {
    var x := ByHandler(h);
    if !s.threads[h].phase.FirstDrain? {
      var k :| 0 <= k < |s.outstanding| && s.outstanding[k] == h;
      x := ByAlarm(k);
    }
    assert Holds(s, x) && !Holds(s, Lost);
    forall t | 0 <= t < |s.threads|
      ensures !s.threads[t].push.Winner? && !s.threads[t].phase.Enabling?
      ensures s.threads[t].phase.FirstDrain? ==> t == h
    {
      assert !Holds(s, ByPusher(t));
      assert Holds(s, ByHandler(t)) ==> x == ByHandler(t);
    }
    forall k | 0 <= k < |s.outstanding|
      ensures s.outstanding[k] == h && !s.threads[h].phase.FirstDrain?
    {
      assert Holds(s, ByAlarm(k));
    }
  }

  lemma StepPushesOver(s: State, a: Action)
    requires PushesOver(s) && Enabled(s, a)
    ensures PushesOver(Step(s, a)) && Step(s, a).misused == s.misused
  {
    assert forall c :: c in Step(s, a).queue ==> c in s.queue;
  }

  /** A step of the draining loop: it stays the only one with pushes to make, or has none left. */
  lemma DrainerSteps(s: State, a: Action, h: nat)
    requires Inv(s) && Contained(s, h) && Enabled(s, a) && By(a, h)
    ensures Contained(Step(s, a), h) || PushesOver(Step(s, a))
  {
    DrainerHasToken(s, h);
    assert ThreadOk(s, h);
    var s' := Step(s, a);
    assert forall t :: 0 <= t < |s.threads| && t != h ==> s'.threads[t] == s.threads[t];
    if a.Pop? && s.queue != [] {
      assert forall c :: c in s'.queue ==> c in s.queue;
      assert s.queue[0] in s.queue;
    }
  }

  lemma OthersStep(s: State, a: Action, h: nat)
    requires Inv(s) && Contained(s, h) && Enabled(s, a) && !By(a, h)
    ensures Contained(Step(s, a), h)
  {
    DrainerHasToken(s, h);
    var s' := Step(s, a);
    assert s'.threads[h] == s.threads[h] && s'.outstanding == s.outstanding;
    if !a.Close? {
      assert ThreadOk(s, a.t);
      assert Light(s'.threads[a.t]) by {
        if a.Pop? && s.queue != [] {
          assert s.queue[0] in s.queue;
        }
      }
    }
    assert forall c :: c in s'.queue ==> c in s.queue;
  }

  lemma StepHarmless(s: State, a: Action)
    requires Inv(s) && Harmless(s) && Enabled(s, a)
    ensures Harmless(Step(s, a))
  {
    if PushesOver(s) {
      StepPushesOver(s, a);
    } else {
      var h :| Contained(s, h);
      DrainerHasToken(s, h);
      if By(a, h) {
        DrainerSteps(s, a, h);
      } else {
        OthersStep(s, a, h);
      }
    }
  }

  lemma {:induction false} RunHarmless(s: State, run: seq<Action>, s': State)
    requires Inv(s) && Harmless(s) && Steps(s, run, s')
    ensures Harmless(s')
    decreases |run|
  {
    if run != [] {
      StepInv(s, run[0]);
      StepHarmless(s, run[0]);
      RunHarmless(Step(s, run[0]), run[1..], s');
    }
  }

  // ---- Without it, an alarm can come late ----------------------------------------------------------

  ghost predicate CanBeLate(s: State)
  {
    exists run: seq<Action>, s' :: Steps(s, run, s') && s'.misused
  }

  lemma LateNow(s: State)
    requires s.misused
    ensures CanBeLate(s)
  {
    assert Steps(s, [], s);
  }

  lemma LateAfter(s: State, run: seq<Action>, m: State)
    requires Steps(s, run, m) && CanBeLate(m)
    ensures CanBeLate(s)
  {
    var rest: seq<Action>, s' :| Steps(m, rest, s') && s'.misused;
    StepsConcat(s, run, m, rest, s');
  }

  lemma LateNext(s: State, a: Action)
    requires Enabled(s, a) && CanBeLate(Step(s, a))
    ensures CanBeLate(s)
  {
    assert Steps(s, [], s) && [] + [a] == [a];
    StepsSnoc(s, [], s, a);
    LateAfter(s, [a], Step(s, a));
  }

  /** Shutting every queue down is always possible and changes nothing else. */
  lemma {:induction false} CloseAll(s: State) returns (run: seq<Action>)
    requires Inv(s)
    ensures Steps(s, run, s.(closed := s.cqs)) && Inv(s.(closed := s.cqs))
    decreases s.cqs - s.closed
  {
    if AllClosed(s) {
      run := [];
      assert s.(closed := s.cqs) == s;
    } else {
      StepInv(s, Close);
      var rest := CloseAll(Step(s, Close));
      run := [Close] + rest;
      assert run[1..] == rest;
    }
  }

  /** The next action of a thread that has something to push, on its way to setting the alarm. */
  function Onward(th: Thread, p: nat): Action
  {
    match th.push
    case Winner(_) => Arm(p)
    case Emplaced(_) => Exchange(p)
    case Ready => if th.held.Some? then Call(p) else Emplace(p)
  }

  lemma OnwardStep(s: State, p: nat)
    requires Inv(s) && p < |s.threads| && !Light(s.threads[p])
    requires AllClosed(s) && (s.needAlarm || s.threads[p].push.Winner?)
    ensures var a := Onward(s.threads[p], p);
      && Enabled(s, a)
      && (a.Arm? ==> Step(s, a).misused)
      && (!a.Arm? ==> AllClosed(Step(s, a)) && !Light(Step(s, a).threads[p]))
      && (!a.Arm? ==> Step(s, a).needAlarm || Step(s, a).threads[p].push.Winner?)
  {
    assert ThreadOk(s, p);
  }

  /** With the flag up, a thread that has something to push can set the alarm. */
  lemma {:induction false} PushArms(s: State, p: nat)
    requires Inv(s) && p < |s.threads| && !Light(s.threads[p])
    requires AllClosed(s) && (s.needAlarm || s.threads[p].push.Winner?)
    ensures CanBeLate(s)
    decreases Measure(s)
  {
    var a := Onward(s.threads[p], p);
    OnwardStep(s, p);
    StepInv(s, a);
    StepMeasure(s, a);
    MeasureNonNegative(Step(s, a));
    if a.Arm? {
      LateNow(Step(s, a));
    } else {
      PushArms(Step(s, a), p);
    }
    LateNext(s, a);
  }

  /** A loop that is handling an event has a next step. */
  lemma HandlerMoves(s: State, q: nat) returns (a: Action)
    requires Inv(s) && q < |s.threads| && Handling(s.threads[q])
    ensures Enabled(s, a) && By(a, q) && !a.Exit?
  {
    assert ThreadOk(s, q);
    var th := s.threads[q];
    a := if th.phase.Enabling? then Enable(q)
    else if !Light(th) || th.held.Some? then Onward(th, q) else Pop(q);
  }

  /** The action by which a token goes on to the point where the flag is up again. */
  lemma TokenMoves(s: State, x: Token) returns (a: Action)
    requires Inv(s) && Holds(s, x) && !x.Lost?
    ensures Enabled(s, a) && !a.Close? && !a.Exit?
    ensures x.ByPusher? || x.ByHandler? ==> By(a, x.t)
    ensures x.ByAlarm? ==> By(a, s.outstanding[x.k])
  {
    match x
    case ByPusher(t) => a := Arm(t);
    case ByHandler(t) => a := HandlerMoves(s, t);
    case ByAlarm(k) =>
      var q := s.outstanding[k];
      assert q in s.outstanding && ThreadOk(s, q);
      if s.threads[q].phase.Idle? {
        a := Deliver(q, k);
      } else {
        a := HandlerMoves(s, q);
      }
  }

  /** When only `p` has not come to rest, and it has no part in the token, the flag is up. */
  lemma FlagUp(s: State, p: nat)
    requires Inv(s) && !s.misused && Stopped(Without(p), s) && p < |s.threads| && p !in s.outstanding
    requires !s.threads[p].phase.FirstDrain? && !s.threads[p].phase.Enabling? && !s.threads[p].push.Winner?
    ensures s.needAlarm
  {
    if !s.needAlarm {
      var x :| Holds(s, x);
      var a := TokenMoves(s, x);
      assert false;
    }
  }

  /** A thread that has something to push and is not kept from the flag waits till it is up. */
  lemma FromPusher(s: State, p: nat)
    requires Inv(s) && AllClosed(s) && p < |s.threads| && !Light(s.threads[p])
    requires !s.threads[p].phase.FirstDrain? && p !in s.outstanding
    ensures CanBeLate(s)
  {
    assert ThreadOk(s, p);
    if s.threads[p].push.Winner? {
      PushArms(s, p);
    } else {
      var run, m := Drive(Without(p), s);
      if m.misused {
        LateNow(m);
      } else {
        FlagUp(m, p);
        PushArms(m, p);
      }
      LateAfter(s, run, m);
    }
  }

  /** A last drain loop can take a closure that pushes off the queue. */
  lemma {:induction false} FromLastDrain(s: State, l: nat)
    requires Inv(s) && AllClosed(s) && l < |s.threads| && s.threads[l].phase.LastDrain? && l !in s.outstanding
    requires !Leaves(s.queue) || !Light(s.threads[l])
    ensures CanBeLate(s)
    decreases Measure(s)
  {
    if !Light(s.threads[l]) {
      FromPusher(s, l);
    } else {
      var a := if s.threads[l].held.Some? then Call(l) else Pop(l);
      var c :| c in s.queue && !Leaf(c);
      StepInv(s, a);
      StepMeasure(s, a);
      MeasureNonNegative(Step(s, a));
      if a.Pop? && Leaf(s.queue[0]) {
        assert c in s.queue[1..];
      }
      FromLastDrain(Step(s, a), l);
      LateNext(s, a);
    }
  }

  /** A handler about to re-enable the flag while a closure that pushes is queued. */
  lemma FromEnabling(s: State, h: nat)
    requires Inv(s) && AllClosed(s) && h < |s.threads| && s.threads[h].phase.Enabling? && !Leaves(s.queue)
    ensures CanBeLate(s)
  {
    assert Holds(s, ByHandler(h)) && !Holds(s, ByAlarm(0));
    StepInv(s, Enable(h));
    FromLastDrain(Step(s, Enable(h)), h);
    LateNext(s, Enable(h));
  }

  /** A client loop about to receive the alarm while a closure that pushes is queued. */
  lemma FromAlarm(s: State, k: nat)
    requires Inv(s) && AllClosed(s) && k < |s.outstanding| && !Leaves(s.queue)
    requires s.outstanding[k] < |s.threads| && s.threads[s.outstanding[k]].phase.Idle? && s.order.ClearThenDrain?
    ensures CanBeLate(s)
  {
    var a := Deliver(s.outstanding[k], k);
    StepInv(s, a);
    FromEnabling(Step(s, a), a.t);
    LateNext(s, a);
  }

  /** The draining loop appends a closure that pushes, and another loop, in its last drain, takes it. */
  lemma {:induction false} FromDrainer(s: State, h: nat, l: nat)
    requires Inv(s) && AllClosed(s) && Drains(s, h)
    requires l < |s.threads| && l != h && s.threads[l].phase.LastDrain?
    requires !(Leaves(s.queue) && Shallow(s.threads[h]))
    ensures CanBeLate(s)
    decreases Measure(s)
  {
    DrainerHasToken(s, h);
    if !Leaves(s.queue) {
      FromLastDrain(s, l);
    } else {
      assert ThreadOk(s, h);
      var a := Onward(s.threads[h], h);
      StepInv(s, a);
      StepMeasure(s, a);
      MeasureNonNegative(Step(s, a));
      DrainerAppends(s, h);
      FromDrainer(Step(s, a), h, l);
      LateNext(s, a);
    }
  }

  lemma DrainerAppends(s: State, h: nat)
    requires Inv(s) && AllClosed(s) && Drains(s, h) && !Shallow(s.threads[h])
    ensures var a := Onward(s.threads[h], h);
      && Enabled(s, a) && By(a, h) && AllClosed(Step(s, a)) && Drains(Step(s, a), h)
      && !(Leaves(Step(s, a).queue) && Shallow(Step(s, a).threads[h]))
  {
    DrainerHasToken(s, h);
    assert ThreadOk(s, h);
    var th := s.threads[h];
    var a := Onward(th, h);
    if a.Emplace? {
      var s' := Step(s, a);
      assert th.pending[0].fn in s'.queue;
      if Leaf(th.pending[0].fn) {
        var i :| 0 <= i < |th.pending| && !Leaf(th.pending[i].fn);
        assert s'.threads[h].pending[i - 1] == th.pending[i];
      }
    }
  }

  /** Nobody has a push to make, nobody drains with the flag down, and a closure that pushes is queued. */
  lemma FromQueue(s: State)
    requires Inv(s) && AllClosed(s) && !s.misused && !Leaves(s.queue)
    requires forall t :: 0 <= t < |s.threads| ==> Light(s.threads[t]) && !Drains(s, t)
    ensures CanBeLate(s)
  {
    if s.needAlarm {
      var t :| 0 <= t < |s.threads| && Responsible(s.threads[t]);
      assert Holds(s, ByAlarm(0)) <==> s.outstanding != [];
      FromLastDrain(s, t);
    } else {
      var x :| Holds(s, x);
      if x.ByAlarm? {
        var q := s.outstanding[x.k];
        assert q in s.outstanding && ThreadOk(s, q);
        if s.threads[q].phase.Enabling? {
          FromEnabling(s, q);
        } else {
          FromAlarm(s, x.k);
        }
      } else {
        FromEnabling(s, x.t);
      }
    }
  }

  lemma NotHarmless(s: State)
    requires Inv(s) && AllClosed(s) && !Harmless(s)
    ensures CanBeLate(s)
  {
    if s.misused {
      LateNow(s);
    } else if p :| 0 <= p < |s.threads| && !Light(s.threads[p]) && !Drains(s, p) {
      assert ThreadOk(s, p);
      FromPusher(s, p);
    } else if h :| 0 <= h < |s.threads| && Drains(s, h) {
      DrainerHasToken(s, h);
      forall t | 0 <= t < |s.threads| && t != h ensures Light(s.threads[t]) {
        assert Drains(s, t) ==> t == h;
      }
      assert !Contained(s, h);
      var l :| 0 <= l < |s.threads| && l != h && s.threads[l].phase.LastDrain?;
      FromDrainer(s, h, l);
    } else {
      FromQueue(s);
    }
  }

  // ---- The theorem -------------------------------------------------------------------------------

  /**
   From a reachable state, no run ever sets an alarm on a queue that is shut down if and only if none
   was, and either no push is under way or to come, or one event loop is draining with the flag down,
   nobody else has a push to make, and nobody else in a last drain loop can get a closure that pushes.
   */
  lemma NoLateAlarmIff(s0: State, before: seq<Action>, s: State)
    requires Init(s0) && Steps(s0, before, s)
    ensures NoLateAlarm(s) <==> Harmless(s)
  {
    Safety(s0, before, s);
    if Harmless(s) {
      forall run: seq<Action>, s' | Steps(s, run, s') ensures !s'.misused {
        RunHarmless(s, run, s');
      }
    } else {
      var run := CloseAll(s);
      var m := s.(closed := s.cqs);
      if Harmless(m) {
        var h :| Contained(m, h);
        assert Contained(s, h);
      }
      NotHarmless(m);
      LateAfter(s, run, m);
    }
  }

  /** The client's loop is draining, and an alarm of a push made meanwhile is already set. */
  predicate DrainsWithAlarm(s: State)
  {
    0 < |s.threads| && s.threads[0].phase.LastDrain? && !s.needAlarm && !s.threads[0].push.Winner?
  }

  /**
   The same for the client, which has one loop and no first drain: no alarm comes late if and only if
   none did, the other threads have made their pushes, and either nobody has anything left to push or
   the loop is draining while the alarm of a push made meanwhile is outstanding.
   */
  lemma ClientNoLateAlarmIff(s0: State, before: seq<Action>, s: State)
    requires Init(s0) && Steps(s0, before, s) && s.cqs == 1 && s.order.ClearThenDrain?
    ensures NoLateAlarm(s) <==>
      && !s.misused && PushersDone(s)
      && (PushesOver(s) || DrainsWithAlarm(s))
  {
    NoLateAlarmIff(s0, before, s);
    Safety(s0, before, s);
    if h :| Contained(s, h) {
      assert ThreadOk(s, h);
      DrainerHasToken(s, h);
      assert h == 0;
    }
    if !s.misused && PushersDone(s) && DrainsWithAlarm(s) {
      LoopContained(s);
    }
  }

  lemma LoopContained(s: State)
    requires Inv(s) && s.cqs == 1 && !s.misused && PushersDone(s) && DrainsWithAlarm(s)
    ensures Contained(s, 0)
  {
    forall t | 0 < t < |s.threads| ensures s.threads[t].phase.Outside? && Light(s.threads[t]) {
      assert ThreadOk(s, t);
    }
    var x :| Holds(s, x);
    assert x.ByAlarm? && s.outstanding[x.k] == 0;
  }

  /**
   A tear-down from a harmless state is drained by the join, and sets no alarm on a queue that is shut
   down; in particular one that starts when no push is under way or to come.
   */
  lemma CleanTearDown(s0: State, before: seq<Action>, s: State, after: seq<Action>, s': State)
    requires Init(s0) && Steps(s0, before, s) && Harmless(s)
    requires Steps(s, after, s')
    ensures !s'.misused && (Joined(s') ==> s'.queue == [])
  {
    Safety(s0, before, s);
    RunHarmless(s, after, s');
    StepsConcat(s0, before, s, after, s');
    if Joined(s') {
      JoinDrains(s0, before + after, s');
    }
  }

  // ---- A task that pushes ------------------------------------------------------------------------

  const PUSHING_TASK := Fn(0, [PushCall(Null, 0)])

  /** A state in which the push of a task that will itself push once has returned, and nothing else happened. */
  lemma TaskPushed(order: Order) returns (s0: State, before: seq<Action>, s: State)
    ensures Init(s0) && Steps(s0, before, s)
    ensures s.order == order && s.cqs == 1 && s.closed == 0 && !s.misused
    ensures s.threads == [IDLE_THREAD, Pusher([])] && s.queue == [PUSHING_TASK] && s.outstanding == [0]
  {
    s0 := Start(order, 1, [[PushCall(PUSHING_TASK, 0)]]);
    assert s0.threads == [IDLE_THREAD, Pusher([PushCall(PUSHING_TASK, 0)])];
    assert [PushCall(PUSHING_TASK, 0)][1..] == [];
    var s1 := Step(s0, Emplace(1));
    assert s1.threads == [IDLE_THREAD, Pusher([]).(push := Emplaced(0))];
    StepsSnoc(s0, [], s0, Emplace(1));
    var s2 := Step(s1, Exchange(1));
    assert s2.threads == [IDLE_THREAD, Pusher([]).(push := Winner(0))];
    StepsSnoc(s0, [] + [Emplace(1)], s1, Exchange(1));
    s := Step(s2, Arm(1));
    StepsSnoc(s0, [] + [Emplace(1)] + [Exchange(1)], s2, Arm(1));
    before := [] + [Emplace(1)] + [Exchange(1)] + [Arm(1)];
  }

  /**
   The server takes the task in its first drain loop, with the flag down, so shutting down there is
   harmless; the client clears its flag first, so the push of the task can set the alarm on the queue
   that was shut down meanwhile.
   */
  lemma OnePushingTask(order: Order) returns (s0: State, before: seq<Action>, s: State)
    ensures Init(s0) && Steps(s0, before, s) && s.order == order && s.closed == 0
    ensures PushersDone(s) && s.queue == [PUSHING_TASK]
    ensures NoLateAlarm(s) <==> order.DrainEnableDrain?
  {
    s0, before, s := TaskPushed(order);
    NoLateAlarmIff(s0, before, s);
    assert s.queue[0] in s.queue && !Leaf(s.queue[0]);
    assert s.outstanding[0] == 0;
    if order.DrainEnableDrain? {
      assert Contained(s, 0);
    }
  }

  lemma {:induction false} MisusedStays(s: State, run: seq<Action>, s': State)
    requires s.misused && Steps(s, run, s')
    ensures s'.misused
    decreases |run|
  {
    if run != [] {
      MisusedStays(Step(s, run[0]), run[1..], s');
    }
  }

  /**
   The client fails on it: the other threads had made their pushes, the join leaves nothing queued, and
   yet an alarm was set on the queue after it was shut down.
   */
  lemma LateAlarmHappens()
    ensures exists s0, before: seq<Action>, s, after: seq<Action>, s' ::
      && Init(s0) && Steps(s0, before, s) && s.order.ClearThenDrain? && s.closed == 0 && PushersDone(s)
      && Steps(s, after, s') && Joined(s') && s'.queue == [] && s'.misused
  {
    var s0, before, s := OnePushingTask(ClearThenDrain);
    var late: seq<Action>, m :| Steps(s, late, m) && m.misused;
    Safety(s0, before, s);
    StepsInv(s, late, m);
    var rest, s' := CanTearDown(m);
    MisusedStays(m, rest, s');
    StepsConcat(s, late, m, rest, s');
    TearDownDrains(s0, before, s, late + rest, s');
  }
}
