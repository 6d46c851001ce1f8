/** Shutting the completion queues down and joining the event loops: what is sure to be drained. */
module TearDown {
  import opened Sums
  import opened Dispatch
  import opened Wakeups
  import opened Work

  /** Every event loop has returned and every other thread has made its pushes. */
  ghost predicate Joined(s: State)
  {
    forall t :: 0 <= t < |s.threads| ==>
      && (t < s.cqs ==> s.threads[t].phase.Exited?)
      && (s.cqs <= t ==> s.threads[t].pending == [] && s.threads[t].push.Ready?)
  }

  lemma JoinedWaiting(s: State)
    requires Inv(s) && Joined(s)
    ensures AllWaiting(s) && s.outstanding == []
  {
    forall t | 0 <= t < |s.threads|
      ensures s.threads[t].pending == [] && AtRest(s.threads[t])
        && (s.threads[t].phase.Outside? || s.threads[t].phase.Idle? || s.threads[t].phase.Exited?)
    {
      assert ThreadOk(s, t);
    }
    AlarmKeepsLoop(s);
  }

  /** The event loop of a queue with an undelivered alarm has not returned. */
  lemma AlarmKeepsLoop(s: State)
    requires WellFormed(s)
    ensures s.outstanding != [] ==>
      s.outstanding[0] < s.cqs && !s.threads[s.outstanding[0]].phase.Exited?
  {
    if s.outstanding != [] {
      assert ThreadOk(s, s.outstanding[0]);
      assert s.outstanding[0] in s.outstanding;
    }
  }

  /** A run that cannot go on has joined every event loop. */
  lemma StoppedJoined(s: State)
    requires Inv(s) && Stopped(Leaving, s)
    ensures Joined(s)
  {
    SettledAlarms(s);
    assert !Enabled(s, Close);
    forall t | 0 <= t < |s.threads|
      ensures t < s.cqs ==> s.threads[t].phase.Exited?
      ensures s.cqs <= t ==> s.threads[t].pending == [] && s.threads[t].push.Ready?
    {
      SettledThread(s, t);
      assert ThreadOk(s, t);
      assert !Enabled(s, Emplace(t));
      assert !Enabled(s, Exit(t));
    }
  }

  /** Queues are shut down one at a time, in order. */
  lemma {:induction false} ClosesOneByOne(s: State, run: seq<Action>, s': State)
    requires Steps(s, run, s')
    ensures s'.closed == s.closed + Closings(run) && s'.cqs == s.cqs
    decreases |run|
  {
    if run != [] {
      ClosesOneByOne(Step(s, run[0]), run[1..], s');
    }
  }

  function Closings(run: seq<Action>): nat
  {
    if run == [] then 0 else (if run[0].Close? then 1 else 0) + Closings(run[1..])
  }

  /** Every tear-down can be completed: from every reachable state there is a way to join all loops. */
  lemma CanTearDown(s: State) returns (run: seq<Action>, s': State)
    requires Inv(s)
    ensures Steps(s, run, s') && Inv(s') && Joined(s')
  {
    run, s' := Drive(Leaving, s);
    StoppedJoined(s');
  }

  // ---- The exact condition ---------------------------------------------------------------------

  /**
   No thread outside the event loops has a push yet to begin, and if anything is queued then its alarm
   is set or a handler is under way. A push that is still being made on the way to its alarm may not
   reach it in time, so it does not help.
   */
  ghost predicate Secured(s: State)
  {
    !MorePushes(s) && (s.queue == [] || !LoopsIdle(s))
  }

  /** However the run goes on, nothing is queued any more when the event loops have been joined. */
  ghost predicate JoinsDrained(s: State)
  {
    forall run: seq<Action>, s' :: Steps(s, run, s') && Joined(s') ==> s'.queue == []
  }

  lemma StepSecured(s: State, a: Action)
    requires WellFormed(s) && Secured(s) && Enabled(s, a)
    ensures Secured(Step(s, a))
  {
    var s' := Step(s, a);
    if a != Close {
      assert ThreadOk(s, a.t);
    }
    if s'.queue != [] {
      if a.Emplace? || a.Deliver? {
        assert Handling(s'.threads[a.t]);
      } else if s.outstanding == [] {
        var t :| 0 <= t < s.cqs && Handling(s.threads[t]);
        assert Handling(s'.threads[t]);
      }
    }
  }

  lemma {:induction false} RunSecured(s: State, run: seq<Action>, s': State)
    requires Inv(s) && Secured(s) && Steps(s, run, s')
    ensures Inv(s') && Secured(s')
    decreases |run|
  {
    if run != [] {
      StepInv(s, run[0]);
      StepSecured(s, run[0]);
      RunSecured(Step(s, run[0]), run[1..], s');
    }
  }

  lemma SecuredDrains(s: State, run: seq<Action>, s': State)
    requires Inv(s) && Secured(s) && Steps(s, run, s') && Joined(s')
    ensures s'.queue == []
  {
    RunSecured(s, run, s');
    JoinedWaiting(s');
  }

  /** Idle event loops can be shut down and left as they are, whatever is queued. */
  lemma CanReturn(s: State) returns (run: seq<Action>, s': State)
    requires Inv(s) && LoopsIdle(s)
    ensures Steps(s, run, s') && Inv(s') && LoopsReturned(s')
    ensures s'.queue == s.queue && (MorePushes(s) ==> MorePushes(s'))
  {
    run, s' := Drive(Closing, s);
    assert !Enabled(s', Close);
    forall t | 0 <= t < s'.cqs ensures s'.threads[t].phase.Exited? {
      assert ThreadOk(s', t);
      assert !Enabled(s', Exit(t));
    }
  }

  /** Once the loops have returned, the other threads can finish; nothing queued is ever taken. */
  lemma CanJoin(s: State) returns (run: seq<Action>, s': State)
    requires Inv(s) && LoopsReturned(s) && (s.queue != [] || MorePushes(s))
    ensures Steps(s, run, s') && Joined(s') && s'.queue != []
  {
    run, s' := Drive(Leaving, s);
    StoppedJoined(s');
  }

  /** A run that leaves something queued after the join. */
  lemma CanStrand(s: State) returns (run: seq<Action>, s': State)
    requires Inv(s) && !Secured(s)
    ensures Steps(s, run, s') && Joined(s') && s'.queue != []
  {
    var settle, idle := [], s;
    if MorePushes(s) {
      settle, idle := Drive(Settling, s);
      SettledAlarms(idle);
      forall t | 0 <= t < |idle.threads| ensures !Handling(idle.threads[t]) {
        SettledThread(idle, t);
      }
    }
    var close, returned := CanReturn(idle);
    var leave;
    leave, s' := CanJoin(returned);
    StepsConcat(idle, close, returned, leave, s');
    StepsConcat(s, settle, idle, close + leave, s');
    run := settle + (close + leave);
  }

  /**
   The tear-down theorem: from a reachable state, joining the event loops is sure to leave nothing
   queued if and only if no other thread has a push yet to begin and whatever is queued has its alarm
   set or a handler under way. So a push that has appended its closure, or even taken the flag, but has
   not set the alarm yet, decides the matter only through the handlers that are already awake.
   */
  lemma DrainedIffSecured(s0: State, before: seq<Action>, s: State)
    requires Init(s0) && Steps(s0, before, s)
    ensures JoinsDrained(s) <==> Secured(s)
  {
    Safety(s0, before, s);
    if Secured(s) {
      forall run: seq<Action>, s' | Steps(s, run, s') && Joined(s') ensures s'.queue == [] {
        SecuredDrains(s, run, s');
      }
    } else {
      var run, s' := CanStrand(s);
    }
  }

  /** After the join, an empty queue and every closure called as often as submitted are the same thing. */
  lemma DrainedIffAllCalled(s0: State, run: seq<Action>, s: State)
    requires Init(s0) && Steps(s0, run, s) && Joined(s)
    ensures s.queue == [] <==> forall x :: multiset(s.ran)[x] == Occurrences(x, s0)
  {
    Safety(s0, run, s);
    JoinedWaiting(s);
    if s.queue == [] {
      AllCalled(s0, run, s);
    } else {
      var x := s.queue[0];
      NeverCalledTwice(s0, run, s, x);
      assert Occurrences(x, s) > 0;
    }
  }

  // ---- Sufficient conditions -------------------------------------------------------------------

  /** The threads that are not event loops have made all their pushes. */
  ghost predicate PushersDone(s: State)
  {
    forall t :: s.cqs <= t < |s.threads| ==> s.threads[t].pending == [] && s.threads[t].push.Ready?
  }

  /** Before the shut-down, with no push under way outside the loops, the token is with the loops. */
  lemma PushersDoneSecured(s: State)
    requires Inv(s) && PushersDone(s) && !s.misused
    ensures Secured(s)
  {
    if s.queue != [] && s.needAlarm {
      var t :| 0 <= t < |s.threads| && Responsible(s.threads[t]);
      assert ThreadOk(s, t);
      assert Handling(s.threads[t]);
    } else if s.queue != [] && s.outstanding == [] {
      var x :| Holds(s, x);
      assert ThreadOk(s, x.t);
      assert Handling(s.threads[x.t]);
    }
  }

  /**
   If the other threads have made their pushes when the shut-down starts, then by the time the event
   loops have been joined everything has been called, also what tasks pushed meanwhile: even a push
   that sets the alarm on a queue already shut down is taken by the handler that made it.
   */
  lemma TearDownDrains(s0: State, before: seq<Action>, s: State, after: seq<Action>, s': State)
    requires Init(s0) && Steps(s0, before, s) && s.closed == 0 && PushersDone(s)
    requires Steps(s, after, s') && Joined(s')
    ensures s'.queue == []
    ensures forall x :: multiset(s'.ran)[x] == Occurrences(x, s0)
  {
    OpenNotMisused(s0, before, s);
    Safety(s0, before, s);
    PushersDoneSecured(s);
    SecuredDrains(s, after, s');
    StepsConcat(s0, before, s, after, s');
    Safety(s0, before + after, s');
    JoinedWaiting(s');
    AllCalled(s0, before + after, s');
  }

  /**
   Joining the event loops drains the dispatcher whenever the pushes were made, as long as no alarm
   was set on a queue that was already shut down.
   */
  lemma JoinDrains(s0: State, run: seq<Action>, s: State)
    requires Init(s0) && Steps(s0, run, s) && Joined(s) && !s.misused
    ensures s.queue == []
    ensures forall x :: multiset(s.ran)[x] == Occurrences(x, s0)
  {
    Safety(s0, run, s);
    JoinedWaiting(s);
    WaitingDrained(s);
    AllCalled(s0, run, s);
  }

  /** A client whose event loop has returned before another thread, with one push to make, has begun. */
  lemma ShutDownAtOnce() returns (s0: State, run: seq<Action>, s: State)
    ensures Init(s0) && Steps(s0, run, s)
    ensures s == s0.(closed := 1, threads := [IDLE_THREAD.(phase := Exited), Pusher([PushCall(Null, 0)])])
    ensures s0.cqs == 1 && s0.order == ClearThenDrain
  {
    s0 := Start(ClearThenDrain, 1, [[PushCall(Null, 0)]]);
    StepsSnoc(s0, [], s0, Close);
    StepsSnoc(s0, [] + [Close], Step(s0, Close), Exit(0));
    run, s := [] + [Close] + [Exit(0)], Step(Step(s0, Close), Exit(0));
  }

  /** The smallest failing case: a push that another thread makes after the join stays queued. */
  lemma LatePushStays()
    ensures exists s0, run: seq<Action>, s ::
      Init(s0) && Steps(s0, run, s) && Joined(s) && s.misused && s.queue != [] && s.ran == []
  {
    var s0, run, s2 := ShutDownAtOnce();
    var s3 := Step(s2, Emplace(1));
    var s4 := Step(s3, Exchange(1));
    var s5 := Step(s4, Arm(1));
    StepsSnoc(s0, run, s2, Emplace(1));
    StepsSnoc(s0, run + [Emplace(1)], s3, Exchange(1));
    StepsSnoc(s0, run + [Emplace(1)] + [Exchange(1)], s4, Arm(1));
    assert Joined(s5);
  }

  /** Nothing is misused while no queue has been shut down. */
  lemma {:induction false} OpenNotMisused(s: State, run: seq<Action>, s': State)
    requires Steps(s, run, s') && s'.closed == 0 && !s.misused
    ensures !s'.misused && s.closed == 0
    decreases |run|
  {
    if run != [] {
      ClosedGrows(Step(s, run[0]), run[1..], s');
      OpenNotMisused(Step(s, run[0]), run[1..], s');
    }
  }

  lemma {:induction false} ClosedGrows(s: State, run: seq<Action>, s': State)
    requires Steps(s, run, s')
    ensures s.closed <= s'.closed
    decreases |run|
  {
    if run != [] {
      ClosedGrows(Step(s, run[0]), run[1..], s');
    }
  }
}
