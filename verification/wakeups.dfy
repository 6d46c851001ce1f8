/** Safety of the wake-up protocol: one token at most, and no closure without somebody to run it. */
module Wakeups {
  import opened Sums
  import opened Dispatch

  // ---- Well-formedness -------------------------------------------------------------------------

  /** A thread that runs no code of its own between two events. */
  predicate Parked(th: Thread)
  {
    th.phase.Idle? || th.phase.Enabling? || th.phase.Exited?
  }

  ghost predicate ThreadOk(s: State, t: nat)
    requires t < |s.threads|
  {
    var th := s.threads[t];
    && (th.phase.Outside? <==> s.cqs <= t)
    && (th.phase.Outside? ==> th.held.None?)
    && (Parked(th) ==> AtRest(th) && th.pending == [])
    && (th.held.Some? ==> th.push.Ready? && th.pending == [])
    && (th.phase.FirstDrain? ==> s.order.DrainEnableDrain?)
    && (th.phase.Exited? ==> t < s.closed && t !in s.outstanding)
  }

  ghost predicate WellFormed(s: State)
  {
    && 0 < s.cqs <= |s.threads|
    && s.closed <= s.cqs
    && (forall k :: 0 <= k < |s.outstanding| ==> s.outstanding[k] < s.cqs)
    && (forall t :: 0 <= t < |s.threads| ==> ThreadOk(s, t))
  }

  lemma InitWellFormed(s: State)
    requires Init(s)
    ensures WellFormed(s)
  {
  }

  /** Only an arming action adds to the outstanding alarms, and only for a queue that is open. */
  lemma StepOutstanding(s: State, a: Action, c: nat)
    requires WellFormed(s) && Enabled(s, a) && c in Step(s, a).outstanding
    ensures c in s.outstanding || (s.closed <= c < s.cqs)
  {
  }

  lemma StepThreadOk(s: State, a: Action, t: nat)
    requires WellFormed(s) && Enabled(s, a) && t < |s.threads|
    ensures |Step(s, a).threads| == |s.threads| && ThreadOk(Step(s, a), t)
  {
    assert ThreadOk(s, t);
    if t in Step(s, a).outstanding {
      StepOutstanding(s, a, t);
    }
  }

  lemma StepWellFormed(s: State, a: Action)
    requires WellFormed(s) && Enabled(s, a)
    ensures WellFormed(Step(s, a))
  {
    var s' := Step(s, a);
    forall t | 0 <= t < |s.threads| ensures |s'.threads| == |s.threads| && ThreadOk(s', t) {
      StepThreadOk(s, a, t);
    }
    forall k | 0 <= k < |s'.outstanding| ensures s'.outstanding[k] < s.cqs {
      StepOutstanding(s, a, s'.outstanding[k]);
    }
  }

  // ---- The wake token --------------------------------------------------------------------------

  /** The places a wake-up can be; `Lost` is an alarm set on a queue that was already shut down. */
  datatype Token = ByPusher(t: nat) | ByAlarm(k: nat) | ByHandler(t: nat) | Lost

  /** A pusher that won but has not set the alarm, an undelivered alarm, or a handler before enabling. */
  predicate Holds(s: State, x: Token)
  {
    match x
    case ByPusher(t) => t < |s.threads| && s.threads[t].push.Winner?
    case ByAlarm(k) => k < |s.outstanding|
    case ByHandler(t) =>
      t < |s.threads| && (s.threads[t].phase.FirstDrain? || s.threads[t].phase.Enabling?)
    case Lost => s.misused
  }

  ghost predicate AtMostOneToken(s: State)
  {
    forall x, y :: Holds(s, x) && Holds(s, y) ==> x == y
  }

  ghost predicate SomeToken(s: State)
  {
    exists x :: Holds(s, x)
  }

  /** There is never more than one token, and there is one exactly while the flag is down. */
  ghost predicate TokenUnique(s: State)
  {
    && AtMostOneToken(s)
    && (!s.needAlarm <==> SomeToken(s))
  }

  lemma InitToken(s: State)
    requires Init(s)
    ensures TokenUnique(s)
  {
  }

  /** Where the token `x` is after the action `a`, if the action does not consume it. */
  function Moved(s: State, a: Action, x: Token): Token
    requires Enabled(s, a)
  {
    match a
    case Arm(t) =>
      if x != ByPusher(t) then x
      else if s.threads[t].push.cq % s.cqs < s.closed then Lost
      else ByAlarm(|s.outstanding|)
    case Deliver(t, k) =>
      if x == ByAlarm(k) then ByHandler(t)
      else if x.ByAlarm? && k < x.k then ByAlarm(x.k - 1)
      else x
    case _ => x
  }

  /** A token before the step is the same token, possibly elsewhere, after it; only enabling ends one. */
  lemma TokenForward(s: State, a: Action, x: Token)
    requires WellFormed(s) && Enabled(s, a) && Holds(s, x) && !a.Enable?
    ensures Holds(Step(s, a), Moved(s, a, x))
  {
    if x.ByPusher? {
      assert ThreadOk(s, x.t);
    }
  }

  /** The pusher that takes the token up in this step, if any. */
  predicate Created(s: State, a: Action, y: Token)
  {
    a.Exchange? && s.needAlarm && y == ByPusher(a.t)
  }

  /** The token `y` after the step is `x` before it, and the step did not end `x`. */
  predicate CameFrom(s: State, a: Action, x: Token, y: Token)
    requires Enabled(s, a)
  {
    Holds(s, x) && y == Moved(s, a, x) && (a.Enable? ==> x != ByHandler(a.t))
  }

  /** A token after the step was there before it, unless a pusher has just won the flag. */
  lemma TokenBackward(s: State, a: Action, y: Token) returns (x: Token)
    requires WellFormed(s) && Enabled(s, a) && Holds(Step(s, a), y)
    ensures Created(s, a, y) || CameFrom(s, a, x, y)
  {
    x := y;
    match a
    case Arm(t) =>
      if y == Moved(s, a, ByPusher(t)) {
        x := ByPusher(t);
      }
    case Deliver(t, k) =>
      if y == ByHandler(t) {
        x := ByAlarm(k);
      } else if y.ByAlarm? && k <= y.k {
        x := ByAlarm(y.k + 1);
      }
    case _ =>
  }

  lemma StepToken(s: State, a: Action)
    requires WellFormed(s) && TokenUnique(s) && Enabled(s, a)
    ensures TokenUnique(Step(s, a))
  {
    var s' := Step(s, a);
    forall x, y | Holds(s', x) && Holds(s', y) ensures x == y {
      var x0 := TokenBackward(s, a, x);
      var y0 := TokenBackward(s, a, y);
    }
    if a.Enable? {
      assert Holds(s, ByHandler(a.t));
      forall y ensures !Holds(s', y) {
        if Holds(s', y) {
          var x := TokenBackward(s, a, y);
        }
      }
    } else if a.Exchange? && s.needAlarm {
      assert Holds(s', ByPusher(a.t));
    } else if SomeToken(s) {
      var x :| Holds(s, x);
      TokenForward(s, a, x);
    } else {
      forall y ensures !Holds(s', y) {
        if Holds(s', y) {
          var x := TokenBackward(s, a, y);
        }
      }
    }
  }

  // ---- No lost wake-up -------------------------------------------------------------------------

  /** A thread that will still look at the queue, or at the flag, after what was appended so far. */
  predicate Responsible(th: Thread)
  {
    th.push.Emplaced? || th.phase.LastDrain?
  }

  /** Whatever is queued has a live token, or a thread that is bound to look again. */
  ghost predicate NoLostWakeup(s: State)
  {
    s.queue != [] ==>
      || !s.needAlarm
      || exists t :: 0 <= t < |s.threads| && Responsible(s.threads[t])
  }

  /**
   The live form: unless an alarm was lost on a queue that is shut down, whatever is queued has a token
   that will reach a handler, or a thread that is bound to look again.
   */
  ghost predicate Covered(s: State)
  {
    s.queue != [] && !s.misused ==>
      || (exists x :: Holds(s, x) && !x.Lost?)
      || exists t :: 0 <= t < |s.threads| && Responsible(s.threads[t])
  }

  lemma StepNoLostWakeup(s: State, a: Action)
    requires WellFormed(s) && TokenUnique(s) && NoLostWakeup(s) && Enabled(s, a)
    ensures NoLostWakeup(Step(s, a)) && Covered(Step(s, a))
  {
    var s' := Step(s, a);
    StepToken(s, a);
    if s'.queue != [] && s'.needAlarm {
      if a.Emplace? || a.Enable? {
        assert Responsible(s'.threads[a.t]);
      } else {
        var t :| 0 <= t < |s.threads| && Responsible(s.threads[t]);
        assert ThreadOk(s, t);
        assert Responsible(s'.threads[t]);
      }
    }
  }

  // ---- Every run -------------------------------------------------------------------------------

  ghost predicate Inv(s: State)
  {
    WellFormed(s) && TokenUnique(s) && NoLostWakeup(s)
  }

  lemma StepInv(s: State, a: Action)
    requires Inv(s) && Enabled(s, a)
    ensures Inv(Step(s, a))
  {
    StepWellFormed(s, a);
    StepToken(s, a);
    StepNoLostWakeup(s, a);
  }

  lemma {:induction false} StepsInv(s: State, run: seq<Action>, s': State)
    requires Inv(s) && Steps(s, run, s')
    ensures Inv(s')
    decreases |run|
  {
    if run != [] {
      StepInv(s, run[0]);
      StepsInv(Step(s, run[0]), run[1..], s');
    }
  }

  /** Main safety theorem: in every reachable state the token is unique and no wake-up is lost. */
  lemma Safety(s0: State, run: seq<Action>, s: State)
    requires Init(s0) && Steps(s0, run, s)
    ensures TokenUnique(s) && NoLostWakeup(s) && Covered(s) && WellFormed(s)
  {
    InitWellFormed(s0);
    InitToken(s0);
    StepsInv(s0, run, s);
  }

  /** In every reachable state the alarm is set only while no other alarm is armed or undelivered. */
  lemma AlarmNeverSetTwice(s0: State, run: seq<Action>, s: State, t: nat)
    requires Init(s0) && Steps(s0, run, s) && Enabled(s, Arm(t))
    ensures s.outstanding == [] && !s.misused
    ensures |Step(s, Arm(t)).outstanding| <= 1
  {
    Safety(s0, run, s);
    assert Holds(s, ByPusher(t));
    assert !Holds(s, ByAlarm(0)) && !Holds(s, Lost);
  }

  /** At most one handler is ever before the point that re-enables the flag. */
  lemma OneHandlerBeforeEnable(s0: State, run: seq<Action>, s: State, t: nat, u: nat)
    requires Init(s0) && Steps(s0, run, s)
    requires Holds(s, ByHandler(t)) && Holds(s, ByHandler(u))
    ensures t == u
  {
    Safety(s0, run, s);
    assert ByHandler(t) == ByHandler(u);
  }

  /** A push made by a task of the first drain loop loses the exchange, so it never sets the alarm. */
  lemma FirstDrainNeverArms(s0: State, run: seq<Action>, s: State, t: nat)
    requires Init(s0) && Steps(s0, run, s)
    requires t < |s.threads| && s.threads[t].phase.FirstDrain?
    ensures !s.threads[t].push.Winner?
    ensures Enabled(s, Exchange(t)) ==> Step(s, Exchange(t)).threads[t].push.Ready?
    ensures !Enabled(s, Arm(t))
  {
    Safety(s0, run, s);
    assert Holds(s, ByHandler(t));
    assert !Holds(s, ByPusher(t));
  }
}
