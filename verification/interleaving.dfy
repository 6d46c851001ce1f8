/** What a thread may rely on while other threads run between two of its own atomic steps. */
module Interleaving {
  import opened Dispatch
  import opened Wakeups
  import opened Work

  /** What an event loop's `Next` has to say; `Blocked` is a wait that nothing ends. */
  datatype NextResult = Event | ShutDown | Blocked

  /** `trace` is a run from the initial state `origin` to `world`. */
  ghost predicate History(origin: State, trace: seq<Action>, world: State)
  {
    Init(origin) && Steps(origin, trace, world)
  }

  /** The run went on, and thread `t` took no step meanwhile. */
  ghost predicate OnlyOthers(before: seq<Action>, after: seq<Action>, t: nat)
  {
    && before <= after
    && forall i :: |before| <= i < |after| ==> !By(after[i], t)
  }

  // ---- What one thread did -----------------------------------------------------------------------

  /** What others can see of a step: it changes the queue or the flag, sets the alarm, or calls. */
  datatype Doing =
    | Appended(fn: Closure)
    | Exchanged(first: bool)
    | AlarmSet(cq: nat)
    | Called(fn: Closure)

  /** Calling a closure does nothing if it is empty. */
  function Begins(c: Closure): seq<Doing>
  {
    if c.Fn? then [Called(c)] else []
  }

  ghost function Does(s: State, a: Action): seq<Doing>
    requires Enabled(s, a)
  {
    match a
    case Emplace(t) => [Appended(s.threads[t].pending[0].fn)]
    case Exchange(t) => [Exchanged(s.needAlarm)]
    case Arm(t) => [AlarmSet(s.threads[t].push.cq % s.cqs)]
    case Call(t) => Begins(s.threads[t].held.value)
    case _ => []
  }

  /** What thread `t` does in a step, if it is its own. */
  ghost function DoesBy(s: State, a: Action, t: nat): seq<Doing>
    requires Enabled(s, a)
  {
    if By(a, t) then Does(s, a) else []
  }

  /** What thread `t` does in a run, in order. */
  ghost function Doings(s: State, run: seq<Action>, s': State, t: nat): seq<Doing>
    requires Steps(s, run, s')
    decreases |run|
  {
    if run == [] then []
    else DoesBy(s, run[0], t) + Doings(Step(s, run[0]), run[1..], s', t)
  }

  lemma {:induction false} DoingsConcat(s: State, a: seq<Action>, m: State, b: seq<Action>, s': State, t: nat)
    requires Steps(s, a, m) && Steps(m, b, s') && Steps(s, a + b, s')
    ensures Doings(s, a + b, s', t) == Doings(s, a, m, t) + Doings(m, b, s', t)
    decreases |a|
  {
    if a == [] {
      assert a + b == b;
    } else {
      assert (a + b)[0] == a[0] && (a + b)[1..] == a[1..] + b;
      DoingsConcat(Step(s, a[0]), a[1..], m, b, s', t);
    }
  }

  lemma DoingsSnoc(s: State, run: seq<Action>, m: State, a: Action)
    requires Steps(s, run, m) && Enabled(m, a) && !a.Close? && Steps(s, run + [a], Step(m, a))
    ensures Doings(s, run + [a], Step(m, a), a.t) == Doings(s, run, m, a.t) + Does(m, a)
  {
    assert [a][1..] == [];
    assert Steps(Step(m, a), [a][1..], Step(m, a));
    DoingsConcat(s, run, m, [a], Step(m, a), a.t);
  }

  lemma {:induction false} OthersDoNothing(s: State, run: seq<Action>, s': State, t: nat)
    requires Steps(s, run, s')
    requires forall i :: 0 <= i < |run| ==> !By(run[i], t)
    ensures Doings(s, run, s', t) == []
    decreases |run|
  {
    if run != [] {
      assert !By(run[0], t);
      OthersDoNothing(Step(s, run[0]), run[1..], s', t);
    }
  }

  /** One call of `push(p.fn, p.cq)` with `n` queues: only a thread that takes the flag sets the alarm. */
  ghost function PushDoes(p: PushCall, first: bool, n: nat): seq<Doing>
    requires 0 < n
  {
    [Appended(p.fn), Exchanged(first)] + if first then [AlarmSet(p.cq % n)] else []
  }

  /** The calls `ps` one after the other; `firsts` says which of them took the flag. */
  ghost function PushesDo(ps: seq<PushCall>, firsts: seq<bool>, n: nat): seq<Doing>
    requires 0 < n && |ps| == |firsts|
  {
    if ps == [] then []
    else PushDoes(ps[0], firsts[0], n) + PushesDo(ps[1..], firsts[1..], n)
  }

  // ---- Interference ------------------------------------------------------------------------------

  /** Whatever the other threads did, `t` is where it was and no more work is left than before. */
  lemma Relies(origin: State, before: seq<Action>, w: State, after: seq<Action>, w': State, t: nat)
    requires History(origin, before, w) && History(origin, after, w') && OnlyOthers(before, after, t)
    ensures |w'.threads| == |w.threads| && w'.order == w.order && w'.cqs == w.cqs
    ensures t < |w.threads| ==> w'.threads[t] == w.threads[t]
    ensures Doings(origin, after, w', t) == Doings(origin, before, w, t)
    ensures 0 <= Measure(w') <= Measure(w)
    ensures Inv(w')
  {
    var mid := after[|before|..];
    assert after == before + mid;
    StepsSuffix(origin, before, w, mid, w');
    forall i | 0 <= i < |mid| ensures !By(mid[i], t) {
      assert mid[i] == after[|before| + i];
    }
    OthersKeepThread(w, mid, w', t);
    OthersDoNothing(w, mid, w', t);
    DoingsConcat(origin, before, w, mid, w', t);
    Safety(origin, before, w);
    RunMeasure(w, mid, w');
    MeasureNonNegative(w');
    Safety(origin, after, w');
  }

  /** One more step of its own takes strictly less work. */
  lemma Advances(origin: State, trace: seq<Action>, w: State, a: Action)
    requires History(origin, trace, w) && Enabled(w, a)
    ensures History(origin, trace + [a], Step(w, a))
    ensures !a.Close? ==>
      Doings(origin, trace + [a], Step(w, a), a.t) == Doings(origin, trace, w, a.t) + Does(w, a)
    ensures 0 <= Measure(Step(w, a)) < Measure(w)
    ensures Inv(Step(w, a))
  {
    StepsSnoc(origin, trace, w, a);
    if !a.Close? {
      DoingsSnoc(origin, trace, w, a);
    }
    Safety(origin, trace, w);
    Safety(origin, trace + [a], Step(w, a));
    StepMeasure(w, a);
    MeasureNonNegative(Step(w, a));
  }
}
