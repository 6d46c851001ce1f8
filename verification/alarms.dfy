/** Where the alarm events go, and what a thread does for each of its pushes, over all runs. */
module Alarms {
  import opened Sums
  import opened Dispatch
  import opened Wakeups
  import opened Interleaving

  // ---- One event per alarm, on the queue it was set on ---------------------------------------------

  function Count(b: bool): nat { if b then 1 else 0 }

  /** How often the alarm was set on queue `q` while that queue was open. */
  ghost function SetOpen(s: State, run: seq<Action>, s': State, q: nat): nat
    requires Steps(s, run, s')
    decreases |run|
  {
    if run == [] then 0
    else Count(AlarmSet(q) in Does(s, run[0]) && s.closed <= q) + SetOpen(Step(s, run[0]), run[1..], s', q)
  }

  /** How often the alarm was set on a queue that was shut down. */
  ghost function SetLate(s: State, run: seq<Action>, s': State): nat
    requires Steps(s, run, s')
    decreases |run|
  {
    if run == [] then 0
    else Count(exists q: nat :: q < s.closed && AlarmSet(q) in Does(s, run[0])) + SetLate(Step(s, run[0]), run[1..], s')
  }

  /** How many events queue `q` has handed to its thread. */
  function Handed(run: seq<Action>, q: nat): nat
  {
    if run == [] then 0 else Count(run[0].Deliver? && run[0].t == q) + Handed(run[1..], q)
  }

  lemma StepEvents(s: State, a: Action, q: nat)
    requires Enabled(s, a)
    ensures multiset(Step(s, a).outstanding)[q] + Count(a.Deliver? && a.t == q)
      == multiset(s.outstanding)[q] + Count(AlarmSet(q) in Does(s, a) && s.closed <= q)
  {
    if a.Deliver? {
      assert s.outstanding == s.outstanding[..a.k] + [s.outstanding[a.k]] + s.outstanding[a.k + 1..];
    } else if a.Arm? {
      assert Does(s, a) == [AlarmSet(s.threads[a.t].push.cq % s.cqs)];
    }
  }

  lemma StepLate(s: State, a: Action)
    requires Enabled(s, a)
    ensures Step(s, a).misused <==> s.misused || exists x: nat :: x < s.closed && AlarmSet(x) in Does(s, a)
  {
    if a.Arm? {
      assert Does(s, a) == [AlarmSet(s.threads[a.t].push.cq % s.cqs)];
    }
  }

  lemma {:induction false} RunAlarms(s: State, run: seq<Action>, s': State, q: nat)
    requires Steps(s, run, s')
    ensures Handed(run, q) + multiset(s'.outstanding)[q] == SetOpen(s, run, s', q) + multiset(s.outstanding)[q]
    ensures s'.misused <==> s.misused || SetLate(s, run, s') > 0
    decreases |run|
  {
    if run != [] {
      StepEvents(s, run[0], q);
      StepLate(s, run[0]);
      RunAlarms(Step(s, run[0]), run[1..], s', q);
    }
  }

  /**
   The alarm law, for every queue: the events handed to its thread and those still to come are as many
   as the alarms set on this very queue while it was open; and an alarm is lost exactly if it was set on
   a queue that was shut down.
   */
  lemma AlarmsArriveWhereSet(s0: State, run: seq<Action>, s: State, q: nat)
    requires Init(s0) && Steps(s0, run, s)
    ensures Handed(run, q) + multiset(s.outstanding)[q] == SetOpen(s0, run, s, q)
    ensures s.misused <==> SetLate(s0, run, s) > 0
  {
    RunAlarms(s0, run, s, q);
  }

  // ---- A thread's pushes, in program order ---------------------------------------------------------

  lemma {:induction false} PushesDoSnoc(ps: seq<PushCall>, firsts: seq<bool>, p: PushCall, first: bool, n: nat)
    requires 0 < n && |ps| == |firsts|
    ensures PushesDo(ps + [p], firsts + [first], n) == PushesDo(ps, firsts, n) + PushDoes(p, first, n)
    decreases |ps|
  {
    if ps == [] {
      assert ps + [p] == [p] && firsts + [first] == [first];
      assert [p][1..] == [] && [first][1..] == [];
    } else {
      assert (ps + [p])[1..] == ps[1..] + [p] && (firsts + [first])[1..] == firsts[1..] + [first];
      PushesDoSnoc(ps[1..], firsts[1..], p, first, n);
    }
  }

  /** The thread has made the first `k` pushes of `program`, and is at `th` in or after the last of them. */
  ghost predicate MadePushes(program: seq<PushCall>, n: nat, did: seq<Doing>, th: Thread, k: nat, firsts: seq<bool>)
    requires 0 < n
  {
    && k <= |program| && |firsts| == k && th.held.None?
    && match th.push
       case Ready => th.pending == program[k..] && did == PushesDo(program[..k], firsts, n)
       case Emplaced(cq) =>
         && k < |program| && th.pending == program[k + 1..] && cq == program[k].cq
         && did == PushesDo(program[..k], firsts, n) + [Appended(program[k].fn)]
       case Winner(cq) =>
         && k < |program| && th.pending == program[k + 1..] && cq == program[k].cq
         && did == PushesDo(program[..k], firsts, n) + [Appended(program[k].fn), Exchanged(true)]
  }

  ghost predicate Follows(program: seq<PushCall>, n: nat, did: seq<Doing>, th: Thread)
    requires 0 < n
  {
    exists k: nat, firsts: seq<bool> :: MadePushes(program, n, did, th, k, firsts)
  }

  /** A push is over, with or without having set the alarm. */
  lemma PushOver(program: seq<PushCall>, n: nat, did: seq<Doing>, th: Thread, k: nat, firsts: seq<bool>, first: bool)
    requires 0 < n && k < |program| && |firsts| == k && th.held.None? && th.push.Ready?
    requires th.pending == program[k + 1..]
    requires did == PushesDo(program[..k], firsts, n) + PushDoes(program[k], first, n)
    ensures Follows(program, n, did, th)
  {
    PushesDoSnoc(program[..k], firsts, program[k], first, n);
    assert program[..k] + [program[k]] == program[..k + 1];
    assert MadePushes(program, n, did, th, k + 1, firsts + [first]);
  }

  lemma StepFollows(s: State, a: Action, program: seq<PushCall>, did: seq<Doing>)
    requires WellFormed(s) && Enabled(s, a) && !a.Close? && s.cqs <= a.t
    requires Follows(program, s.cqs, did, s.threads[a.t])
    ensures Follows(program, s.cqs, did + Does(s, a), Step(s, a).threads[a.t])
  {
    assert ThreadOk(s, a.t);
    var th, th' := s.threads[a.t], Step(s, a).threads[a.t];
    var k: nat, firsts: seq<bool> :| MadePushes(program, s.cqs, did, th, k, firsts);
    var now := did + Does(s, a);
    var before := PushesDo(program[..k], firsts, s.cqs);
    match a
    case Emplace(t) =>
      assert program[k..][1..] == program[k + 1..];
      assert MadePushes(program, s.cqs, now, th', k, firsts);
    case Exchange(t) =>
      if s.needAlarm {
        assert now == before + [Appended(program[k].fn), Exchanged(true)];
        assert MadePushes(program, s.cqs, now, th', k, firsts);
      } else {
        assert now == before + PushDoes(program[k], false, s.cqs);
        PushOver(program, s.cqs, now, th', k, firsts, false);
      }
    case Arm(t) =>
      assert now == before + PushDoes(program[k], true, s.cqs);
      PushOver(program, s.cqs, now, th', k, firsts, true);
    case _ =>
      assert false;
  }

  lemma StepOrRest(s: State, a: Action, t: nat, program: seq<PushCall>, did: seq<Doing>)
    requires WellFormed(s) && Enabled(s, a) && s.cqs <= t < |s.threads|
    requires Follows(program, s.cqs, did, s.threads[t])
    ensures var s' := Step(s, a);
      && |s'.threads| == |s.threads| && s'.cqs == s.cqs
      && Follows(program, s.cqs, did + DoesBy(s, a, t), s'.threads[t])
  {
    if By(a, t) {
      StepFollows(s, a, program, did);
    } else {
      assert did + [] == did && Step(s, a).threads[t] == s.threads[t];
    }
  }

  lemma {:induction false} RunFollows(s: State, run: seq<Action>, s': State, t: nat, program: seq<PushCall>,
                                      did: seq<Doing>)
    requires WellFormed(s) && Steps(s, run, s') && s.cqs <= t < |s.threads|
    requires Follows(program, s.cqs, did, s.threads[t])
    ensures t < |s'.threads| && Follows(program, s.cqs, did + Doings(s, run, s', t), s'.threads[t])
    decreases |run|
  {
    if run == [] {
      assert did + [] == did;
    } else {
      var m, more := Step(s, run[0]), DoesBy(s, run[0], t);
      StepWellFormed(s, run[0]);
      StepOrRest(s, run[0], t, program, did);
      RunFollows(m, run[1..], s', t, program, did + more);
      Assoc(did, more, Doings(m, run[1..], s', t));
    }
  }

  /**
   In every run, a thread that only pushes has made the first of its pushes, in program order and one
   after the other, and is at most in the middle of the next one: each appends its own closure, then
   exchanges the flag, and sets the alarm exactly if it took it, on the queue the push asked for.
   */
  lemma PushesInProgramOrder(s0: State, run: seq<Action>, s: State, t: nat)
    requires Init(s0) && Steps(s0, run, s) && s0.cqs <= t < |s0.threads|
    ensures t < |s.threads| && Follows(s0.threads[t].pending, s0.cqs, Doings(s0, run, s, t), s.threads[t])
  {
    var program := s0.threads[t].pending;
    InitWellFormed(s0);
    assert s0.threads[t] == Pusher(program);
    assert program[0..] == program && program[..0] == [];
    assert MadePushes(program, s0.cqs, [], s0.threads[t], 0, []);
    RunFollows(s0, run, s, t, program, []);
    assert [] + Doings(s0, run, s, t) == Doings(s0, run, s, t);
  }
}
