/** What every disciplined run of a client stream does to gRPC, and how the call ends. */
module StreamTheorems {
  import opened Rpc
  import opened StreamCall

  lemma Reached(kind: Kind, run: seq<Action>, c: Call)
    requires Steps(NewCall(kind), run, c)
    ensures Inv(c) && c.kind == kind
  {
    StepsInv(NewCall(kind), run, c);
  }

  lemma StepsCons(c: Call, a: Action, rest: seq<Action>, d: Call)
    requires Enabled(c, a) && Steps(Step(c, a), rest, d)
    ensures Steps(c, [a] + rest, d)
  {
    assert ([a] + rest)[1..] == rest;
  }

  /**
   Over any run: half-close and finish are asked for at most once each, a stream whose start failed or
   never happened is asked for neither, and the state object is freed at most once, with no tag left
   outstanding.
   */
  lemma CallSafety(kind: Kind, run: seq<Action>, c: Call)
    requires Steps(NewCall(kind), run, c)
    ensures c.halfCloses <= 1 && c.finishes <= 1 && c.freed <= 1
    ensures !c.startOk ==> c.halfCloses == c.finishes == 0
    ensures !ClientStreams(kind) ==> c.halfCloses == 0
    ensures c.freed == 1 ==> c.tags == multiset{}
    ensures |c.results| <= 1
  {
    Reached(kind, run, c);
  }

  // ---- The absent stream ---------------------------------------------------------------------------

  /** There is a call to use: it was started, its start did not fail, and `finish` has not returned. */
  predicate HasCall(c: Call)
  {
    c.started && (c.startOk || StartTag in c.tags) && c.results == []
  }

  /** The operations that use the stream without looking whether there is one. */
  predicate Unguarded(a: Action)
  {
    a.Read? || a.Finish?
  }

  /** An owned call has its stream exactly while there is a call to use. */
  lemma StreamMeansCall(c: Call)
    requires Inv(c) && c.owned
    ensures c.stream <==> HasCall(c)
  {
  }

  /** The next action faults exactly if it is a `read` or a `finish` without a call to use. */
  lemma StepFaults(c: Call, a: Action)
    requires Inv(c) && Enabled(c, a)
    ensures Step(c, a).fault <==> Unguarded(a) && !HasCall(c)
  {
    if a.Event? {
      StageOfTag(c, a.tag);
    } else {
      StreamMeansCall(c);
    }
  }

  /** Somewhere in the run, `read` or `finish` is called without a call to use. */
  ghost predicate AbsentUse(c: Call, run: seq<Action>)
    decreases |run|
  {
    run != [] && Enabled(c, run[0])
    && ((Unguarded(run[0]) && !HasCall(c)) || AbsentUse(Step(c, run[0]), run[1..]))
  }

  lemma {:induction false} FaultsAlong(c: Call, run: seq<Action>, c': Call)
    requires Inv(c) && !c.fault && Steps(c, run, c')
    ensures c'.fault <==> AbsentUse(c, run)
    decreases |run|
  {
    if run != [] {
      var d := Step(c, run[0]);
      StepInv(c, run[0]);
      StepFaults(c, run[0]);
      if d.fault {
        FaultEnds(d, run[1..], c');
      } else {
        FaultsAlong(d, run[1..], c');
      }
    }
  }

  lemma FaultEnds(c: Call, run: seq<Action>, c': Call)
    requires c.fault && Steps(c, run, c')
    ensures run == [] && c' == c
  {
  }

  /**
   The exact condition for using a stream that is absent or a state object that is deleted: a run has
   done so if and only if it called `read` or `finish` before `start`, after a start that failed, or
   after `finish` had returned. No other operation, no event and no tear-down ever does.
   */
  lemma FaultIff(kind: Kind, run: seq<Action>, c: Call)
    requires Steps(NewCall(kind), run, c)
    ensures c.fault <==> AbsentUse(NewCall(kind), run)
  {
    FaultsAlong(NewCall(kind), run, c);
  }

  /** A caller that does not look at the result of `start` meets it. */
  lemma FinishAfterFailedStart(kind: Kind)
    ensures exists run: seq<Action>, c: Call ::
      Steps(NewCall(kind), run, c) && Enabled(c, Finish) && !c.startOk && Step(c, Finish).fault
  {
    var a := Step(NewCall(kind), Start);
    var c := Step(a, Event(StartTag, false, OK));
    assert c.tags == multiset{};
    assert Steps(c, [], c);
    StepsCons(a, Event(StartTag, false, OK), [], c);
    StepsCons(NewCall(kind), Start, [Event(StartTag, false, OK)] + [], c);
  }

  /**
   When the state object is gone, whether `finish` or the destructor or both ended the call: `Finish`
   was asked for exactly once if the start event was ok and never otherwise, a stream the client writes
   to was half-closed exactly once, and the call was cancelled exactly if it had started and `finish`
   did not end it.
   */
  lemma CallBalance(kind: Kind, run: seq<Action>, c: Call)
    requires Steps(NewCall(kind), run, c) && c.freed > 0
    ensures c.freed == 1 && !c.owned && c.tags == multiset{} && !c.stream && !c.context
    ensures c.cancelled <==> c.startOk && c.results == []
    ensures c.finishes == Bit(c.startOk)
    ensures c.halfCloses == Bit(c.startOk && (kind.ClientStreaming? || kind.Bidi?))
  {
    Reached(kind, run, c);
  }

  // ---- Tear-down ---------------------------------------------------------------------------------

  /** The events a tear-down takes. */
  function TearDownEvents(c: Call): nat
  {
    if !c.stream then 0 else if ClientStreams(c.kind) && c.needWritesDone then 2 else 1
  }

  /** Between destruction and deletion exactly one tag is outstanding, and only its event can happen. */
  lemma OneTagUntilFreed(kind: Kind, run: seq<Action>, c: Call)
    requires Steps(NewCall(kind), run, c) && !c.owned
    ensures |c.tags| == 1 - c.freed
    ensures forall a :: Enabled(c, a) ==> a.Event?
  {
    Reached(kind, run, c);
  }

  lemma {:induction false} TearDownRun(c: Call, run: seq<Action>, c': Call)
    requires Inv(c) && !c.owned && !c.fault && Steps(c, run, c')
    ensures !c'.owned && Inv(c') && !c'.fault && |run| + EventsLeft(c') == EventsLeft(c)
    decreases |run|
  {
    if run != [] {
      var d := Step(c, run[0]);
      StepInv(c, run[0]);
      EventCounts(c, run[0]);
      TearDownRun(d, run[1..], c');
    }
  }

  /** The events still to come after destruction. */
  function EventsLeft(c: Call): nat
  {
    if ExitHalf in c.tags then 2 else if ExitEnd in c.tags then 1 else 0
  }

  lemma EventCounts(c: Call, a: Action)
    requires Inv(c) && !c.owned && Enabled(c, a)
    ensures EventsLeft(Step(c, a)) + 1 == EventsLeft(c) && !Step(c, a).owned && !Step(c, a).fault
  {
  }

  /**
   The tear-down takes zero, one or two events: none without a stream, two if the half-close is still
   to be made, one otherwise. The state object is freed by the last of them and not before.
   */
  lemma TearDownLength(kind: Kind, before: seq<Action>, c: Call, after: seq<Action>, c': Call)
    requires Steps(NewCall(kind), before, c) && Enabled(c, Destroy)
    requires Steps(Step(c, Destroy), after, c')
    ensures |after| <= TearDownEvents(c)
    ensures c'.freed == Bit(|after| == TearDownEvents(c))
    ensures (exists a :: Enabled(c', a)) <==> |after| < TearDownEvents(c)
  {
    Reached(kind, before, c);
    StepInv(c, Destroy);
    DestroyCounts(c);
    TearDownRun(Step(c, Destroy), after, c');
    LeftMeansEnabled(c');
  }

  lemma DestroyCounts(c: Call)
    requires Inv(c) && Enabled(c, Destroy)
    ensures EventsLeft(Step(c, Destroy)) == TearDownEvents(c) && !Step(c, Destroy).fault
  {
  }

  lemma LeftMeansEnabled(c: Call)
    requires Inv(c) && !c.owned && !c.fault
    ensures c.freed == Bit(EventsLeft(c) == 0)
    ensures (exists a :: Enabled(c, a)) <==> EventsLeft(c) > 0
  {
    assert ExitHalf in c.tags ==> Enabled(c, Event(ExitHalf, true, OK));
    assert ExitEnd in c.tags ==> Enabled(c, Event(ExitEnd, true, OK));
  }

  // ---- finish() ----------------------------------------------------------------------------------

  /** What `finish` returns for the completion of `Finish`. */
  function FinishResult(ok: bool, server: Status): Status
  {
    if ok then server else UNKNOWN
  }

  /** The event was the completion of `Finish`, and the caller has been resumed with its result only. */
  predicate Resumed(a: Action, c: Call)
  {
    a.Event? && a.tag == FinishEnd && c.results == [FinishResult(a.ok, a.server)]
  }

  /** The events `finish` takes: one for the half-close, if that is still to be made, and one more. */
  function FinishEvents(c: Call): nat
  {
    if ClientStreams(c.kind) && c.needWritesDone then 2 else 1
  }

  lemma FinishAsks(c: Call)
    requires Inv(c) && Enabled(c, Finish) && HasCall(c)
    ensures !Step(c, Finish).fault
    ensures FinishEvents(c) == 2 ==> FinishingHalf(Step(c, Finish))
    ensures FinishEvents(c) == 1 ==> FinishingEnd(Step(c, Finish))
  {
  }

  /** Whether or not the half-close succeeded, `Finish` is asked for next. */
  lemma HalfStep(c: Call, a: Action)
    requires FinishingHalf(c) && Enabled(c, a)
    ensures a.Event? && a.tag == FinishHalf && FinishingEnd(Step(c, a))
    ensures Step(c, a).fault == c.fault
  {
    assert c.tags - multiset{FinishHalf} == multiset{};
    assert multiset{} + multiset{FinishEnd} == multiset{FinishEnd};
  }

  lemma EndStep(c: Call, a: Action)
    requires FinishingEnd(c) && Enabled(c, a)
    ensures Resumed(a, Step(c, a))
  {
  }

  lemma {:induction false} ResultsStay(c: Call, run: seq<Action>, c': Call)
    requires Inv(c) && |c.results| == 1 && Steps(c, run, c')
    ensures c'.results == c.results
    decreases |run|
  {
    if run != [] {
      var d := Step(c, run[0]);
      StepInv(c, run[0]);
      ResultStays(c, run[0]);
      ResultsStay(d, run[1..], c');
    }
  }

  lemma ResultStays(c: Call, a: Action)
    requires Inv(c) && |c.results| == 1 && Enabled(c, a)
    ensures Step(c, a).results == c.results
  {
  }

  lemma FromFinishingEnd(c: Call, run: seq<Action>, c': Call)
    requires !c.fault && FinishingEnd(c) && Steps(c, run, c')
    ensures run == [] ==> c'.results == []
    ensures run != [] ==> Resumed(run[0], c')
  {
    if run != [] {
      EndStep(c, run[0]);
      StepInv(c, run[0]);
      ResultsStay(Step(c, run[0]), run[1..], c');
    }
  }

  lemma FromFinishingHalf(c: Call, run: seq<Action>, c': Call)
    requires !c.fault && FinishingHalf(c) && Steps(c, run, c')
    ensures |run| < 2 ==> c'.results == []
    ensures |run| >= 2 ==> Resumed(run[1], c')
  {
    if run != [] {
      HalfStep(c, run[0]);
      FromFinishingEnd(Step(c, run[0]), run[1..], c');
    }
  }

  lemma FinishDirectly(c: Call, after: seq<Action>, c': Call)
    requires Inv(c) && Enabled(c, Finish) && HasCall(c) && FinishEvents(c) == 1
    requires Steps(Step(c, Finish), after, c')
    ensures after == [] ==> c'.results == []
    ensures after != [] ==> Resumed(after[0], c')
  {
    FinishAsks(c);
    FromFinishingEnd(Step(c, Finish), after, c');
  }

  lemma FinishAfterHalfClose(c: Call, after: seq<Action>, c': Call)
    requires Inv(c) && Enabled(c, Finish) && HasCall(c) && FinishEvents(c) == 2
    requires Steps(Step(c, Finish), after, c')
    ensures |after| < 2 ==> c'.results == []
    ensures |after| >= 2 ==> Resumed(after[1], c')
  {
    FinishAsks(c);
    FromFinishingHalf(Step(c, Finish), after, c');
  }

  lemma {:induction false} FinishResumes(c: Call, after: seq<Action>, c': Call)
    requires Inv(c) && Enabled(c, Finish) && HasCall(c) && Steps(Step(c, Finish), after, c')
    ensures |after| < FinishEvents(c) ==> c'.results == []
    ensures |after| >= FinishEvents(c) ==> Resumed(after[FinishEvents(c) - 1], c')
  {
    if FinishEvents(c) == 1 {
      FinishDirectly(c, after, c');
    } else {
      FinishAfterHalfClose(c, after, c');
    }
  }

  /**
   `finish` resumes its caller exactly once on every sequence of events, and the result depends on the
   completion of `Finish` alone: the server's status, or UNKNOWN if that event was not ok, whatever
   the event of the half-close reported before.
   */
  lemma {:induction false} FinishOutcome(kind: Kind, before: seq<Action>, c: Call, after: seq<Action>, c': Call)
    requires Steps(NewCall(kind), before, c) && Enabled(c, Finish) && HasCall(c)
    requires Steps(Step(c, Finish), after, c')
    ensures |after| < FinishEvents(c) ==> c'.results == []
    ensures |after| >= FinishEvents(c) ==> Resumed(after[FinishEvents(c) - 1], c')
  {
    Reached(kind, before, c);
    FinishResumes(c, after, c');
  }

  /** `finish` and then the destructor: the tear-down finds no stream and takes no event. */
  lemma FinishThenDestroy(kind: Kind, run: seq<Action>, c: Call)
    requires Steps(NewCall(kind), run, c) && c.results != [] && c.owned && !c.fault
    ensures Enabled(c, Destroy) && TearDownEvents(c) == 0
    ensures Gone(Step(c, Destroy)) && Step(c, Destroy).finishes == 1
  {
    Reached(kind, run, c);
  }

  // ---- The discipline that the flag relies on ------------------------------------------------------

  /** What has half-closed the stream has not completed, or was `finish`, which leaves the flag up. */
  predicate HalfCloseUnseen(c: Call)
  {
    || WriteLastTag in c.tags || WritesDoneTag in c.tags || FinishHalf in c.tags
    || (FinishEnd in c.tags && c.needWritesDone)
  }

  lemma FlagExact(c: Call)
    requires Inv(c) && c.owned
    ensures HalfCloseUnseen(c) <==> c.stream && ClientStreams(c.kind) && c.needWritesDone && c.halfCloses == 1
    ensures c.halfCloses <= 1
  {
  }

  /** What `finish` and the destructor ask for, from any state. */
  lemma Asked(c: Call, a: Action)
    requires c.owned && (a == Finish || a == Destroy)
    ensures Step(c, a).halfCloses == c.halfCloses + Bit(c.stream && ClientStreams(c.kind) && c.needWritesDone)
    ensures Step(c, a).finishes == c.finishes + Bit(c.stream && !(ClientStreams(c.kind) && c.needWritesDone))
  {
  }

  /**
   The exact condition for a second half-close, in every reachable state. The flag is cleared when the
   event of `write_last` or `writes_done` arrives, not when the operation is issued, and never by
   `finish`; so `finish` or the destructor, called with anything outstanding, half-closes a second
   time if and only if `write_last`, `writes_done` or the half-close of `finish` is still outstanding,
   or `finish` has made its half-close and waits for its end.
   */
  lemma {:induction false} SecondHalfCloseIff(kind: Kind, run: seq<Action>, c: Call)
    requires Steps(NewCall(kind), run, c) && c.owned
    ensures Step(c, Finish).halfCloses == 2 <==> HalfCloseUnseen(c)
    ensures Step(c, Destroy).halfCloses == 2 <==> HalfCloseUnseen(c)
    ensures Step(c, Finish).halfCloses <= 2 && Step(c, Destroy).halfCloses <= 2
  {
    Reached(kind, run, c);
    FlagExact(c);
    Asked(c, Finish);
    Asked(c, Destroy);
  }

  lemma FinishesExact(c: Call)
    requires Inv(c) && c.owned
    ensures FinishEnd in c.tags <==> c.stream && c.finishes == 1
    ensures c.finishes <= 1
  {
  }

  /**
   The exact condition for asking for `Finish` a second time: it happens if and only if the completion
   of the first is outstanding and that first `finish` found nothing to half-close.
   */
  lemma {:induction false} SecondFinishIff(kind: Kind, run: seq<Action>, c: Call)
    requires Steps(NewCall(kind), run, c) && c.owned
    ensures Step(c, Finish).finishes == 2 <==> FinishEnd in c.tags && !HalfCloseUnseen(c)
    ensures Step(c, Destroy).finishes == 2 <==> FinishEnd in c.tags && !HalfCloseUnseen(c)
  {
    Reached(kind, run, c);
    FlagExact(c);
    FinishesExact(c);
    Asked(c, Finish);
    Asked(c, Destroy);
  }

  /** A concrete caller that half-closes twice: `writes_done` is outstanding when `finish` is called. */
  lemma SecondHalfCloseHappens()
    ensures exists run: seq<Action>, c: Call ::
      Steps(NewCall(Bidi), run, c) && Callable(c, Finish) && Step(c, Finish).halfCloses == 2
  {
    var a := Step(NewCall(Bidi), Start);
    var b := Step(a, Event(StartTag, true, OK));
    var c := Step(b, WritesDone);
    assert b.tags == multiset{};
    assert Steps(c, [], c);
    StepsCons(b, WritesDone, [], c);
    StepsCons(a, Event(StartTag, true, OK), [WritesDone] + [], c);
    StepsCons(NewCall(Bidi), Start, [Event(StartTag, true, OK)] + ([WritesDone] + []), c);
  }

  /** And one for `Finish`: the call is destroyed while its `finish` waits for the server's status. */
  lemma SecondFinishHappens()
    ensures exists run: seq<Action>, c: Call ::
      Steps(NewCall(ServerStreaming), run, c) && Callable(c, Destroy) && Step(c, Destroy).finishes == 2
  {
    var a := Step(NewCall(ServerStreaming), Start);
    var b := Step(a, Event(StartTag, true, OK));
    var c := Step(b, Finish);
    assert b.tags == multiset{};
    assert Steps(c, [], c);
    StepsCons(b, Finish, [], c);
    StepsCons(a, Event(StartTag, true, OK), [Finish] + [], c);
    StepsCons(NewCall(ServerStreaming), Start, [Event(StartTag, true, OK)] + ([Finish] + []), c);
  }
}
