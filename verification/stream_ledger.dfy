/** What a stream asks of gRPC over a whole run, and what has come back: one account for every tag. */
module StreamLedger {
  import opened Sums
  import opened Rpc
  import opened StreamCall
  import opened StreamTheorems

  // ---- What a run tells of the call ----------------------------------------------------------------

  function StartsIn(run: seq<Action>): nat
  {
    if run == [] then 0 else Bit(run[0] == Start) + StartsIn(run[1..])
  }

  /** The call was started, and its start event was ok. */
  function StartedIn(run: seq<Action>): bool
  {
    run != [] && ((run[0].Event? && run[0].tag == StartTag && run[0].ok) || StartedIn(run[1..]))
  }

  function DestroyedIn(run: seq<Action>): bool
  {
    run != [] && (run[0] == Destroy || DestroyedIn(run[1..]))
  }

  /** What `finish` has returned, after an action. */
  function ResultsAfter(before: seq<Status>, a: Action): seq<Status>
  {
    if a.Event? && a.tag == FinishEnd then before + [FinishResult(a.ok, a.server)] else before
  }

  function ResultsIn(before: seq<Status>, run: seq<Action>): seq<Status>
    decreases |run|
  {
    if run == [] then before else ResultsIn(ResultsAfter(before, run[0]), run[1..])
  }

  /** What the awaiter of `finish` holds: cleared when it starts, spoilt by a half-close that failed. */
  function StatusAfter(before: Status, a: Action): Status
  {
    match a
    case Finish => OK
    case Event(FinishHalf, ok, _) => if ok then before else UNKNOWN
    case Event(FinishEnd, ok, server) => FinishResult(ok, server)
    case _ => before
  }

  function StatusIn(before: Status, run: seq<Action>): Status
    decreases |run|
  {
    if run == [] then before else StatusIn(StatusAfter(before, run[0]), run[1..])
  }

  /** The events that put the flag down. */
  predicate LowersFlag(a: Action)
  {
    a.Event? && (a.tag == WriteLastTag || a.tag == WritesDoneTag)
  }

  /** What the next call `d` tells of the action. */
  predicate Tells(c: Call, a: Action, d: Call)
  {
    && (d.started <==> c.started || a == Start)
    && d.startOk == (if a.Event? && a.tag == StartTag then a.ok else c.startOk)
    && (d.owned <==> c.owned && a != Destroy)
    && d.results == ResultsAfter(c.results, a) && d.status == StatusAfter(c.status, a)
    && ((a.Event? && a.tag == StartTag) || d.needWritesDone == (c.needWritesDone && !LowersFlag(a)))
  }

  lemma CallTells(c: Call, a: Action)
    requires Callable(c, a) && !a.Event? && !a.Finish? && !a.Destroy?
    ensures Tells(c, a, Step(c, a))
  {
  }

  lemma FinishTells(c: Call)
    requires Callable(c, Finish)
    ensures Tells(c, Finish, Step(c, Finish))
  {
    var d := Step(c, Finish);
    assert d.started == c.started && d.startOk == c.startOk && d.results == c.results;
    assert d.needWritesDone == c.needWritesDone && d.owned == c.owned && d.status == OK;
  }

  lemma DestroyTells(c: Call)
    requires Callable(c, Destroy)
    ensures Tells(c, Destroy, Step(c, Destroy))
  {
    var d := Step(c, Destroy);
    assert d.started == c.started && d.startOk == c.startOk && d.results == c.results;
    assert d.needWritesDone == c.needWritesDone;
  }

  lemma StartEventTells(c: Call, ok: bool, server: Status)
    requires StartTag in c.tags && c.freed == 0
    ensures Tells(c, Event(StartTag, ok, server), Step(c, Event(StartTag, ok, server)))
  {
    var d := Step(c, Event(StartTag, ok, server));
    assert d.started == c.started && d.owned == c.owned && d.startOk == ok;
    assert d.results == c.results;
  }

  lemma ReadEventTells(c: Call, ok: bool, server: Status)
    requires ReadTag in c.tags && c.freed == 0
    ensures Tells(c, Event(ReadTag, ok, server), Step(c, Event(ReadTag, ok, server)))
  {
    var d := Step(c, Event(ReadTag, ok, server));
    assert d.needWritesDone == c.needWritesDone;
    assert d.started == c.started && d.owned == c.owned && d.startOk == c.startOk;
    assert d.results == c.results;
  }

  lemma WriteEventTells(c: Call, ok: bool, server: Status)
    requires WriteTag in c.tags && c.freed == 0
    ensures Tells(c, Event(WriteTag, ok, server), Step(c, Event(WriteTag, ok, server)))
  {
    var d := Step(c, Event(WriteTag, ok, server));
    assert d.needWritesDone == c.needWritesDone;
    assert d.started == c.started && d.owned == c.owned && d.startOk == c.startOk;
    assert d.results == c.results;
  }

  lemma WriteLastEventTells(c: Call, ok: bool, server: Status)
    requires WriteLastTag in c.tags && c.freed == 0
    ensures Tells(c, Event(WriteLastTag, ok, server), Step(c, Event(WriteLastTag, ok, server)))
  {
    var d := Step(c, Event(WriteLastTag, ok, server));
    assert !d.needWritesDone;
    assert d.started == c.started && d.owned == c.owned && d.startOk == c.startOk;
    assert d.results == c.results;
  }

  lemma WritesDoneEventTells(c: Call, ok: bool, server: Status)
    requires WritesDoneTag in c.tags && c.freed == 0
    ensures Tells(c, Event(WritesDoneTag, ok, server), Step(c, Event(WritesDoneTag, ok, server)))
  {
    var d := Step(c, Event(WritesDoneTag, ok, server));
    assert !d.needWritesDone;
    assert d.started == c.started && d.owned == c.owned && d.startOk == c.startOk;
    assert d.results == c.results;
  }

  lemma FinishHalfTells(c: Call, ok: bool, server: Status)
    requires FinishHalf in c.tags && c.freed == 0
    ensures Tells(c, Event(FinishHalf, ok, server), Step(c, Event(FinishHalf, ok, server)))
  {
    var d := Step(c, Event(FinishHalf, ok, server));
    assert d.needWritesDone == c.needWritesDone;
    assert d.started == c.started && d.owned == c.owned && d.startOk == c.startOk;
    assert d.results == c.results;
  }

  lemma FinishEndTells(c: Call, ok: bool, server: Status)
    requires FinishEnd in c.tags && c.freed == 0
    ensures Tells(c, Event(FinishEnd, ok, server), Step(c, Event(FinishEnd, ok, server)))
  {
    var d := Step(c, Event(FinishEnd, ok, server));
    assert d.needWritesDone == c.needWritesDone;
    assert d.started == c.started && d.owned == c.owned && d.startOk == c.startOk;
    assert d.results == c.results + [FinishResult(ok, server)];
  }

  lemma ExitHalfTells(c: Call, ok: bool, server: Status)
    requires ExitHalf in c.tags && c.freed == 0
    ensures Tells(c, Event(ExitHalf, ok, server), Step(c, Event(ExitHalf, ok, server)))
  {
    var d := Step(c, Event(ExitHalf, ok, server));
    assert d.needWritesDone == c.needWritesDone;
    assert d.started == c.started && d.owned == c.owned && d.startOk == c.startOk;
    assert d.results == c.results;
  }

  lemma ExitEndTells(c: Call, ok: bool, server: Status)
    requires ExitEnd in c.tags && c.freed == 0
    ensures Tells(c, Event(ExitEnd, ok, server), Step(c, Event(ExitEnd, ok, server)))
  {
    var d := Step(c, Event(ExitEnd, ok, server));
    assert d.needWritesDone == c.needWritesDone;
    assert d.started == c.started && d.owned == c.owned && d.startOk == c.startOk;
    assert d.results == c.results;
  }

  /** The tags of `start`, of reading and of writing. */
  predicate Operation(tag: Tag)
  {
    tag.StartTag? || tag.ReadTag? || tag.WriteTag? || tag.WriteLastTag? || tag.WritesDoneTag?
  }

  lemma EventTells(c: Call, a: Action)
    requires Callable(c, a) && a.Event? && c.freed == 0
    ensures Tells(c, a, Step(c, a))
  {
    match a.tag
    case StartTag => StartEventTells(c, a.ok, a.server);
    case ReadTag => ReadEventTells(c, a.ok, a.server);
    case WriteTag => WriteEventTells(c, a.ok, a.server);
    case WriteLastTag => WriteLastEventTells(c, a.ok, a.server);
    case WritesDoneTag => WritesDoneEventTells(c, a.ok, a.server);
    case FinishHalf => FinishHalfTells(c, a.ok, a.server);
    case FinishEnd => FinishEndTells(c, a.ok, a.server);
    case ExitHalf => ExitHalfTells(c, a.ok, a.server);
    case ExitEnd => ExitEndTells(c, a.ok, a.server);
  }

  /** There is no second start event. */
  lemma StartsOnce(c: Call)
    requires Inv(c) && StartTag in c.tags
    ensures !c.startOk
  {
    StageOfTag(c, StartTag);
  }

  lemma StepTells(c: Call, a: Action)
    requires Inv(c) && Enabled(c, a)
    ensures Tells(c, a, Step(c, a)) && (a.Event? && a.tag == StartTag ==> !c.startOk)
  {
    if a.Event? {
      StageOfTag(c, a.tag);
      EventTells(c, a);
    } else if a == Finish {
      FinishTells(c);
    } else if a == Destroy {
      DestroyTells(c);
    } else {
      CallTells(c, a);
    }
  }

  lemma {:induction false} RunStarted(c: Call, run: seq<Action>, d: Call)
    requires Inv(c) && Steps(c, run, d)
    ensures d.started <==> c.started || StartsIn(run) > 0
    ensures d.owned <==> c.owned && !DestroyedIn(run)
    decreases |run|
  {
    if run != [] {
      StepInv(c, run[0]);
      StepTells(c, run[0]);
      RunStarted(Step(c, run[0]), run[1..], d);
    }
  }

  lemma {:induction false} RunStartOk(c: Call, run: seq<Action>, d: Call)
    requires Inv(c) && Steps(c, run, d)
    ensures d.startOk <==> c.startOk || StartedIn(run)
    decreases |run|
  {
    if run != [] {
      StepInv(c, run[0]);
      StepTells(c, run[0]);
      RunStartOk(Step(c, run[0]), run[1..], d);
    }
  }

  lemma {:induction false} RunResults(c: Call, run: seq<Action>, d: Call)
    requires Inv(c) && Steps(c, run, d)
    ensures d.results == ResultsIn(c.results, run)
    decreases |run|
  {
    if run != [] {
      StepInv(c, run[0]);
      StepTells(c, run[0]);
      RunResults(Step(c, run[0]), run[1..], d);
    }
  }

  lemma {:induction false} RunStatus(c: Call, run: seq<Action>, d: Call)
    requires Inv(c) && Steps(c, run, d)
    ensures d.status == StatusIn(c.status, run)
    decreases |run|
  {
    if run != [] {
      StepInv(c, run[0]);
      StepTells(c, run[0]);
      RunStatus(Step(c, run[0]), run[1..], d);
    }
  }

  /** Whether the call was started, with what result, is still owned, and what `finish` returned. */
  lemma CallTold(kind: Kind, run: seq<Action>, c: Call)
    requires Steps(NewCall(kind), run, c)
    ensures c.started <==> StartsIn(run) > 0
    ensures c.startOk <==> StartedIn(run)
    ensures c.owned <==> !DestroyedIn(run)
    ensures c.results == ResultsIn([], run) && c.status == StatusIn(OK, run)
  {
    RunStarted(NewCall(kind), run, c);
    RunStartOk(NewCall(kind), run, c);
    RunResults(NewCall(kind), run, c);
    RunStatus(NewCall(kind), run, c);
  }

  // ---- The ledger ----------------------------------------------------------------------------------

  /** The client writes, and nothing has half-closed the stream yet. */
  predicate Unclosed(c: Call)
  {
    (c.kind.ClientStreaming? || c.kind.Bidi?) && c.halfCloses == 0
  }

  /** What an action asks of gRPC: the tag it puts on the completion queue. */
  function Asks(c: Call, a: Action): Option<Tag>
  {
    match a
    case Start => Some(StartTag)
    case Read => if HasCall(c) then Some(ReadTag) else None
    case Write => if HasCall(c) then Some(WriteTag) else None
    case WriteLast => if HasCall(c) then Some(WriteLastTag) else None
    case WritesDone => if HasCall(c) then Some(WritesDoneTag) else None
    case Finish => if !HasCall(c) then None else if Unclosed(c) then Some(FinishHalf) else Some(FinishEnd)
    case Destroy => if !HasCall(c) then None else if Unclosed(c) then Some(ExitHalf) else Some(ExitEnd)
    case Event(FinishHalf, _, _) => Some(FinishEnd)
    case Event(ExitHalf, _, _) => Some(ExitEnd)
    case Event(_, _, _) => None
  }

  /** The operations that half-close the stream. */
  predicate Closes(tag: Tag)
  {
    tag == WriteLastTag || tag == WritesDoneTag || tag == FinishHalf || tag == ExitHalf
  }

  /** The operations that ask for the status. */
  predicate Finishes(tag: Tag)
  {
    tag == FinishEnd || tag == ExitEnd
  }

  /** How often a run asks for a tag. */
  ghost function TimesAsked(c: Call, run: seq<Action>, tag: Tag): nat
    decreases |run|
  {
    if run == [] || !Enabled(c, run[0]) then 0
    else Bit(Asks(c, run[0]) == Some(tag)) + TimesAsked(Step(c, run[0]), run[1..], tag)
  }

  /** How many events of a tag a run has. */
  function Delivered(run: seq<Action>, tag: Tag): nat
  {
    if run == [] then 0 else Bit(Takes(run[0]) == Some(tag)) + Delivered(run[1..], tag)
  }

  /** A call that is about to be finished or destroyed has its flag up exactly if nothing has half-closed it. */
  lemma FlagMeansUnclosed(c: Call)
    requires Inv(c) && c.owned && c.tags == multiset{} && HasCall(c)
    ensures ClientStreams(c.kind) && c.needWritesDone <==> Unclosed(c)
  {
  }

  /** The tag an action takes off the completion queue. */
  function Takes(a: Action): Option<Tag>
  {
    if a.Event? then Some(a.tag) else None
  }

  function AsMultiset(tag: Option<Tag>): multiset<Tag>
  {
    if tag.Some? then multiset{tag.value} else multiset{}
  }

  /** The next call `d` has what the action asks for, and no more. */
  predicate Entered(c: Call, a: Action, d: Call)
  {
    var asked := Asks(c, a);
    && d.tags + AsMultiset(Takes(a)) == c.tags + AsMultiset(asked)
    && d.halfCloses == c.halfCloses + Bit(asked.Some? && Closes(asked.value))
    && d.finishes == c.finishes + Bit(asked.Some? && Finishes(asked.value))
  }

  lemma CallEntered(c: Call, a: Action)
    requires Callable(c, a) && (a.Start? || a.Read? || a.Write?) && (c.stream <==> HasCall(c))
    ensures Entered(c, a, Step(c, a))
  {
    var d, asked := Step(c, a), Asks(c, a);
    assert d.tags == if asked.None? then c.tags else c.tags + multiset{asked.value};
    assert d.halfCloses == c.halfCloses + Bit(asked.Some? && Closes(asked.value));
    assert d.finishes == c.finishes && (asked.Some? ==> !Finishes(asked.value));
  }

  lemma CloseEntered(c: Call, a: Action)
    requires Callable(c, a) && (a.WriteLast? || a.WritesDone?) && (c.stream <==> HasCall(c))
    ensures Entered(c, a, Step(c, a))
  {
    var d, asked := Step(c, a), Asks(c, a);
    assert d.tags == if asked.None? then c.tags else c.tags + multiset{asked.value};
    assert d.halfCloses == c.halfCloses + Bit(asked.Some?);
    assert d.finishes == c.finishes && (asked.Some? ==> !Finishes(asked.value));
  }

  lemma FinishEntered(c: Call)
    requires Callable(c, Finish) && (c.stream <==> HasCall(c))
    requires HasCall(c) ==> (ClientStreams(c.kind) && c.needWritesDone <==> Unclosed(c))
    ensures Entered(c, Finish, Step(c, Finish))
  {
    var d, asked := Step(c, Finish), Asks(c, Finish);
    assert d.tags == if asked.None? then c.tags else c.tags + multiset{asked.value};
    assert d.halfCloses == c.halfCloses + Bit(asked.Some? && Closes(asked.value));
    assert d.finishes == c.finishes + Bit(asked.Some? && Finishes(asked.value));
  }

  lemma DestroyEntered(c: Call)
    requires Callable(c, Destroy) && (c.stream <==> HasCall(c))
    requires HasCall(c) ==> (ClientStreams(c.kind) && c.needWritesDone <==> Unclosed(c))
    ensures Entered(c, Destroy, Step(c, Destroy))
  {
    var d, asked := Step(c, Destroy), Asks(c, Destroy);
    assert d.tags == if asked.None? then c.tags else c.tags + multiset{asked.value};
    assert d.halfCloses == c.halfCloses + Bit(asked.Some? && Closes(asked.value));
    assert d.finishes == c.finishes + Bit(asked.Some? && Finishes(asked.value));
  }

  lemma OperationEntered(c: Call, a: Action)
    requires Callable(c, a) && a.Event? && c.freed == 0 && Operation(a.tag)
    ensures Entered(c, a, Step(c, a))
  {
    var d, asked := Step(c, a), Asks(c, a);
    assert asked.None? && d.tags == c.tags - multiset{a.tag};
    assert d.halfCloses == c.halfCloses && d.finishes == c.finishes;
  }

  lemma FinishHalfEntered(c: Call, ok: bool, server: Status)
    requires FinishHalf in c.tags && c.freed == 0 && c.stream
    ensures Entered(c, Event(FinishHalf, ok, server), Step(c, Event(FinishHalf, ok, server)))
  {
    var d := Step(c, Event(FinishHalf, ok, server));
    assert d.tags == c.tags - multiset{FinishHalf} + multiset{FinishEnd};
    assert d.halfCloses == c.halfCloses && d.finishes == c.finishes + 1;
  }

  lemma ExitHalfEntered(c: Call, ok: bool, server: Status)
    requires ExitHalf in c.tags && c.freed == 0 && c.stream
    ensures Entered(c, Event(ExitHalf, ok, server), Step(c, Event(ExitHalf, ok, server)))
  {
    var d := Step(c, Event(ExitHalf, ok, server));
    assert d.tags == c.tags - multiset{ExitHalf} + multiset{ExitEnd};
    assert d.halfCloses == c.halfCloses && d.finishes == c.finishes + 1;
  }

  lemma EndingEntered(c: Call, a: Action)
    requires Callable(c, a) && a.Event? && c.freed == 0 && (a.tag == FinishEnd || a.tag == ExitEnd)
    ensures Entered(c, a, Step(c, a))
  {
  }

  /** While a tag is outstanding there is a stream. */
  lemma TagMeansStream(c: Call, tag: Tag)
    requires Inv(c) && tag in c.tags
    ensures c.stream && c.freed == 0
  {
    StageOfTag(c, tag);
  }

  lemma EventEntered(c: Call, a: Action)
    requires Inv(c) && Enabled(c, a) && a.Event?
    ensures Entered(c, a, Step(c, a))
  {
    TagMeansStream(c, a.tag);
    if Operation(a.tag) {
      OperationEntered(c, a);
    } else if a.tag == FinishHalf {
      FinishHalfEntered(c, a.ok, a.server);
    } else if a.tag == ExitHalf {
      ExitHalfEntered(c, a.ok, a.server);
    } else {
      EndingEntered(c, a);
    }
  }

  lemma EndEntered(c: Call, a: Action)
    requires Inv(c) && Enabled(c, a) && (a == Finish || a == Destroy)
    ensures Entered(c, a, Step(c, a))
  {
    StreamMeansCall(c);
    if HasCall(c) {
      FlagMeansUnclosed(c);
    }
    if a == Finish {
      FinishEntered(c);
    } else {
      DestroyEntered(c);
    }
  }

  lemma StepEntered(c: Call, a: Action)
    requires Inv(c) && Enabled(c, a)
    ensures Entered(c, a, Step(c, a))
  {
    if a.Event? {
      EventEntered(c, a);
    } else if a == Finish || a == Destroy {
      EndEntered(c, a);
    } else {
      StreamMeansCall(c);
      if a == WriteLast || a == WritesDone {
        CloseEntered(c, a);
      } else {
        CallEntered(c, a);
      }
    }
  }

  lemma StepLedger(c: Call, a: Action, tag: Tag)
    requires Inv(c) && Enabled(c, a)
    ensures Step(c, a).tags[tag] + Bit(Takes(a) == Some(tag)) == c.tags[tag] + Bit(Asks(c, a) == Some(tag))
  {
    StepEntered(c, a);
    assert (Step(c, a).tags + AsMultiset(Takes(a)))[tag] == (c.tags + AsMultiset(Asks(c, a)))[tag];
  }

  lemma {:induction false} RunLedger(c: Call, run: seq<Action>, d: Call, tag: Tag)
    requires Inv(c) && Steps(c, run, d)
    ensures d.tags[tag] + Delivered(run, tag) == c.tags[tag] + TimesAsked(c, run, tag)
    decreases |run|
  {
    if run != [] {
      StepInv(c, run[0]);
      StepEntered(c, run[0]);
      StepLedger(c, run[0], tag);
      RunLedger(Step(c, run[0]), run[1..], d, tag);
    }
  }

  /**
   The account of every tag, in every run: as many events as were asked for, less those outstanding.
   Each `read` and each kind of write, made with a call, asks for its own; `finish` and the destructor
   for the half-close if the client writes and nothing has half-closed, and for the status otherwise,
   or once that half-close is done.
   */
  lemma TagLedger(kind: Kind, run: seq<Action>, c: Call, tag: Tag)
    requires Steps(NewCall(kind), run, c)
    ensures TimesAsked(NewCall(kind), run, tag) == Delivered(run, tag) + c.tags[tag]
  {
    RunLedger(NewCall(kind), run, c, tag);
  }

  lemma WhichCloses(asked: Option<Tag>)
    ensures Bit(asked.Some? && Closes(asked.value)) == Bit(asked == Some(WriteLastTag))
      + Bit(asked == Some(WritesDoneTag)) + Bit(asked == Some(FinishHalf)) + Bit(asked == Some(ExitHalf))
    ensures Bit(asked.Some? && Finishes(asked.value)) == Bit(asked == Some(FinishEnd)) + Bit(asked == Some(ExitEnd))
  {
  }

  lemma {:induction false} RunHalfCloses(c: Call, run: seq<Action>, d: Call)
    requires Inv(c) && Steps(c, run, d)
    ensures d.halfCloses == c.halfCloses + TimesAsked(c, run, WriteLastTag) + TimesAsked(c, run, WritesDoneTag)
      + TimesAsked(c, run, FinishHalf) + TimesAsked(c, run, ExitHalf)
    decreases |run|
  {
    if run != [] {
      StepInv(c, run[0]);
      StepEntered(c, run[0]);
      WhichCloses(Asks(c, run[0]));
      RunHalfCloses(Step(c, run[0]), run[1..], d);
    }
  }

  lemma {:induction false} RunFinishes(c: Call, run: seq<Action>, d: Call)
    requires Inv(c) && Steps(c, run, d)
    ensures d.finishes == c.finishes + TimesAsked(c, run, FinishEnd) + TimesAsked(c, run, ExitEnd)
    decreases |run|
  {
    if run != [] {
      StepInv(c, run[0]);
      StepEntered(c, run[0]);
      WhichCloses(Asks(c, run[0]));
      RunFinishes(Step(c, run[0]), run[1..], d);
    }
  }

  /** What gRPC was asked for is exactly what the half-closing and the finishing operations asked for. */
  lemma RequestLedger(kind: Kind, run: seq<Action>, c: Call)
    requires Steps(NewCall(kind), run, c)
    ensures var start := NewCall(kind);
      && c.halfCloses == TimesAsked(start, run, WriteLastTag) + TimesAsked(start, run, WritesDoneTag)
        + TimesAsked(start, run, FinishHalf) + TimesAsked(start, run, ExitHalf)
      && c.finishes == TimesAsked(start, run, FinishEnd) + TimesAsked(start, run, ExitEnd)
  {
    RunHalfCloses(NewCall(kind), run, c);
    RunFinishes(NewCall(kind), run, c);
  }

  // ---- After write_last or writes_done -------------------------------------------------------------

  /** The stream is half-closed for good, and the flag stays up no longer than the operation `tag`. */
  predicate ClosedBy(c: Call, tag: Tag)
  {
    c.startOk && c.halfCloses == 1 && (c.needWritesDone ==> tag in c.tags)
  }

  /** Once half-closed, nothing that is allowed asks for it again. */
  lemma NoMoreCloses(c: Call, a: Action)
    requires Enabled(c, a) && c.halfCloses == 1
    ensures Asks(c, a).Some? ==> !Closes(Asks(c, a).value)
  {
  }

  lemma StepClosedBy(c: Call, a: Action, tag: Tag)
    requires Inv(c) && Enabled(c, a) && ClosedBy(c, tag) && (tag == WriteLastTag || tag == WritesDoneTag)
    ensures ClosedBy(Step(c, a), tag)
  {
    if a.Event? {
      StageOfTag(c, a.tag);
    }
    StepTells(c, a);
    StepEntered(c, a);
    NoMoreCloses(c, a);
    StepLedger(c, a, tag);
  }

  lemma {:induction false} RunClosedBy(c: Call, run: seq<Action>, d: Call, tag: Tag)
    requires Inv(c) && Steps(c, run, d) && ClosedBy(c, tag) && (tag == WriteLastTag || tag == WritesDoneTag)
    ensures ClosedBy(d, tag)
    decreases |run|
  {
    if run != [] {
      StepInv(c, run[0]);
      StepClosedBy(c, run[0], tag);
      RunClosedBy(Step(c, run[0]), run[1..], d, tag);
    }
  }

  /**
   `write_last` and `writes_done`, called with a call, half-close the stream once and for all; and once
   their event is there, whatever it reported, neither `finish` nor the destructor half-closes again:
   each takes one event.
   */
  lemma HalfCloseOnce(kind: Kind, before: seq<Action>, c: Call, a: Action, after: seq<Action>, d: Call)
    requires Steps(NewCall(kind), before, c) && Enabled(c, a) && (a == WriteLast || a == WritesDone) && HasCall(c)
    requires Steps(Step(c, a), after, d)
    ensures kind.ClientStreaming? || kind.Bidi?
    ensures c.halfCloses == 0 && d.halfCloses == 1
    ensures var tag := if a == WriteLast then WriteLastTag else WritesDoneTag;
      && tag in Step(c, a).tags
      && (tag !in d.tags && d.stream ==> TearDownEvents(d) == FinishEvents(d) == 1)
  {
    var tag := if a == WriteLast then WriteLastTag else WritesDoneTag;
    Reached(kind, before, c);
    StreamMeansCall(c);
    StepInv(c, a);
    RunClosedBy(Step(c, a), after, d, tag);
  }
}
