/** Whole sessions of a stream: what a well-behaved caller and a willing server can always do. */
module StreamSessions {
  import opened Rpc
  import opened StreamCall
  import opened StreamTheorems

  /** The call runs, with nothing outstanding and nothing half-closed. */
  predicate Running(c: Call)
  {
    Active(c) && c.tags == multiset{} && c.halfCloses == 0 && !c.fault && c.status == OK
  }

  function Done(tag: Tag): Action
  {
    Event(tag, true, OK)
  }

  /** One message each way, where the kind has that, and then the rest. */
  function Exchange(kind: Kind, rest: seq<Action>): seq<Action>
  {
    match kind
    case ServerStreaming => [Read, Done(ReadTag)] + rest
    case ClientStreaming => [Write, Done(WriteTag)] + rest
    case Bidi => [Write, Done(WriteTag)] + ([Read, Done(ReadTag)] + rest)
  }

  function Exchanges(kind: Kind, n: nat, rest: seq<Action>): seq<Action>
  {
    if n == 0 then rest else Exchange(kind, Exchanges(kind, n - 1, rest))
  }

  /** A read, or a write, and its event leave a running call as it was. */
  lemma Returns(c: Call, a: Action, tag: Tag, rest: seq<Action>, d: Call)
    requires Running(c) && Steps(c, rest, d)
    requires (a == Read && tag == ReadTag && !c.kind.ClientStreaming?)
      || (a == Write && tag == WriteTag && !c.kind.ServerStreaming?)
    ensures Steps(c, [a, Done(tag)] + rest, d)
  {
    var m := Step(c, a);
    assert m.tags == multiset{tag};
    assert m.tags - multiset{tag} == multiset{};
    assert Step(m, Done(tag)) == c;
    StepsCons(m, Done(tag), rest, d);
    StepsCons(c, a, [Done(tag)] + rest, d);
    assert [a] + ([Done(tag)] + rest) == [a, Done(tag)] + rest;
  }

  lemma ExchangeReturns(c: Call, rest: seq<Action>, d: Call)
    requires Running(c) && Steps(c, rest, d)
    ensures Steps(c, Exchange(c.kind, rest), d)
  {
    match c.kind
    case ServerStreaming => Returns(c, Read, ReadTag, rest, d);
    case ClientStreaming => Returns(c, Write, WriteTag, rest, d);
    case Bidi =>
      Returns(c, Read, ReadTag, rest, d);
      Returns(c, Write, WriteTag, [Read, Done(ReadTag)] + rest, d);
  }

  /** What every exchange keeps, any number of exchanges keeps. */
  lemma {:induction false} Repeats(kind: Kind, n: nat, rest: seq<Action>, goes: seq<Action> -> bool)
    requires goes(rest) && forall more :: goes(more) ==> goes(Exchange(kind, more))
    ensures goes(Exchanges(kind, n, rest))
  {
    if n > 0 {
      Repeats(kind, n - 1, rest, goes);
    }
  }

  lemma ExchangesReturn(c: Call, n: nat, rest: seq<Action>, d: Call)
    requires Running(c) && Steps(c, rest, d)
    ensures Steps(c, Exchanges(c.kind, n, rest), d)
  {
    var goes := (more: seq<Action>) => Steps(c, more, d);
    forall more | goes(more) ensures goes(Exchange(c.kind, more)) {
      ExchangeReturns(c, more, d);
    }
    Repeats(c.kind, n, rest, goes);
  }

  /** How a caller ends a call. */
  datatype Ending = Finishing | LastWriteFirst | WritesDoneFirst | Destroying

  /** The steps of an ending, with the server's status; only the kinds that write can half-close first. */
  function End(kind: Kind, how: Ending, server: Status): seq<Action>
  {
    match how
    case Finishing =>
      (if kind.ServerStreaming? then [Finish] else [Finish, Done(FinishHalf)])
      + [Event(FinishEnd, true, server), Destroy]
    case LastWriteFirst => [WriteLast, Done(WriteLastTag), Finish, Event(FinishEnd, true, server), Destroy]
    case WritesDoneFirst => [WritesDone, Done(WritesDoneTag), Finish, Event(FinishEnd, true, server), Destroy]
    case Destroying =>
      (if kind.ServerStreaming? then [Destroy] else [Destroy, Done(ExitHalf)]) + [Done(ExitEnd)]
  }

  /** The state object is gone, the call was half-closed and finished once, and `finish` told the status. */
  predicate Settled(c: Call, how: Ending, server: Status)
  {
    && c.freed == 1 && !c.fault && c.tags == multiset{} && c.finishes == 1
    && c.halfCloses == (if c.kind.ServerStreaming? then 0 else 1)
    && c.results == (if how.Destroying? then [] else [server])
    && c.cancelled == how.Destroying?
  }

  /** `finish` of a call that is half-closed, if it has to be, and then the destructor. */
  lemma FinishAndDestroy(c: Call, how: Ending, server: Status) returns (d: Call)
    requires Active(c) && c.tags == multiset{} && !c.needWritesDone && !c.fault && !how.Destroying?
    requires c.halfCloses == if c.kind.ServerStreaming? then 0 else 1
    ensures Steps(c, [Finish, Event(FinishEnd, true, server), Destroy], d) && Settled(d, how, server)
    ensures d.kind == c.kind
  {
    var c1 := Step(c, Finish);
    assert c1.tags == multiset{FinishEnd};
    d := FinishEnds(c1, how, server);
    StepsCons(c, Finish, [Event(FinishEnd, true, server), Destroy], d);
    assert [Finish] + [Event(FinishEnd, true, server), Destroy] == [Finish, Event(FinishEnd, true, server), Destroy];
  }

  lemma FinishEnds(c: Call, how: Ending, server: Status) returns (d: Call)
    requires FinishingEnd(c) && !c.fault && !how.Destroying?
    ensures Steps(c, [Event(FinishEnd, true, server), Destroy], d) && Settled(d, how, server) && d.kind == c.kind
  {
    var a := Event(FinishEnd, true, server);
    var c1 := Step(c, a);
    assert c1.tags == multiset{};
    d := Step(c1, Destroy);
    assert Steps(d, [], d);
    StepsCons(c1, Destroy, [], d);
    StepsCons(c, a, [Destroy], d);
    assert [a] + [Destroy] == [a, Destroy] && [Destroy] + [] == [Destroy];
  }

  /** `finish` makes the half-close itself. */
  lemma FinishClosesFirst(c: Call, server: Status) returns (d: Call)
    requires Running(c) && !c.kind.ServerStreaming?
    ensures Steps(c, [Finish, Done(FinishHalf)] + [Event(FinishEnd, true, server), Destroy], d)
    ensures Settled(d, Finishing, server) && d.kind == c.kind
  {
    var c1 := Step(c, Finish);
    assert c1.tags == multiset{FinishHalf};
    var c2 := Step(c1, Done(FinishHalf));
    assert c2.tags == multiset{FinishEnd};
    var rest := [Event(FinishEnd, true, server), Destroy];
    d := FinishEnds(c2, Finishing, server);
    StepsCons(c1, Done(FinishHalf), rest, d);
    StepsCons(c, Finish, [Done(FinishHalf)] + rest, d);
    assert [Finish] + ([Done(FinishHalf)] + rest) == [Finish, Done(FinishHalf)] + rest;
  }

  lemma ByFinish(c: Call, server: Status) returns (d: Call)
    requires Running(c)
    ensures Steps(c, End(c.kind, Finishing, server), d) && Settled(d, Finishing, server) && d.kind == c.kind
  {
    if c.kind.ServerStreaming? {
      d := FinishAndDestroy(c, Finishing, server);
      assert [Finish] + [Event(FinishEnd, true, server), Destroy] == [Finish, Event(FinishEnd, true, server), Destroy];
    } else {
      d := FinishClosesFirst(c, server);
    }
  }

  /** The event of the half-close puts the flag down. */
  lemma HalfCloseDone(c: Call, tag: Tag) returns (d: Call)
    requires Active(c) && !c.fault && !c.kind.ServerStreaming? && c.halfCloses == 1
    requires c.tags == multiset{tag} && (tag == WriteLastTag || tag == WritesDoneTag)
    ensures Enabled(c, Done(tag)) && d == Step(c, Done(tag)) && Active(d)
    ensures d.tags == multiset{} && !d.needWritesDone && !d.fault && d.halfCloses == 1 && d.kind == c.kind
  {
    d := Step(c, Done(tag));
    assert d.tags == multiset{};
  }

  lemma ByHalfClose(c: Call, a: Action, tag: Tag, how: Ending, server: Status) returns (d: Call)
    requires Running(c) && !c.kind.ServerStreaming? && !how.Destroying?
    requires (a == WriteLast && tag == WriteLastTag) || (a == WritesDone && tag == WritesDoneTag)
    ensures Steps(c, [a, Done(tag), Finish, Event(FinishEnd, true, server), Destroy], d)
    ensures Settled(d, how, server) && d.kind == c.kind
  {
    var c1 := Step(c, a);
    assert c1.tags == multiset{tag};
    var c2 := HalfCloseDone(c1, tag);
    var rest := [Finish, Event(FinishEnd, true, server), Destroy];
    d := FinishAndDestroy(c2, how, server);
    StepsCons(c1, Done(tag), rest, d);
    StepsCons(c, a, [Done(tag)] + rest, d);
    assert [a] + ([Done(tag)] + rest) == [a, Done(tag), Finish, Event(FinishEnd, true, server), Destroy];
  }

  lemma ByDestructor(c: Call, server: Status) returns (d: Call)
    requires Running(c)
    ensures Steps(c, End(c.kind, Destroying, server), d) && Settled(d, Destroying, server) && d.kind == c.kind
  {
    var c1 := Step(c, Destroy);
    if c.kind.ServerStreaming? {
      assert c1.tags == multiset{ExitEnd};
      d := ExitEnds(c1, server);
      StepsCons(c, Destroy, [Done(ExitEnd)], d);
    } else {
      assert c1.tags == multiset{ExitHalf};
      var c2 := Step(c1, Done(ExitHalf));
      assert c2.tags == multiset{ExitEnd};
      d := ExitEnds(c2, server);
      StepsCons(c1, Done(ExitHalf), [Done(ExitEnd)], d);
      StepsCons(c, Destroy, [Done(ExitHalf)] + [Done(ExitEnd)], d);
      assert [Destroy] + ([Done(ExitHalf)] + [Done(ExitEnd)]) == [Destroy, Done(ExitHalf)] + [Done(ExitEnd)];
    }
  }

  lemma ExitEnds(c: Call, server: Status) returns (d: Call)
    requires ExitingEnd(c) && !c.fault
    ensures Steps(c, [Done(ExitEnd)], d) && Settled(d, Destroying, server) && d.kind == c.kind
  {
    d := Step(c, Done(ExitEnd));
    assert d.tags == multiset{};
    assert Steps(d, [], d);
    StepsCons(c, Done(ExitEnd), [], d);
    assert [Done(ExitEnd)] + [] == [Done(ExitEnd)];
  }

  lemma CanEnd(c: Call, how: Ending, server: Status) returns (d: Call)
    requires Running(c) && (c.kind.ServerStreaming? ==> !how.LastWriteFirst? && !how.WritesDoneFirst?)
    ensures Steps(c, End(c.kind, how, server), d) && Settled(d, how, server) && d.kind == c.kind
  {
    match how
    case Finishing => d := ByFinish(c, server);
    case LastWriteFirst => d := ByHalfClose(c, WriteLast, WriteLastTag, how, server);
    case WritesDoneFirst => d := ByHalfClose(c, WritesDone, WritesDoneTag, how, server);
    case Destroying => d := ByDestructor(c, server);
  }

  /** A start that succeeds. */
  lemma Opened(kind: Kind) returns (c: Call)
    ensures Running(c) && c.kind == kind
    ensures forall rest, d ::
      Steps(c, rest, d) ==> Steps(NewCall(kind), [Start] + ([Done(StartTag)] + rest), d)
  {
    var c1 := Step(NewCall(kind), Start);
    assert c1.tags == multiset{StartTag};
    c := Step(c1, Done(StartTag));
    assert c.tags == multiset{};
    forall rest: seq<Action>, d | Steps(c, rest, d)
      ensures Steps(NewCall(kind), [Start] + ([Done(StartTag)] + rest), d)
    {
      StepsCons(c1, Done(StartTag), rest, d);
      StepsCons(NewCall(kind), Start, [Done(StartTag)] + rest, d);
    }
  }

  /**
   Every session goes through: for each kind, with any number of messages exchanged and each way to end
   the call, the caller is never refused an operation, `finish` returns the server's status, and the
   state object is freed with the call half-closed and finished once.
   */
  lemma SessionGoesThrough(kind: Kind, n: nat, how: Ending, server: Status)
    requires kind.ServerStreaming? ==> !how.LastWriteFirst? && !how.WritesDoneFirst?
    ensures exists c: Call ::
      && Steps(NewCall(kind), [Start] + ([Done(StartTag)] + Exchanges(kind, n, End(kind, how, server))), c)
      && Settled(c, how, server)
  {
    var c := Opened(kind);
    var end := End(kind, how, server);
    var d := CanEnd(c, how, server);
    ExchangesReturn(c, n, end, d);
  }
}
