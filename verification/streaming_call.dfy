/** The client call object with its state and awaiters, updating their fields in place. */
module StreamingCall {
  import opened Rpc
  import opened StreamCall
  import opened StreamTheorems

  class CallState {
    const kind: Kind

    // The members of the state object and of the awaiter of `finish`.
    var context: bool
    var stream: bool
    var needWritesDone: bool
    var finishStatus: Status

    // The life of the two objects, and what the caller's coroutine was resumed with by `finish`.
    var owned: bool
    var freed: nat
    var results: seq<Status>

    // A null stream was dereferenced.
    var fault: bool

    // gRPC's side of the call.
    var tags: multiset<Tag>
    var halfCloses: nat
    var finishes: nat
    var cancelled: bool
    var started: bool
    var startOk: bool

    function Snapshot(): Call
      reads this
    {
      Call(kind, owned, freed, context, stream, needWritesDone, cancelled, started, startOk, tags,
           halfCloses, finishes, finishStatus, results, fault)
    }

    ghost predicate Valid()
      reads this
    {
      Inv(Snapshot())
    }

    constructor (kind: Kind)
      ensures Snapshot() == NewCall(kind) && Valid()
    {
      this.kind := kind;
      context, stream, needWritesDone, finishStatus := true, false, false, OK;
      owned, freed, results, fault := true, 0, [], false;
      tags, halfCloses, finishes := multiset{}, 0, 0;
      cancelled, started, startOk := false, false, false;
    }

    // ---- gRPC ------------------------------------------------------------------------------------

    /** `stream->Read(tag)`: dereferences the stream. */
    method StreamRead(tag: Tag)
      modifies `tags, `fault
      ensures Snapshot() == Transfer(old(Snapshot()), tag)
    {
      if stream {
        tags := tags + multiset{tag};
      } else {
        fault := true;
      }
    }

    /** `stream->WritesDone(tag)`, or a write marked as the last: dereferences the stream. */
    method StreamHalfClose(tag: Tag)
      modifies `tags, `halfCloses, `fault
      ensures Snapshot() == HalfClose(old(Snapshot()), tag)
    {
      if stream {
        tags, halfCloses := tags + multiset{tag}, halfCloses + 1;
      } else {
        fault := true;
      }
    }

    /** `stream->Finish(status, tag)`: dereferences the stream. */
    method StreamFinish(tag: Tag)
      modifies `tags, `finishes, `fault
      ensures Snapshot() == AskFinish(old(Snapshot()), tag)
    {
      if stream {
        tags, finishes := tags + multiset{tag}, finishes + 1;
      } else {
        fault := true;
      }
    }

    /** The event of an outstanding tag is delivered. */
    method TakeTag(tag: Tag)
      modifies `tags
      ensures Snapshot() == old(Snapshot()).(tags := old(tags) - multiset{tag})
    {
      tags := tags - multiset{tag};
    }

    // ---- The awaiters ----------------------------------------------------------------------------

    /** `await_suspend` of `start`: issues the call and stores its stream. */
    method StartSuspend()
      requires Valid() && Enabled(Snapshot(), Start)
      modifies this
      ensures Valid() && Snapshot() == Step(old(Snapshot()), Start)
      ensures stream && tags == old(tags) + multiset{StartTag}
    {
      StepInv(Snapshot(), Start);
      started := true;
      stream := true;
      tags := tags + multiset{StartTag};
    }

    /** `handle_event` of `start`. */
    method StartEvent(ok: bool) returns (result: bool)
      requires Valid() && !fault && StartTag in tags
      modifies this
      ensures Valid() && Snapshot() == Step(old(Snapshot()), Event(StartTag, ok, OK)) && result == ok
      ensures stream == startOk == ok && needWritesDone == (ok && !kind.ServerStreaming?)
      ensures tags == old(tags) - multiset{StartTag}
    {
      StageOfTag(Snapshot(), StartTag);
      StepInv(Snapshot(), Event(StartTag, ok, OK));
      tags := tags - multiset{StartTag};
      startOk, result := ok, ok;
      if ClientStreams(kind) {
        needWritesDone := ok;
      }
      if !ok {
        stream := false;
      }
    }

    method ReadSuspend()
      requires Valid() && Enabled(Snapshot(), Read)
      modifies this
      ensures Valid() && Snapshot() == Step(old(Snapshot()), Read)
      ensures fault == !HasCall(old(Snapshot()))
      ensures tags == if fault then old(tags) else old(tags) + multiset{ReadTag}
    {
      StepInv(Snapshot(), Read);
      StreamMeansCall(Snapshot());
      StreamRead(ReadTag);
    }

    /** `write` throws without an active call. */
    method WriteSuspend() returns (noCall: bool)
      requires Valid() && Enabled(Snapshot(), Write)
      modifies this
      ensures Valid() && Snapshot() == Step(old(Snapshot()), Write)
      ensures noCall == !HasCall(old(Snapshot())) && (noCall ==> Snapshot() == old(Snapshot()))
      ensures !noCall ==> tags == old(tags) + multiset{WriteTag} && halfCloses == old(halfCloses)
    {
      StepInv(Snapshot(), Write);
      StreamMeansCall(Snapshot());
      noCall := !stream;
      if !noCall {
        tags := tags + multiset{WriteTag};
      }
    }

    method WriteLastSuspend() returns (noCall: bool)
      requires Valid() && Enabled(Snapshot(), WriteLast)
      modifies this
      ensures Valid() && Snapshot() == Step(old(Snapshot()), WriteLast)
      ensures noCall == !HasCall(old(Snapshot())) && (noCall ==> Snapshot() == old(Snapshot()))
      ensures !noCall ==> tags == old(tags) + multiset{WriteLastTag} && halfCloses == old(halfCloses) + 1
    {
      StepInv(Snapshot(), WriteLast);
      StreamMeansCall(Snapshot());
      noCall := !stream;
      if !noCall {
        StreamHalfClose(WriteLastTag);
      }
    }

    method WritesDoneSuspend() returns (noCall: bool)
      requires Valid() && Enabled(Snapshot(), WritesDone)
      modifies this
      ensures Valid() && Snapshot() == Step(old(Snapshot()), WritesDone)
      ensures noCall == !HasCall(old(Snapshot())) && (noCall ==> Snapshot() == old(Snapshot()))
      ensures !noCall ==> tags == old(tags) + multiset{WritesDoneTag} && halfCloses == old(halfCloses) + 1
    {
      StepInv(Snapshot(), WritesDone);
      StreamMeansCall(Snapshot());
      noCall := !stream;
      if !noCall {
        StreamHalfClose(WritesDoneTag);
      }
    }

    /** `handle_event` of the read and write awaiters. */
    method OperationEvent(tag: Tag, ok: bool) returns (result: bool)
      requires Valid() && !fault && tag in tags
      requires tag.ReadTag? || tag.WriteTag? || tag.WriteLastTag? || tag.WritesDoneTag?
      modifies this
      ensures Valid() && Snapshot() == Step(old(Snapshot()), Event(tag, ok, OK)) && result == ok
      ensures stream && owned && tags == old(tags) - multiset{tag}
      ensures needWritesDone == (old(needWritesDone) && !tag.WriteLastTag? && !tag.WritesDoneTag?)
    {
      StageOfTag(Snapshot(), tag);
      StepInv(Snapshot(), Event(tag, ok, OK));
      tags := tags - multiset{tag};
      result := ok;
      if tag.WriteLastTag? || tag.WritesDoneTag? {
        needWritesDone := false;
      }
    }

    /** `await_suspend` of `finish`, which does not look whether there is a stream. */
    method AskToFinish()
      requires owned
      modifies this
      ensures Snapshot() == StartFinish(old(Snapshot()).(status := OK))
    {
      finishStatus := OK;
      if ClientStreams(kind) {
        if needWritesDone {
          StreamHalfClose(FinishHalf);
        } else {
          StreamFinish(FinishEnd);
        }
      } else {
        StreamFinish(FinishEnd);
      }
    }

    /** `finish` faults exactly if there is no call to finish. */
    method FinishSuspend()
      requires Valid() && Enabled(Snapshot(), Finish)
      modifies this
      ensures Valid() && Snapshot() == Step(old(Snapshot()), Finish)
      ensures fault == !HasCall(old(Snapshot()))
      ensures !fault ==> tags == multiset{if old(needWritesDone) then FinishHalf else FinishEnd}
      ensures !fault ==> if old(needWritesDone) then halfCloses == 1 && finishes == 0 else finishes == 1
    {
      ghost var c := Snapshot();
      AskToFinish();
      StepInv(c, Finish);
      StepFaults(c, Finish);
    }

    /**
     `handle_event` of `finish`; `server` is what gRPC stored in the status before the second event. The
     caller is resumed by the second event only.
     */
    method FinishHandleEvent(evt: nat, ok: bool, server: Status)
      requires evt < 2 && stream
      modifies this
      ensures evt == 0 ==> Snapshot() == Handle(old(Snapshot()), FinishHalf, ok, server)
      ensures evt == 1 ==> Snapshot() == Handle(old(Snapshot()), FinishEnd, ok, server)
    {
      if evt == 1 {
        finishStatus := server;
      }
      if !ok {
        finishStatus := UNKNOWN;
      }
      if evt == 0 {
        StreamFinish(FinishEnd);
      } else {
        DropStreamAndResume();
      }
    }

    /** The second event of `finish`: the stream is dropped and the coroutine gets the status. */
    method DropStreamAndResume()
      modifies `stream, `results
      ensures Snapshot() == old(Snapshot()).(stream := false, results := old(results) + [finishStatus])
    {
      stream := false;
      results := results + [finishStatus];
    }

    /** Either event of `finish`, whenever its tag is outstanding: the stream is there to be used. */
    method FinishEvent(evt: nat, ok: bool, server: Status)
      requires Valid() && !fault && evt < 2 && (if evt == 0 then FinishHalf else FinishEnd) in tags
      modifies this
      ensures Valid()
      ensures Snapshot() == Step(old(Snapshot()), Event(if evt == 0 then FinishHalf else FinishEnd, ok, server))
      ensures results == if evt == 0 then [] else [if ok then server else UNKNOWN]
      ensures !fault
    {
      ghost var c := Snapshot();
      StageOfTag(c, if evt == 0 then FinishHalf else FinishEnd);
      assert results == [] && stream;
      TakeTag(if evt == 0 then FinishHalf else FinishEnd);
      FinishHandleEvent(evt, ok, server);
      StepInv(c, Event(if evt == 0 then FinishHalf else FinishEnd, ok, server));
    }

    // ---- The state object ------------------------------------------------------------------------

    /** `delete this` */
    method DeleteThis()
      modifies `stream, `context, `freed
      ensures Snapshot() == Delete(old(Snapshot()))
    {
      stream, context, freed := false, false, freed + 1;
    }

    /** `destruct`: starts the tear-down, or deletes the state object at once. */
    method Destruct()
      modifies this
      ensures Snapshot() == StreamCall.Destruct(old(Snapshot()))
    {
      if stream {
        cancelled := true;
        if ClientStreams(kind) {
          if needWritesDone {
            StreamHalfClose(ExitHalf);
          } else {
            StreamFinish(ExitEnd);
          }
        } else {
          StreamFinish(ExitEnd);
        }
      } else {
        DeleteThis();
      }
    }

    /** The destructor of the call gives the state object up to `destruct`. */
    method Destructor()
      requires Valid() && Enabled(Snapshot(), Destroy)
      modifies this
      ensures Valid() && Snapshot() == Step(old(Snapshot()), Destroy) && !owned
      ensures freed == (if HasCall(old(Snapshot())) then 0 else 1)
      ensures HasCall(old(Snapshot())) ==>
        cancelled && tags == multiset{if old(needWritesDone) then ExitHalf else ExitEnd}
    {
      ghost var c := Snapshot();
      owned := false;
      Destruct();
      StepInv(c, Destroy);
    }

    /** `handle_event` of the state object: asks for `Finish` after the half-close, then deletes itself. */
    method StateHandleEvent(evt: nat, ok: bool)
      requires evt < 2 && stream
      modifies this
      ensures evt == 0 ==> Snapshot() == Handle(old(Snapshot()), ExitHalf, ok, OK)
      ensures evt == 1 ==> Snapshot() == Handle(old(Snapshot()), ExitEnd, ok, OK)
    {
      if evt == 0 {
        StreamFinish(ExitEnd);
      } else {
        stream := false;
        context := false;
        DeleteThis();
      }
    }

    /** Either event of the tear-down: the state object is still there, and the second event deletes it. */
    method StateEvent(evt: nat, ok: bool)
      requires Valid() && !fault && evt < 2 && (if evt == 0 then ExitHalf else ExitEnd) in tags
      modifies this
      ensures Valid()
      ensures Snapshot() == Step(old(Snapshot()), Event(if evt == 0 then ExitHalf else ExitEnd, ok, OK))
      ensures freed == evt && !fault
    {
      ghost var c := Snapshot();
      StageOfTag(c, if evt == 0 then ExitHalf else ExitEnd);
      assert stream;
      TakeTag(if evt == 0 then ExitHalf else ExitEnd);
      StateHandleEvent(evt, ok);
      StepInv(c, Event(if evt == 0 then ExitHalf else ExitEnd, ok, OK));
    }
  }
}
