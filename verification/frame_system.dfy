/**
 Any number of frames on one completion queue: which frame owns which outstanding operation tag, that
 no event reaches a destroyed frame, and how the frames balance with what created them.
 */
module FrameSystem {
  import opened Sums
  import opened Rpc
  import opened Frames
  import opened FrameLifecycle

  /** An operation tag at the completion queue: the frame it points into, and which awaiter there. */
  datatype Tag = Tag(frame: nat, slot: Slot)

  /** `seeds` counts the frames the initializers created; `stray` records an event nobody waited for. */
  datatype System = System(frames: seq<Frame>, tags: multiset<Tag>, seeds: nat, stray: bool)

  datatype Action =
    | Seed(kind: Method)
    | Event(tag: Tag, ok: bool, message: nat)
    | AuthDone(frame: nat, result: Status)
    | User(frame: nat, input: Input)
    | Spawn(frame: nat, kind: Method)

  const NOTHING := System([], multiset{}, 0, false)

  /** What the body itself can do, besides creating further frames. */
  predicate UserInput(i: Input)
  {
    i.Await? || i.SetResponse? || i.Return? || i.Throw?
  }

  /** The handler an event with the given tag runs. */
  function InputFor(slot: Slot, ok: bool, message: nat): Input
  {
    match slot
    case ListenTag => ListenEvent(ok, message)
    case RejectTag => RejectEvent(ok)
    case OpTag => OpEvent(ok)
    case FinishTag => FinishEvent(ok)
  }

  predicate Enabled(s: System, a: Action)
  {
    match a
    case Seed(_) => true
    case Event(tag, _, _) => tag in s.tags
    case AuthDone(f, result) => f < |s.frames| && Accepts(s.frames[f], AuthCallback(result))
    case User(f, input) => f < |s.frames| && UserInput(input) && Accepts(s.frames[f], input)
    case Spawn(f, _) => f < |s.frames| && Accepts(s.frames[f], SpawnNext)
  }

  function TagsOf(frame: nat, issued: seq<Slot>): multiset<Tag>
  {
    multiset(seq(|issued|, i requires 0 <= i < |issued| => Tag(frame, issued[i])))
  }

  /** The frame takes the input and puts its tags on the queue. */
  function Feed(s: System, f: nat, i: Input): System
    requires f < |s.frames| && Accepts(s.frames[f], i)
  {
    var e := Frames.Step(s.frames[f], i);
    s.(frames := s.frames[f := e.frame], tags := s.tags + TagsOf(f, e.issued))
  }

  function Create(s: System, kind: Method): System
  {
    var e := NewFrame(kind);
    s.(frames := s.frames + [e.frame], tags := s.tags + TagsOf(|s.frames|, e.issued))
  }

  function Step(s: System, a: Action): System
    requires Enabled(s, a)
  {
    match a
    case Seed(kind) => Create(s, kind).(seeds := s.seeds + 1)
    case Event(tag, ok, message) =>
      var taken := s.(tags := s.tags - multiset{tag});
      var i := InputFor(tag.slot, ok, message);
      if tag.frame < |s.frames| && Accepts(s.frames[tag.frame], i) then Feed(taken, tag.frame, i)
      else taken.(stray := true)
    case AuthDone(f, result) => Feed(s, f, AuthCallback(result))
    case User(f, input) => Feed(s, f, input)
    case Spawn(f, kind) => Create(Feed(s, f, SpawnNext), kind)
  }

  ghost predicate Steps(s: System, run: seq<Action>, s': System)
    decreases |run|
  {
    if run == [] then s == s'
    else Enabled(s, run[0]) && Steps(Step(s, run[0]), run[1..], s')
  }

  lemma {:induction false} StepsCons(s: System, a: Action, rest: seq<Action>, s': System)
    requires Enabled(s, a) && Steps(Step(s, a), rest, s')
    ensures Steps(s, [a] + rest, s')
  {
    assert ([a] + rest)[0] == a && ([a] + rest)[1..] == rest;
  }

  lemma {:induction false} StepsOne(s: System, a: Action, m: System)
    requires Steps(s, [a], m)
    ensures Enabled(s, a) && m == Step(s, a)
  {
    assert [a][1..] == [];
  }

  // ---- Ownership -------------------------------------------------------------------------------

  /** The tag a suspended frame waits for. */
  function WaitsFor(f: Frame): Option<Slot>
  {
    match f.phase
    case Listening => Some(ListenTag)
    case Rejecting => Some(RejectTag)
    case Awaiting(_) => Some(OpTag)
    case Finishing => Some(FinishTag)
    case _ => None
  }

  predicate Owned(s: System, tag: Tag)
  {
    tag.frame < |s.frames| && WaitsFor(s.frames[tag.frame]) == Some(tag.slot)
  }

  /** A tag is outstanding once if its frame waits for it, and otherwise not at all. */
  ghost predicate Ownership(s: System)
  {
    forall tag :: s.tags[tag] == Bit(Owned(s, tag))
  }

  lemma OneTag(frame: nat, slot: Slot, tag: Tag)
    ensures TagsOf(frame, [slot])[tag] == Bit(tag == Tag(frame, slot))
    ensures TagsOf(frame, [])[tag] == 0
  {
    assert seq(1, i requires 0 <= i < 1 => Tag(frame, [slot][i])) == [Tag(frame, slot)];
    assert TagsOf(frame, [slot]) == multiset([Tag(frame, slot)]);
  }

  /** An input issues exactly the tag that the frame waits for afterwards. */
  lemma IssuedTags(s: System, f: nat, i: Input, tag: Tag)
    requires f < |s.frames| && Accepts(s.frames[f], i)
    ensures var e := Frames.Step(s.frames[f], i);
      TagsOf(f, e.issued)[tag] == Bit(tag.frame == f && WaitsFor(e.frame) == Some(tag.slot))
  {
    OneTag(f, ListenTag, tag);
    OneTag(f, RejectTag, tag);
    OneTag(f, OpTag, tag);
    OneTag(f, FinishTag, tag);
  }

  /** Feeding a frame whose tag has just been taken, or that waits for none, restores ownership. */
  lemma FeedOwnership(s: System, f: nat, i: Input)
    requires f < |s.frames| && Accepts(s.frames[f], i)
    requires forall tag :: s.tags[tag] == Bit(Owned(s, tag) && tag.frame != f)
    ensures Ownership(Feed(s, f, i))
  {
    forall tag ensures Feed(s, f, i).tags[tag] == Bit(Owned(Feed(s, f, i), tag)) {
      IssuedTags(s, f, i, tag);
    }
  }

  lemma CreateOwnership(s: System, kind: Method)
    requires Ownership(s)
    ensures Ownership(Create(s, kind))
  {
    forall tag ensures Create(s, kind).tags[tag] == Bit(Owned(Create(s, kind), tag)) {
      assert s.tags[tag] == Bit(Owned(s, tag));
      OneTag(|s.frames|, ListenTag, tag);
    }
  }

  /** The handler of an owned tag is the one the frame is ready for. */
  lemma OwnedAccepts(s: System, tag: Tag, ok: bool, message: nat)
    requires Owned(s, tag)
    ensures Accepts(s.frames[tag.frame], InputFor(tag.slot, ok, message))
    ensures !Destroyed(s.frames[tag.frame])
  {
  }

  lemma {:induction false} StepOwnership(s: System, a: Action)
    requires Ownership(s) && !s.stray && Enabled(s, a)
    ensures Ownership(Step(s, a)) && !Step(s, a).stray
  {
    match a
    case Seed(kind) => CreateOwnership(s, kind);
    case Event(tag, ok, message) =>
      assert Owned(s, tag);
      OwnedAccepts(s, tag, ok, message);
      var taken := s.(tags := s.tags - multiset{tag});
      forall x ensures taken.tags[x] == Bit(Owned(taken, x) && x.frame != tag.frame) {
        assert s.tags[x] == Bit(Owned(s, x));
      }
      FeedOwnership(taken, tag.frame, InputFor(tag.slot, ok, message));
    case AuthDone(f, result) => FeedOwnership(s, f, AuthCallback(result));
    case User(f, input) => FeedOwnership(s, f, input);
    case Spawn(f, kind) =>
      FeedOwnership(s, f, SpawnNext);
      CreateOwnership(Feed(s, f, SpawnNext), kind);
  }

  // ---- The invariant of the system ---------------------------------------------------------------

  ghost function Spawns(f: Frame): nat
  {
    Sum(IsSpawn, f.log)
  }

  ghost predicate Ledger(s: System)
  {
    && (forall f :: 0 <= f < |s.frames| ==> FrameInv(s.frames[f]))
    && |s.frames| == s.seeds + Sum(Spawns, s.frames)
  }

  ghost predicate SystemInv(s: System)
  {
    Ownership(s) && !s.stray && Ledger(s)
  }

  /** A frame keeps its invariant, and counts one spawn more only by spawning. */
  lemma FeedFrames(s: System, f: nat, i: Input)
    requires Ledger(s) && f < |s.frames| && Accepts(s.frames[f], i)
    ensures forall g :: 0 <= g < |s.frames| ==> FrameInv(Feed(s, f, i).frames[g])
    ensures Sum(Spawns, Feed(s, f, i).frames) == Sum(Spawns, s.frames) + Bit(i.SpawnNext?)
  {
    var frame := Frames.Step(s.frames[f], i).frame;
    StepFrameInv(s.frames[f], i);
    StepSum(IsSpawn, s.frames[f], i);
    HookWeights(s.frames[f], i);
    SumUpdate(Spawns, s.frames, f, frame);
  }

  /** Only `SpawnNext` unbalances the ledger, and creating a frame unbalances it the other way. */
  lemma FeedLedger(s: System, f: nat, i: Input)
    requires Ledger(s) && f < |s.frames| && Accepts(s.frames[f], i) && !i.SpawnNext?
    ensures Ledger(Feed(s, f, i))
  {
    FeedFrames(s, f, i);
  }

  lemma CreateFrames(frames: seq<Frame>, kind: Method)
    ensures FrameInv(NewFrame(kind).frame)
    ensures Sum(Spawns, frames + [NewFrame(kind).frame]) == Sum(Spawns, frames)
  {
    var f := NewFrame(kind).frame;
    NewFrameInv(kind);
    assert f.log[1..] == [];
    SumSnoc(Spawns, frames, f);
  }

  lemma SeedLedger(s: System, kind: Method)
    requires Ledger(s)
    ensures Ledger(Create(s, kind).(seeds := s.seeds + 1))
  {
    CreateFrames(s.frames, kind);
  }

  lemma SpawnLedger(s: System, f: nat, kind: Method)
    requires Ledger(s) && f < |s.frames| && Accepts(s.frames[f], SpawnNext)
    ensures Ledger(Create(Feed(s, f, SpawnNext), kind))
  {
    FeedFrames(s, f, SpawnNext);
    CreateFrames(Feed(s, f, SpawnNext).frames, kind);
  }

  lemma {:induction false} StepLedger(s: System, a: Action)
    requires Ownership(s) && Ledger(s) && Enabled(s, a)
    ensures Ledger(Step(s, a))
  {
    match a
    case Seed(kind) => SeedLedger(s, kind);
    case Event(tag, ok, message) =>
      assert s.tags[tag] == Bit(Owned(s, tag));
      OwnedAccepts(s, tag, ok, message);
      FeedLedger(s.(tags := s.tags - multiset{tag}), tag.frame, InputFor(tag.slot, ok, message));
    case AuthDone(f, result) => FeedLedger(s, f, AuthCallback(result));
    case User(f, input) => FeedLedger(s, f, input);
    case Spawn(f, kind) => SpawnLedger(s, f, kind);
  }

  lemma {:induction false} StepInv(s: System, a: Action)
    requires SystemInv(s) && Enabled(s, a)
    ensures SystemInv(Step(s, a))
  {
    StepOwnership(s, a);
    StepLedger(s, a);
  }

  lemma {:induction false} StepsInv(s: System, run: seq<Action>, s': System)
    requires SystemInv(s) && Steps(s, run, s')
    ensures SystemInv(s')
    decreases |run|
  {
    if run != [] {
      StepInv(s, run[0]);
      StepsInv(Step(s, run[0]), run[1..], s');
    }
  }

  // ---- Every run -------------------------------------------------------------------------------

  /** In every reachable state a suspended frame has exactly its one tag outstanding, others none. */
  lemma SuspendedOwnsOneTag(run: seq<Action>, s: System, f: nat, slot: Slot)
    requires Steps(NOTHING, run, s) && f < |s.frames|
    ensures s.tags[Tag(f, slot)] == Bit(WaitsFor(s.frames[f]) == Some(slot))
  {
    StepsInv(NOTHING, run, s);
    assert s.tags[Tag(f, slot)] == Bit(Owned(s, Tag(f, slot)));
  }

  /**
   In every reachable state an outstanding tag belongs to a live frame, which waits for exactly it and is
   ready for its event; so no event has been stray, and none that is to come can be.
   */
  lemma TagHasLiveFrame(run: seq<Action>, s: System, tag: Tag, ok: bool, message: nat)
    requires Steps(NOTHING, run, s) && tag in s.tags
    ensures tag.frame < |s.frames| && !Destroyed(s.frames[tag.frame]) && s.tags[tag] == 1
    ensures WaitsFor(s.frames[tag.frame]) == Some(tag.slot)
    ensures !s.stray && !Step(s, Event(tag, ok, message)).stray
  {
    StepsInv(NOTHING, run, s);
    assert s.tags[tag] == Bit(Owned(s, tag));
    OwnedAccepts(s, tag, ok, message);
  }

  /** Among all the others, each frame follows the protocol of its kind and balances. */
  lemma EveryFrameLives(run: seq<Action>, s: System, f: nat)
    requires Steps(NOTHING, run, s) && f < |s.frames|
    ensures Protocol(s.frames[f].kind, s.frames[f].log) && Balanced(s.frames[f])
  {
    StepsInv(NOTHING, run, s);
    InvBalanced(s.frames[f]);
  }

  /** No frame runs user code and no authentication hook has its callback to make. */
  ghost predicate NobodyRuns(s: System)
  {
    forall f :: 0 <= f < |s.frames| ==> !s.frames[f].phase.Body? && !s.frames[f].phase.Authenticating?
  }

  ghost function Releases(f: Frame): nat
  {
    Sum(IsFreed, f.log)
  }

  /** A drained completion queue leaves no live frame: every frame was freed, and freed once. */
  lemma DrainedLeavesNothing(run: seq<Action>, s: System)
    requires Steps(NOTHING, run, s) && s.tags == multiset{} && NobodyRuns(s)
    ensures forall f :: 0 <= f < |s.frames| ==> Destroyed(s.frames[f])
    ensures Sum(Releases, s.frames) == |s.frames|
  {
    StepsInv(NOTHING, run, s);
    forall f | 0 <= f < |s.frames| ensures Destroyed(s.frames[f]) && Releases(s.frames[f]) == 1 {
      SuspendedOwnsOneTag(run, s, f, ListenTag);
      SuspendedOwnsOneTag(run, s, f, RejectTag);
      SuspendedOwnsOneTag(run, s, f, OpTag);
      SuspendedOwnsOneTag(run, s, f, FinishTag);
      assert FrameInv(s.frames[f]);
    }
    SumConstant(Releases, s.frames, 1);
  }

  /** Steps to the end of a frame if listens fail, hooks reject and bodies return at once. */
  ghost function DrainCost(f: Frame): nat
  {
    match f.phase
    case Listening => 1
    case Rejecting => 2
    case Authenticating => 3
    case Body => 2
    case Awaiting(_) => 3
    case Finishing => 1
    case Unused => 0
    case Served => 0
  }

  /** The input that brings a live frame nearer to its end. */
  function DrainInput(f: Frame): Input
  {
    match f.phase
    case Listening => ListenEvent(false, 0)
    case Rejecting => RejectEvent(false)
    case Authenticating => AuthCallback(Status(1))
    case Awaiting(_) => OpEvent(false)
    case Finishing => FinishEvent(false)
    case _ => Return(OK)
  }

  function DrainAction(f: nat, frame: Frame): Action
  {
    match WaitsFor(frame)
    case Some(slot) => Event(Tag(f, slot), false, 0)
    case None => if frame.phase.Authenticating? then AuthDone(f, Status(1)) else User(f, Return(OK))
  }

  lemma DrainFrame(f: Frame)
    requires !Destroyed(f)
    ensures Accepts(f, DrainInput(f))
    ensures DrainCost(Frames.Step(f, DrainInput(f)).frame) < DrainCost(f)
  {
  }

  /** The drain action is the one by which the frame takes its drain input. */
  lemma DrainMatches(f: nat, frame: Frame)
    requires !Destroyed(frame)
    ensures match DrainAction(f, frame)
      case Event(tag, ok, message) =>
        tag.frame == f && WaitsFor(frame) == Some(tag.slot) && InputFor(tag.slot, ok, message) == DrainInput(frame)
      case AuthDone(g, result) => g == f && AuthCallback(result) == DrainInput(frame)
      case User(g, input) => g == f && input == DrainInput(frame) && UserInput(input)
      case _ => false
  {
  }

  /** The drain action is enabled and feeds the drain input to its frame. */
  lemma DrainFeeds(s: System, f: nat)
    requires Ownership(s) && f < |s.frames| && !Destroyed(s.frames[f])
    ensures Enabled(s, DrainAction(f, s.frames[f])) && Accepts(s.frames[f], DrainInput(s.frames[f]))
    ensures Step(s, DrainAction(f, s.frames[f])).frames
      == s.frames[f := Frames.Step(s.frames[f], DrainInput(s.frames[f])).frame]
  {
    var a := DrainAction(f, s.frames[f]);
    DrainMatches(f, s.frames[f]);
    DrainFrame(s.frames[f]);
    if a.Event? {
      assert s.tags[a.tag] == Bit(Owned(s, a.tag));
    }
  }

  lemma DrainStep(s: System, f: nat)
    requires Ownership(s) && f < |s.frames| && !Destroyed(s.frames[f])
    ensures Enabled(s, DrainAction(f, s.frames[f]))
    ensures |Step(s, DrainAction(f, s.frames[f])).frames| == |s.frames|
    ensures Sum(DrainCost, Step(s, DrainAction(f, s.frames[f])).frames) < Sum(DrainCost, s.frames)
  {
    DrainFeeds(s, f);
    DrainFrame(s.frames[f]);
    var frame := Frames.Step(s.frames[f], DrainInput(s.frames[f])).frame;
    SumUpdate(DrainCost, s.frames, f, frame);
  }

  /** No frame is ever stuck: from every reachable state all frames can be freed, creating no more. */
  lemma {:induction false} CanDrain(s: System) returns (run: seq<Action>, s': System)
    requires SystemInv(s)
    ensures Steps(s, run, s') && |s'.frames| == |s.frames| && s'.tags == multiset{}
    ensures forall f :: 0 <= f < |s'.frames| ==> Destroyed(s'.frames[f])
    decreases Sum(DrainCost, s.frames)
  {
    if f: nat :| f < |s.frames| && !Destroyed(s.frames[f]) {
      var a := DrainAction(f, s.frames[f]);
      DrainStep(s, f);
      StepInv(s, a);
      var rest;
      rest, s' := CanDrain(Step(s, a));
      run := [a] + rest;
      assert run[0] == a && run[1..] == rest;
    } else {
      run, s' := [], s;
      forall tag ensures s.tags[tag] == 0 {
        assert s.tags[tag] == Bit(Owned(s, tag));
      }
    }
  }

  // ---- Listeners -------------------------------------------------------------------------------

  /** The frame has not entered its body: it listens, authenticates, rejects, or its listen failed. */
  ghost function Waiting(f: Frame): nat
  {
    Bit(!Entered(f))
  }

  ghost function EnteredBodies(f: Frame): nat
  {
    Bit(Entered(f))
  }

  ghost function OneFrame(f: Frame): nat { 1 }

  lemma FramesBalance(s: System)
    requires SystemInv(s)
    ensures Sum(Waiting, s.frames) + Sum(EnteredBodies, s.frames) == s.seeds + Sum(Spawns, s.frames)
  {
    SumAdds(Waiting, EnteredBodies, OneFrame, s.frames);
    SumConstant(OneFrame, s.frames, 1);
  }

  /** In every run, whatever the bodies create: the frames balance with the seeds and the spawns. */
  lemma ListenerBalance(run: seq<Action>, s: System)
    requires Steps(NOTHING, run, s)
    ensures Sum(Waiting, s.frames) + Sum(EnteredBodies, s.frames) == s.seeds + Sum(Spawns, s.frames)
  {
    StepsInv(NOTHING, run, s);
    FramesBalance(s);
  }
}
