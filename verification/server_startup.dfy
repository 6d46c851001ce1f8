/** The builder's task list and the thread body of the server constructor, up to the event loop. */
module ServerStartup {
  import opened Startup

  class ServerBuilder {
    var threadCount: nat
    var cqInitializers: seq<nat>

    constructor (hardwareConcurrency: nat)
      ensures cqInitializers == [] && threadCount == hardwareConcurrency
    {
      threadCount, cqInitializers := hardwareConcurrency, [];
    }

    method SetThreadCount(n: nat)
      modifies this
      ensures threadCount == n && cqInitializers == old(cqInitializers)
    {
      threadCount := n;
    }

    /** `service_builder::add_task`: one more initializer, after those already registered. */
    method AddTask(task: nat)
      modifies this
      ensures cqInitializers == old(cqInitializers) + [task] && threadCount == old(threadCount)
    {
      cqInitializers := cqInitializers + [task];
    }

    /** Moves the list into a new server with `threadCount` completion queues, each with its thread started. */
    method Build() returns (server: Server)
      modifies this
      ensures cqInitializers == []
      ensures fresh(server) && server.Valid() && server.Spawned(threadCount)
      ensures server.registered == old(cqInitializers) && server.cqCount == threadCount == old(threadCount)
    {
      server := new Server(threadCount, cqInitializers);
      cqInitializers := [];
      server.StartThreads();
    }
  }

  class Server {
    const cqCount: nat
    var threadsOnline: nat
    var cqInitializers: seq<nat>

    // The completion queues: the initializers called on each of them so far.
    var seeded: seq<seq<nat>>

    // The run so far of all threads together, and the state it has reached.
    ghost const registered: seq<nat>
    ghost var trace: seq<Action>
    ghost var world: State

    ghost predicate Valid()
      reads this
    {
      && Steps(Start(registered, cqCount), trace, world)
      && world.initializers == cqInitializers
      && world.online == threadsOnline
      && world.seeded == seeded
    }

    ghost predicate At(t: nat, w: Worker)
      reads this
    {
      t < |world.workers| && world.workers[t] == w
    }

    constructor (threadCount: nat, inits: seq<nat>)
      ensures Valid() && trace == [] && world == Start(inits, threadCount)
      ensures registered == inits && cqCount == threadCount
    {
      cqCount, threadsOnline, cqInitializers := threadCount, 0, inits;
      seeded := seq(threadCount, i => []);
      registered, trace, world := inits, [], Start(inits, threadCount);
    }

    /** In every state a run reaches. */
    lemma Invariant()
      requires Valid()
      ensures Inv(world) && world.registered == registered && |world.workers| == |seeded| == cqCount
    {
      StartInv(registered, cqCount);
      StepsInv(Start(registered, cqCount), trace, world);
    }

    /** The other threads run, as much or as little as they like. */
    method Interfere(t: nat)
      requires Valid()
      modifies this
      ensures Valid() && old(trace) <= trace
      ensures forall i :: |old(trace)| <= i < |trace| ==> trace[i].t != t
    {
    }

    /** A point between two atomic steps of thread `t`: whatever happens there, `t` stays where it is. */
    method Yield(t: nat)
      requires Valid() && t < |world.workers|
      modifies this
      ensures Valid() && old(trace) <= trace && At(t, old(world.workers[t]))
      ensures Inv(world) && world.registered == registered && |world.workers| == |seeded| == cqCount
      ensures t < |old(seeded)| && seeded[t] == old(seeded)[t]
    {
      Invariant();
      Interfere(t);
      Invariant();
      ghost var mid := trace[|old(trace)|..];
      assert trace == old(trace) + mid;
      StepsConcat(Start(registered, cqCount), old(trace), old(world), mid, world);
      forall i | 0 <= i < |mid| ensures mid[i].t != t {
        assert mid[i] == trace[|old(trace)| + i];
      }
      OthersKeepWorker(old(world), mid, world, t);
    }

    /** Ghost bookkeeping of one atomic step. */
    ghost method Record(a: Action)
      requires Steps(Start(registered, cqCount), trace, world) && Enabled(world, a)
      modifies `trace, `world
      ensures trace == old(trace) + [a] && world == Step(old(world), a)
      ensures Steps(Start(registered, cqCount), trace, world)
    {
      assert [a][1..] == [];
      assert Steps(Step(world, a), [a][1..], Step(world, a));
      StepsConcat(Start(registered, cqCount), trace, world, [a], Step(world, a));
      trace, world := trace + [a], Step(world, a);
    }

    /** `e(cq)` for the element the loop has reached. */
    method CallInitializer(t: nat, i: nat)
      requires Valid() && At(t, Running(i, |registered|)) && i < |cqInitializers| && i < |registered|
      requires t < |seeded|
      modifies this
      ensures Valid() && old(trace) <= trace && At(t, Running(i + 1, |registered|))
    {
      seeded := seeded[t := seeded[t] + [cqInitializers[i]]];
      Record(Invoke(t));
    }

    /** `m_threads_online.fetch_add(1)`. */
    method FetchAdd(t: nat) returns (before: nat)
      requires Valid() && At(t, Running(|registered|, |registered|)) && t < |seeded|
      requires |world.workers| == cqCount
      modifies this
      ensures Valid() && old(trace) <= trace && seeded == old(seeded)
      ensures At(t, if before + 1 == cqCount then Clearing else Serving)
    {
      before := threadsOnline;
      threadsOnline := threadsOnline + 1;
      Record(CountIn(t));
    }

    method ClearInitializers(t: nat)
      requires Valid() && At(t, Clearing) && t < |seeded|
      modifies this
      ensures Valid() && old(trace) <= trace && At(t, Serving) && cqInitializers == [] && seeded == old(seeded)
    {
      cqInitializers := [];
      Record(Clear(t));
    }

    /** The range-for of thread `t` over the shared vector; every index it uses is within the vector. */
    method CallInitializers(t: nat)
      requires Valid() && At(t, Created)
      modifies this
      ensures Valid() && old(trace) <= trace && At(t, Running(|registered|, |registered|))
      ensures |world.workers| == |seeded| == cqCount
    {
      Yield(t);
      assert WorkerOk(world, t);
      IteratingKeepsList(world, t);
      var end := |cqInitializers|;
      Record(Begin(t));
      for i := 0 to end
        invariant Valid() && old(trace) <= trace && end == |registered| && At(t, Running(i, end))
      {
        Yield(t);
        IteratingKeepsList(world, t);
        CallInitializer(t, i);
      }
      Invariant();
    }

    /** The thread that completes the count clears the vector. */
    method CountThreadIn(t: nat)
      requires Valid() && At(t, Running(|registered|, |registered|)) && t < cqCount
      requires |world.workers| == |seeded| == cqCount
      modifies this
      ensures Valid() && old(trace) <= trace && At(t, Serving)
    {
      Yield(t);
      var before := FetchAdd(t);
      if before + 1 == cqCount {
        Yield(t);
        ClearInitializers(t);
      }
    }

    /**
     The body of thread `t` before its event loop. When it starts to serve, its queue has been seeded
     with the whole registered list, in order.
     */
    method ThreadBody(t: nat)
      requires Valid() && At(t, Created)
      modifies this
      ensures Valid() && old(trace) <= trace && At(t, Serving)
      ensures t < |seeded| && seeded[t] == registered
    {
      CallInitializers(t);
      CountThreadIn(t);
      Invariant();
      assert WorkerOk(world, t);
    }

    /** The threads that exist already run while the constructor goes on. */
    method InterfereWithSpawner()
      requires Valid()
      modifies this
      ensures Valid() && old(trace) <= trace
      ensures forall i :: |old(trace)| <= i < |trace| ==> !trace[i].Spawn?
    {
    }

    /** The first `n` workers exist, and no other. */
    ghost predicate Spawned(n: nat)
      reads this
    {
      && |world.workers| == |world.seeded| == cqCount
      && forall u :: 0 <= u < cqCount ==> (world.workers[u].Absent? <==> n <= u)
    }

    /** A point between two steps of the constructor. */
    method YieldToThreads(ghost n: nat)
      requires Valid() && Spawned(n)
      modifies this
      ensures Valid() && old(trace) <= trace && Spawned(n)
    {
      InterfereWithSpawner();
      ghost var mid := trace[|old(trace)|..];
      assert trace == old(trace) + mid;
      StepsConcat(Start(registered, cqCount), old(trace), old(world), mid, world);
      forall i | 0 <= i < |mid| ensures !mid[i].Spawn? {
        assert mid[i] == trace[|old(trace)| + i];
      }
      OthersSpawnNothing(old(world), mid, world);
    }

    /** The constructor's loop: starts one thread for each completion queue while the earlier ones run. */
    method StartThreads()
      requires Valid() && trace == []
      modifies this
      ensures Valid() && Spawned(cqCount)
    {
      for i := 0 to cqCount
        invariant Valid() && Spawned(i)
      {
        YieldToThreads(i);
        Record(Spawn(i));
      }
    }
  }
}
