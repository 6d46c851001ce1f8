# Verification of asyncpp-grpc

A Dafny model of the parts of asyncpp-grpc that carry a concurrency or a lifetime argument of their
own on top of the gRPC completion queue, with proofs about every run. `dafny verify dfyconfig.toml`
checks the whole project.

## What is modelled

**The dispatchers** (`server::push` and `server::handle_event`, `client_cq::push` and
`client_cq::handle_event`). `dispatch.dfy` is one interleaving transition system for both: any number
of completion-queue threads, any number of threads that only push, one atomic action per step, and
closures that are finite trees, so that a running task pushes further tasks. The two classes share
`push` and differ in the `order` of the handler: the server drains, re-enables the flag and drains
again; the client clears its flag and drains once. Popping a closure and calling it are separate
steps. `wakeups.dfy` proves the safety of the wake-up protocol, `work.dfy` conservation, a step bound,
and what a finished run has done; `teardown.dfy` decides for every reachable state whether shutting
down and joining is sure to leave nothing queued, and `late_alarms.dfy` whether going on can set an
alarm on a queue that is shut down; `alarms.dfy` follows each alarm to the queue its event appears on,
and each thread through its program; and `refinement.dfy` shows that both handlers implement the
abstract first-in-first-out service of `fifo.dfy`. `server_dispatcher.dfy` and `client_cq.dfy` are the classes with their mutable fields and loops. Their methods are verified against
any interleaving: between two atomic steps they call `Interfere`, whose contract allows the other
threads any number of steps, and whose empty body is one way to meet it. A ghost trace ties the fields
to a run of the transition system, so every theorem about runs holds in every valid state of an object;
`Did(t)` is what thread `t` itself has appended, exchanged, set and called in that run.

**The start-up barrier** (the thread body in the constructor of `server`, and `add_task`).
`startup.dfy` has N threads over a shared initializer list, with the loop's end read when the loop
starts; `server_startup.dfy` has the builder, the constructor's loop and the thread body as classes,
again against any interleaving.

**Server coroutine frames** (`task<...>::promise_type` and the awaiters of the task context).
`frames.dfy` is one frame with a log of what is visible from outside: hooks, issued operations,
finishing operations. `frame_lifecycle.dfy` has the theorems about a single frame, and
`frame_history.dfy` what it holds and logs as functions of its inputs; `frame_system.dfy` has any number
of frames on one completion queue, and `system_lives.dfy` shows that the lives of its frames are exactly
the lives of single frames; `listeners.dfy` has start-up and frames in one run, where each body first
creates its successor, and `task_promise.dfy` the promise as a class.

**Client streaming calls** (`streaming_call`). `stream_call.dfy` is the call with gRPC's view of it
(tags outstanding, half-closes and finishes asked for), `stream_theorems.dfy` the theorems,
`stream_ledger.dfy` one account for every tag over a run, `stream_sessions.dfy` whole sessions, and
`streaming_call.dfy` the state object and the awaiters as a class. `write`, `write_last` and
`writes_done` throw when there is no call; `read` and `finish` do not look. A use of the absent stream
is a fault, which ends the run, and `FaultIff` says exactly which callers cause one.

## Assumptions

- `threadsafe_queue` is a linearizable queue, atomics are sequentially consistent, and an armed alarm
  yields exactly one event on its queue; a tag put on a completion queue is delivered once, and `Next`
  returns false only when its queue is shut down and has nothing to deliver.
- An alarm set on a queue that is already shut down yields no event. gRPC forbids it; the model records
  it as a lost token. `LateAlarms.NoLateAlarmIff` says when no run does so. A client whose tasks push
  while it is torn down can.
- A server that dispatches has at least one completion queue: with none, `push` divides by zero when it
  chooses a queue. The start-up barrier is proved for any number, zero included.
- Closures do not throw out of the handlers, and an authentication hook calls back exactly once, at
  once or later.
- A body awaits the operations of its context one at a time.
- In `streaming_call::start`, issuing the call and storing the stream are one step, and a call is
  started once.
- `handle_event` of both dispatchers ignores its arguments, so the model leaves them out. The two drain
  loops of `server::handle_event` are the same text and are one method here, called twice.
- A task's own code that pushes from another event handler of a completion-queue thread counts as one
  more thread that only pushes.

## Model

| member | source | states |
|---|---|---|
| Dispatch.Start | include/asyncpp/grpc/server.h:44-50 | the initial state: empty queue, flag up, no alarm, all threads idle |
| Dispatch.Step | src/grpc/server.cpp:36-48 | the atomic steps of both dispatchers, of the alarm and of shutting down |
| Wakeups.Safety | src/grpc/server.cpp:36-48 | in every reachable state there is at most one wake token and there is one exactly while the flag is down; and unless an alarm was lost on a queue that was shut down, a non-empty queue has a token that will reach a handler or a thread bound to look at it again |
| Wakeups.StepToken | src/grpc/server.cpp:85-91 | every atomic step keeps the token unique and equivalent to the flag |
| Wakeups.StepNoLostWakeup | src/grpc/server.cpp:36-48 | every atomic step keeps queued closures covered, by a live token or a thread bound to look again unless an alarm was lost on a queue that was shut down |
| Wakeups.AlarmNeverSetTwice | src/grpc/server.cpp:87-90 | the single alarm is set only while none is armed or undelivered |
| Wakeups.OneHandlerBeforeEnable | src/grpc/server.cpp:37-42 | at most one handler is before the point that re-enables the flag |
| Wakeups.FirstDrainNeverArms | src/grpc/server.cpp:37-41 | a push made by a task of the first drain loop never sets the alarm |
| Work.NeverCalledTwice | src/grpc/server.cpp:36-48 | in every reachable state, calls made plus calls still to come of any closure equal its submissions |
| Work.RunsAreBounded | src/grpc/server.cpp:36-48 | every run over finite tasks ends: at most nine steps per closure, plus two per completion queue |
| Work.MaximalRunCallsEverything | src/grpc/server.cpp:36-48 | a run with nothing left to do, in which no alarm was set on a queue already shut down, has an empty queue, the flag up, and every closure called exactly as often as submitted |
| Work.CanFinish | src/grpc/server.cpp:36-48 | no deadlock: from every reachable state the work can be finished without shutting down |
| TearDown.TearDownDrains | src/grpc/server.cpp:68-79 | if other threads have made their pushes when the shut-down starts, nothing is queued and everything has been called once the loops are joined, also what tasks pushed meanwhile; where a task's push sets the alarm on a queue already shut down this rests on the assumption that such an alarm is merely lost |
| LateAlarms.NoLateAlarmIff | src/grpc/server.cpp:36-91 | the exact condition, for both handler orders and any number of queues: from a reachable state no run sets an alarm on a queue that is shut down if and only if none was set so far, and either no push is under way or to come, or one loop drains with the flag down while nobody else has a push to make or, in a last drain loop, can get a closure that pushes |
| LateAlarms.ClientNoLateAlarmIff | src/grpc/client_cq.cpp:5-37 | for the client: if and only if none was set, the other threads have made their pushes, and either nothing is left to push or the loop is draining with an alarm already set |
| LateAlarms.OnePushingTask | src/grpc/client_cq.cpp:6-9 | all pushes have returned and one queued task pushes once: shutting down is harmless on the server and not on the client, which clears its flag before it drains |
| LateAlarms.LateAlarmHappens | src/grpc/client_cq.cpp:29-37 | a tear-down of such a client is joined and drained, and set an alarm on its queue after the shut-down |
| LateAlarms.CleanTearDown | src/grpc/server.cpp:68-79 | a tear-down from a state that meets the condition is drained and never sets an alarm on a queue that is shut down |
| TearDown.JoinDrains | src/grpc/client_cq.cpp:29-32 | pushes at any time are drained by the join if no alarm was set on a queue already shut down |
| TearDown.StoppedJoined | src/grpc/server.cpp:70-75 | a run that cannot go on has joined every loop |
| TearDown.ClosesOneByOne | src/grpc/server.cpp:70-72 | queues are shut down one at a time, in order |
| TearDown.CanTearDown | src/grpc/server.cpp:70-75 | from every reachable state there is a way to join all loops |
| TearDown.DrainedIffSecured | src/grpc/server.cpp:68-91 | from any reachable state, every way to shut down and join leaves nothing queued if and only if no other thread has a push yet to begin and whatever is queued has its alarm set or a handler under way; a push that has appended but not yet set the alarm does not help |
| TearDown.DrainedIffAllCalled | src/grpc/server.cpp:68-79 | after the join, nothing queued means every closure called exactly as often as submitted, and the other way round |
| TearDown.LatePushStays | src/grpc/client_cq.cpp:29-37 | the smallest failing case: a concrete run leaves a late push queued |
| Work.WakeupEconomy | src/grpc/server.cpp:85-91 | alarms set are at most the pushes, and at most one more than the events delivered |
| Fifo.BehavesLedger | src/grpc/server.cpp:85-91 | in the abstract service, taken is a prefix of submitted and nothing is called that was not taken |
| Refinement.DispatcherRefinesService | src/grpc/client_cq.cpp:5-12 | every run of either dispatcher, with any number of threads, is a behaviour of the abstract service |
| Refinement.StepRefines | src/grpc/server.cpp:36-48 | the simulation, step by step |
| Refinement.FirstInFirstOut | src/grpc/server.cpp:36-48 | pushed is popped followed by the queue; popped is called or in a handler's hand |
| Refinement.SerialCallsInPushOrder | src/grpc/client_cq.cpp:5-12 | with one completion queue, closures are called one at a time, in push order |
| Refinement.SerialTearDown | src/grpc/client_cq.cpp:29-32 | after the client's tear-down, the closures called are exactly the closures pushed, in order; where a task's push sets the alarm on the queue already shut down this rests on the assumption that such an alarm is merely lost |
| Interleaving.Relies | src/grpc/server.cpp:36-48 | what a thread keeps between two of its steps, whatever the others do, and that meanwhile it does nothing itself |
| Alarms.AlarmsArriveWhereSet | src/grpc/server.cpp:85-91 | over every run and for every queue: the events handed to its thread plus those still to come equal the alarms set on this very queue while it was open, and an alarm is lost exactly if it was set on a queue that was shut down |
| Alarms.PushesInProgramOrder | src/grpc/server.cpp:85-91 | over every run a thread makes its pushes one after the other in program order, each appending its own closure, exchanging the flag, and setting the alarm exactly if it took it, on the queue asked for modulo their number |
| ServerDispatcher.Server.constructor | include/asyncpp/grpc/server.h:48-50 | a new server is in the initial state |
| ServerDispatcher.Server.Push | src/grpc/server.cpp:85-91 | under any interleaving the thread appends the closure, exchanges the flag, and sets the alarm on queue `cq_idx % cqs` exactly if it took the flag; it does nothing else |
| ServerDispatcher.Server.WakeHandler | src/grpc/server.cpp:87-90 | the thread sets the alarm, on the queue it was asked for modulo their number, exactly if its exchange took the flag down |
| ServerDispatcher.Server.SetAlarm | src/grpc/server.cpp:88-89 | the event appears on the queue asked for if that is open, and nowhere else |
| ServerDispatcher.Server.PushToFirst | src/grpc/server.cpp:83 | the one-argument form sets its alarm on the first queue |
| ServerDispatcher.Server.AlarmsAccounted | src/grpc/server.cpp:85-91 | the alarm law for a valid server object |
| ServerDispatcher.Server.CallIfSet | src/grpc/server.cpp:40 | the thread calls the closure and makes exactly its pushes, in order, each with its wake-up; with an empty closure it does nothing |
| ServerDispatcher.Server.HandleEvent | src/grpc/server.cpp:36-48 | terminates under any interleaving; on return the queue is empty, all pushed so far is popped, and no wake-up is lost |
| ServerDispatcher.Server.Next | src/grpc/server.cpp:27 | delivers an event of the thread's own queue if there is one, and ends only when that queue is shut down and empty |
| ServerDispatcher.Server.EventLoop | src/grpc/server.cpp:25-30 | under any interleaving handles events until its queue is shut down and empty, or waits with no event to come; everything pushed is popped or queued, and no wake-up is lost |
| ServerDispatcher.Server.ShutdownQueues | src/grpc/server.cpp:70-72 | shuts every queue down while the threads run |
| ServerDispatcher.Server.StopDrainsIff | src/grpc/server.cpp:68-75 | the tear-down theorem for a server object in any valid state |
| ServerDispatcher.Server.JoinedMeansDrained | src/grpc/server.cpp:73-75 | after the join everything pushed has been called, if no alarm was set on a queue already shut down |
| ClientQueue.ClientCq.constructor | src/grpc/client_cq.cpp:14-27 | a new client queue is in the initial state |
| ClientQueue.ClientCq.Push | src/grpc/client_cq.cpp:34-37 | under any interleaving the thread appends the closure, sets the flag, and sets the alarm exactly if the flag was clear; it does nothing else |
| ClientQueue.ClientCq.CallIfSet | src/grpc/client_cq.cpp:9 | calls the task and makes exactly its pushes, in order, each with its wake-up; with an empty task it does nothing |
| ClientQueue.ClientCq.HandleEvent | src/grpc/client_cq.cpp:5-12 | terminates under any interleaving; on return the queue is empty and what was called is exactly what was pushed, in order |
| ClientQueue.ClientCq.EventLoop | src/grpc/client_cq.cpp:19-25 | calls in push order, and has called everything if it returned, all threads are done and no alarm came after the shut-down |
| ClientQueue.ClientCq.Next | src/grpc/client_cq.cpp:21 | delivers an event if there is one, and ends only when shut down and empty |
| ClientQueue.ClientCq.Shutdown | src/grpc/client_cq.cpp:30 | shutting down changes nothing else |
| ClientQueue.ClientCq.NoLateAlarmIff | src/grpc/client_cq.cpp:29-37 | when going on from a valid client object, shutting it down included, never sets an alarm on the queue after its shut-down |
| Startup.BarrierSafety | src/grpc/server.cpp:19-23 | any number of threads under any interleaving: a thread in the loop sees the whole list, nothing is read after the clear, at most one thread clears |
| Startup.BarrierOutcome | src/grpc/server.cpp:19-23 | at the end every queue was seeded with every initializer once and in order, one thread cleared, and the seeds number threads times tasks (with no thread at all, the list simply stays) |
| Startup.BarrierTerminates | src/grpc/server.cpp:13-23 | start-up takes at most four steps per thread besides the initializers |
| Startup.EachThreadInOrder | src/grpc/server.cpp:14-23 | over every run each thread has done a first part of one program: it comes into being, enters the loop, calls one initializer after the other, counts itself in, and in one thread clears |
| ServerStartup.ServerBuilder.AddTask | include/asyncpp/grpc/server.h:144-156 | appends one initializer and changes nothing else |
| ServerStartup.ServerBuilder.Build | src/grpc/server.cpp:152 | the server has the list registered so far, one queue per thread, and every thread started |
| ServerStartup.Server.StartThreads | src/grpc/server.cpp:13-33 | one thread per queue is brought into being while the earlier ones already run |
| ServerStartup.Server.ThreadBody | src/grpc/server.cpp:14-23 | every index is within the shared list, and when the thread serves its queue was seeded with the whole list in order |
| Frames.Step | include/asyncpp/grpc/task.h:227-308 | the steps of a frame: listen, authenticate, reject, body, operations, finish |
| Frames.FinishFor | include/asyncpp/grpc/task.h:289-304 | the finishing operation a frame issues |
| FrameLifecycle.Lifecycle | include/asyncpp/grpc/task.h:222-308 | for any number of rejections and any body: the log follows the protocol, the body is entered at most once, each call received is answered exactly once, start hooks match finish hooks, and the frame is freed exactly once |
| FrameLifecycle.StartAfterAcceptance | include/asyncpp/grpc/task.h:232-237 | in every life of a frame, the body starts only right after an accepted authentication of a received call |
| FrameLifecycle.OperationsPaired | include/asyncpp/grpc/task.h:92-162 | in every life, the completions seen by the hooks are exactly those of the operations the body awaited, in order and with the result of their events, and each comes right after its own issue, which comes right after its start hook |
| FrameLifecycle.StatusDelivered | include/asyncpp/grpc/task.h:238-304 | in every life, the answers sent are exactly those the inputs call for: one per rejection with the hook's status and, if the body ended, one with the status it returned or the exception hook made, in the operation of the method kind and with the response assigned last; the body ends at most once |
| FrameLifecycle.ResponseDelivered | include/asyncpp/grpc/task.h:296-298 | a successful call sends the response the body assigned last |
| FrameLifecycle.RejectionRelistens | include/asyncpp/grpc/task.h:238-252 | however many calls were rejected before, a rejection sends the hook's status in the operation of the method kind, and the frame then listens again as a new one does, on the next context |
| FrameLifecycle.ListensLikeNew | include/asyncpp/grpc/task.h:246-252 | in every life, a frame that listens is a new frame but for its log and its context, which is numbered by the rejections |
| FrameHistory.RequestDelivered | include/asyncpp/grpc/task.h:263-272 | in every life, from the received call on and so in the whole body, the request is the message of that call for the methods with a single one |
| FrameHistory.LogTellsLife | include/asyncpp/grpc/task.h:222-308 | in every life, what the log tells is what the inputs mean, one for one and in order |
| FrameHistory.OperationsOfKind | include/asyncpp/grpc/task.h:92-162 | an operation is only issued by a method kind that has it |
| FrameSystem.SuspendedOwnsOneTag | include/asyncpp/grpc/task.h:222-308 | a suspended frame has exactly its one operation tag outstanding, once |
| FrameSystem.TagHasLiveFrame | include/asyncpp/grpc/task.h:227-287 | an outstanding operation tag belongs to a live frame that is ready for it: no event reaches a destroyed frame |
| FrameSystem.EveryFrameLives | include/asyncpp/grpc/task.h:222-308 | among any number of others, each frame's log follows the protocol of its kind and balances |
| SystemLives.FrameLives | src/grpc/server.cpp:27-30 | in every run, each frame is what its own life has made of a new frame of the kind it was created with: its events, each with its own result and message, its callbacks and its moves, in order |
| SystemLives.EveryFrameServes | include/asyncpp/grpc/task.h:222-308 | so for every frame of every run the answers sent, the operations completed, the request and the log are functions of what happened to it |
| SystemLives.EveryLifeOccurs | src/grpc/server.cpp:27-30 | conversely every life of a frame of any kind occurs in some run |
| FrameSystem.DrainedLeavesNothing | include/asyncpp/grpc/task.h:232-286 | a drained queue leaves no live frame: as many releases as frames |
| FrameSystem.CanDrain | include/asyncpp/grpc/task.h:227-287 | no frame is ever stuck: from every reachable state all frames can be freed |
| FrameSystem.ListenerBalance | include/asyncpp/grpc/task.h:227-252 | frames not entered plus frames entered equal seeds plus spawns, in every run |
| Listeners.ListenersConserved | test/task.cpp:15-24 | start-up and serving in one run, with bodies that create one successor first: in every reachable state, frames not entered plus bodies that have not created theirs yet equal the initializers called so far |
| Listeners.ListenersAfterStartup | src/grpc/server.cpp:20-23 | once the barrier is through, they number threads times registered tasks for ever |
| Listeners.ServerRunsFrames | src/grpc/server.cpp:20-22 | a run of the server is a run of its frames, with as many seeds of each kind as initializers of that kind were called |
| Listeners.ListenerServes | test/task.cpp:15-24 | in every reachable state a listening frame can serve a call and be freed, leaving a new listener |
| TaskPromise.Promise.constructor | include/asyncpp/grpc/task.h:256-259 | a new frame listens, with its one tag issued |
| TaskPromise.Promise.ValidMeansBalanced | include/asyncpp/grpc/task.h:222-308 | the lifecycle theorem holds of the log of every promise object |
| TaskPromise.Promise.InitialHandleEvent | include/asyncpp/grpc/task.h:227-254 | both cases of the initial awaiter, also with a hook that calls back at once: a failed listen destroys the frame, a call leaves its message in the request, and the event of a rejection listens on the next context |
| TaskPromise.Promise.OnAuthenticated | include/asyncpp/grpc/task.h:233-245 | starts the body or rejects with the operation of the method kind |
| TaskPromise.Promise.StartGrpcCall | include/asyncpp/grpc/task.h:263-272 | clears the request where there is one and issues the listen tag |
| TaskPromise.Promise.AwaitOp | include/asyncpp/grpc/task.h:104-108 | start hook, then the operation on the current stream, with one tag |
| TaskPromise.Promise.OpHandleEvent | include/asyncpp/grpc/task.h:123-127 | done hook, and the body sees the result of the event |
| TaskPromise.Promise.CoReturn | include/asyncpp/grpc/task.h:218 | what is sent carries the returned status and, if ok, the response assigned last |
| TaskPromise.Promise.BodyThrows | include/asyncpp/grpc/task.h:220 | what is sent carries the status of the exception hook |
| TaskPromise.Promise.FinalSuspend | include/asyncpp/grpc/task.h:289-304 | finish hook, then the finishing operation of the method kind |
| TaskPromise.Promise.FinalHandleEvent | include/asyncpp/grpc/task.h:282-287 | destroys the frame whether or not the event was ok |
| StreamCall.Step | include/asyncpp/grpc/call.h:90-117 | the steps of a call, of its awaiters and of its tear-down |
| StreamCall.StepInv | include/asyncpp/grpc/call.h:90-396 | every step of a disciplined caller, and every event, keeps the call in one of its stages |
| StreamTheorems.CallSafety | include/asyncpp/grpc/call.h:90-117 | over any run: half-close and finish at most once each, neither for a start that failed, and the state freed at most once with nothing outstanding |
| StreamTheorems.FaultIff | include/asyncpp/grpc/call.h:249-397 | a run of a caller that starts once, keeps one read and one write at a time, writes nothing after the half-close and finishes or destroys with nothing outstanding uses an absent stream or the deleted state if and only if it calls `read` or `finish` before `start`, after a start that failed or after `finish` returned: the two operations that do not look |
| StreamTheorems.StepFaults | include/asyncpp/grpc/call.h:249-397 | the same for the next step of any reachable call |
| StreamTheorems.FinishAfterFailedStart | include/asyncpp/grpc/call.h:195-202 | a concrete caller that does: `start` fails and `finish` is called all the same, as a caller would that ignores the result of `start` (test/call.cpp:32-36, 47-52, 61-70) |
| StreamTheorems.CallBalance | include/asyncpp/grpc/call.h:90-133 | at the end: finish exactly once if the start was ok, half-close exactly once if the client writes, freed once with nothing outstanding, for any mix of `finish` and destruction that does not use an absent stream |
| StreamTheorems.OneTagUntilFreed | include/asyncpp/grpc/call.h:90-117 | from destruction to deletion exactly one tag is outstanding and only its event can happen |
| StreamTheorems.TearDownLength | include/asyncpp/grpc/call.h:90-117 | tear-down takes zero, one or two events, by stream and flag, and the last one frees the state |
| StreamLedger.TagLedger | include/asyncpp/grpc/call.h:249-397 | over every run and for every tag: it was asked for as often as its event came plus once if outstanding; `read` and each kind of write ask for their own tag whenever there is a call, `finish` and the destructor for the half-close if the client writes and nothing has half-closed, else for the end |
| StreamLedger.RequestLedger | include/asyncpp/grpc/call.h:90-117 | half-closes and finishes are exactly those these operations asked for |
| StreamLedger.CallTold | include/asyncpp/grpc/call.h:195-202 | whether the call was started, with what result, is still owned, and what `finish` returned, as functions of the run |
| StreamLedger.HalfCloseOnce | include/asyncpp/grpc/call.h:306-363 | `write_last` and `writes_done` with a call half-close once and for all, and after their event `finish` and destruction take one event |
| StreamSessions.SessionGoesThrough | test/call.cpp:25-73 | for each kind, any number of messages and each way to end the call, the session goes through, `finish` returns the server's status, and the state object is freed with the call half-closed and finished once |
| StreamTheorems.FinishOutcome | include/asyncpp/grpc/call.h:373-397 | with a call to finish, on every event sequence `finish` resumes once, with the server's status, or UNKNOWN if the last event failed, whatever the half-close reported |
| StreamTheorems.FinishThenDestroy | include/asyncpp/grpc/call.h:133 | after `finish`, destruction takes no event and asks for nothing more |
| StreamTheorems.SecondHalfCloseIff | include/asyncpp/grpc/call.h:90-104 | in every reachable state, `finish` or destruction half-closes a second time if and only if `write_last`, `writes_done` or the half-close of `finish` is still outstanding, or `finish` has half-closed and waits for its end |
| StreamTheorems.SecondFinishIff | include/asyncpp/grpc/call.h:384-396 | in every reachable state, `finish` or destruction asks for the end a second time if and only if a `finish` that had nothing to half-close is still outstanding |
| StreamTheorems.SecondHalfCloseHappens | include/asyncpp/grpc/call.h:347-353 | a concrete caller that half-closes a second time |
| StreamTheorems.SecondFinishHappens | include/asyncpp/grpc/call.h:90-104 | a concrete server-streaming caller, destroyed while its `finish` waits, for which a second `Finish` is asked |
| StreamingCall.CallState.StartEvent | include/asyncpp/grpc/call.h:195-202 | sets the flag from the event for the kinds that write, and drops the stream if it failed |
| StreamingCall.CallState.WriteSuspend | include/asyncpp/grpc/call.h:277-304 | throws and changes nothing without an active call; otherwise puts its tag on the queue |
| StreamingCall.CallState.WriteLastSuspend | include/asyncpp/grpc/call.h:306-334 | the same; otherwise half-closes once with its own tag |
| StreamingCall.CallState.WritesDoneSuspend | include/asyncpp/grpc/call.h:336-363 | the same; otherwise half-closes once with its own tag |
| StreamingCall.CallState.OperationEvent | include/asyncpp/grpc/call.h:318-324 | the result is that of the event, and the half-closing operations clear the flag |
| StreamingCall.CallState.ReadSuspend | include/asyncpp/grpc/call.h:270 | uses an absent stream exactly if there is no call to read from, and otherwise issues the read |
| StreamingCall.CallState.FinishSuspend | include/asyncpp/grpc/call.h:384-396 | uses an absent stream exactly if there is no call to finish, and otherwise half-closes first if that is still to be made |
| StreamingCall.CallState.FinishEvent | include/asyncpp/grpc/call.h:373-382 | the first event asks for the finish, the second resumes with its result; the stream is always there |
| StreamingCall.CallState.Destructor | include/asyncpp/grpc/call.h:133 | hands the state object to its tear-down |
| StreamingCall.CallState.Destruct | include/asyncpp/grpc/call.h:90-104 | the three ways a tear-down starts |
| StreamingCall.CallState.StateEvent | include/asyncpp/grpc/call.h:108-117 | the state object is still there for each of its events, and deleted by the last |

## Left out

- gRPC itself, channels, protobuf and real threads: only the contract listed under the assumptions.
- `threadsafe_queue`, `ptr_tag` and `ptr_untag`: they belong to another library; a tag is a pair of an object and an index.
- The `AsyncNotifyWhenDone` tag of a task and the `cancelled` event: a frame does not wait for that tag before it is destroyed, so the ownership theorems are about operation tags only. The reset after a rejection does not touch the event either.
- ServerDispatcher.Server.ShutdownQueues: does not model the clearing of the queue and thread vectors or the release of the `::grpc::Server` after the join.
- ClientQueue.ClientCq.EventLoop: on a schedule that neither delivers an event nor shuts down, the wait in `Next` is a return value instead of blocking.
- ServerDispatcher.Server.EventLoop: the same; and it hands out the dispatcher's own events only, while the events of tasks are the actions of `frame_system.dfy`.
- Dispatch.Step: shutting down all queues is the only thing `stop` does here, and the closures' own code is reduced to the pushes it makes.
- Order of calls on a server with several queues: only popping is first in, first out, because two handlers can pop in order and run concurrently.
- FrameSystem.CanDrain: states that draining is possible, not that a fair scheduler drains; a body may go on for ever.
- StreamCall.Step: message contents of reads and writes are not modelled, nor restarting a call after it ended; the flag keeps no meaning once the stream is gone.
- `unary_call`, `grpc_generic_method_awaiter`, `server_builder`'s forwarding setters, `traits.h`, `util.cpp`, `grpc_exception` and `rw_tag.h`: plumbing that would add only easy members.
