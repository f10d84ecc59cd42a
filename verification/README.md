# Concurrent event processing: a verified model

The repository holds several small frameworks that process independent events with
modules. A producer or filter gets data that other producers make; a path runs its filters
in order until one does not keep the event. The single-threaded framework does this by
plain recursion on demand. The TBB framework, which is modelled here, does it with tasks:
every module prefetches what it gets asynchronously, runs once for each event when that is
there, inside a serial queue if its code is not thread safe, and lets go of whoever waits
for it. The project proves that the concurrent framework does what the single-threaded one
does, in every interleaving, for every event of every stream up to the first that fails,
as long as no stream goes on to its next event while a thread of the last one is late; and
what its lock-free parts keep. Where the code falls short, the project says when and shows
it. A serial queue may leave a task behind, which is the only way for a job to get stuck.
And a stream may be reset under a late thread: one that then starts a filter for an event
that did not ask for it, one that lets waiters go before what they wait for is there, or
one that looks at a node that was deleted. The project proves that those three are exactly
what the reset of a stream has to be free of, and which configurations never have them.

Atomics have the default sequentially consistent order, so concurrency is modelled as a
state machine: one action is one atomic access by one of any number of threads, and a run
is any sequence of actions. Theorems about runs hold for every such sequence.

## The parts

* `Basics.dfy`: options, first-recorded-wins, sums used as termination measures.
* `WaitingTaskList.dfy`, `WaitingTaskListTheorems.dfy`, `WaitingTaskListObject.dfy`: the
  lock-free list of waiting tasks, where an adder swaps the head first and writes its link
  afterwards: its accesses, its inductive invariant, what follows, and the object itself.
  `WaitingTaskListRefinement.dfy` shows that it refines the list of `WaitList.dfy`, which
  keeps apart what its users can notice: the closing, the exchange of the head, the second
  look of an adder. `WaitingTaskListReset.dfy` is about a reset under calls in progress.
  `WaitingTaskListRuns.dfy` says what the list does in terms of the accesses of a run alone.
* `SerialTaskQueue.dfy`, `SerialTaskQueueTheorems.dfy`, `SerialTaskQueueRuns.dfy`,
  `SerialTaskQueueObject.dfy`: the serial queue, likewise. `WorkQueue.dfy` is the atomic
  queue that it refines.
* `WaitingTaskHolder.dfy`, `WaitingTaskHolderRuns.dfy`, `WaitingTaskHolderObject.dfy`:
  reference-counted tasks.
* `ModuleGraph.dfy`: the modules of all events in flight as one acyclic graph, and the
  recursive evaluation. `SingleThreaded.dfy` is the single-threaded framework with its
  loops and recursion, proved to compute that evaluation.
* `Scheduler.dfy`: the asynchronous run of modules, paths and events over the atomic lists
  and queues. Its invariant is in `SchedulerPrefetch.dfy` (counts and tokens),
  `SchedulerQueues.dfy`, `SchedulerValues.dfy`, `SchedulerPaths.dfy` (paths and events),
  `SchedulerDemand.dfy` and `SchedulerStarters.dfy` (what is started, and by whom) and
  `SchedulerLists.dfy` (who is still inside a list).
  `SchedulerProgress.dfy` has absence of deadlock and termination for queues that pick
  atomically, `SchedulerServices.dfy` that lists and queues are used only as their
  specifications allow, and `SchedulerOverQueues.dfy` the same jobs over the real queues,
  which can get stuck, and exactly how. `SchedulerObject.dfy` is the shared state as an
  object.
* A stream goes on to its next event while others are in flight: `SchedulerReuse.dfy` (an
  event that has called back, and the reset of its stream), `SchedulerReset.dfy` (the reset
  keeps the invariant), `SchedulerNextEvent.dfy` (exactly when it may be done, and the runs
  of a job with any number of events), `SchedulerUnshared.dfy` (what rules late threads out),
  `SchedulerLateCloser.dfy` (what a late closer does), and two runs written out step by step
  with the help of `SchedulerRuns.dfy`: `SchedulerStraggler.dfy`, with a late start, and
  `SchedulerOvertaken.dfy`, with a late closer.
* `SchedulerTheorems.dfy`: the end-to-end results, for all those runs; `SchedulerProducts.dfy`
  says them of the products themselves. `Agreement.dfy` puts the two frameworks side by side.
* `ThreadTypes.dfy`: queues chosen by thread type and shared between cloned events.
* `FinishSetup.dfy`: the analysis of possible deadlocks before the first event.
* `EventLoop.dfy`, `EventLoopObject.dfy`: concurrent streams drawing event numbers from one
  counter, as in the OpenMP version, which keeps one holder throughout.
* `WholeJob.dfy`, `WholeJobTheorems.dfy`, `WholeJobProgress.dfy`: the event loop and the
  scheduler together, from the first event number to the barrier.

A module's own code is a pure function of the values it gets that puts one product or
throws; an exception is named by the module whose code threw it. A filter's decision is
its product, 0 for not keeping the event. The graph is acyclic, as a number that falls
along every getter says.

The list, the queue, the job and the event loop are also objects that are updated in place,
with one method for each access. Such an object is valid when it has the invariant that
the theorems about its runs rest on, and every method keeps it. The holders' methods are
several accesses each, as one thread sees them that nobody interrupts.

What callers owe is required where the code relies on it: `doneWaiting` is called once
between two resets, each `resume` balances a `pause`, a queued task and a waiting holder are
objects of their own, a holder that is copied holds a task, and for the analysis of
`FinishSetup.dfy` every label got is that of a producer (asserted or dereferenced by the
code), producers have different numbers (given out by one counter), and the job is acyclic.

## Where code and comments differ

* A push can leave its task unstarted although nothing is paused, when another call of
  `pickNextTask` is between its failed second pop and the clear at line 114
  (`TBBProcessingDemo/TBBFrameworkCore/SerialTaskQueue.cpp:108-115`): the model follows the
  code, exhibits such a run, and proves that this is the only cause.
* `recursivelyCheckPrefetchItems` notes a producer before it goes on to it, and so turns
  back at once: it finds the direct prefetches only
  (`TBBProcessingDemo/TBBFrameworkCore/EventProcessor.cpp:116-124`). The model follows the
  code, and the list of modules to ask for early is exact for that set.
* The counter of `createNode` has 32 bits and wraps: the results about the list are for at
  most 2^32 nodes between two resets.
* A stream is reset when its event has called back
  (`TBBProcessingDemo/TBBFrameworkCore/EventProcessor.cpp:188-205`), but the callback does
  not wait for every thread that is still busy with the event:
  * one that has added its task to a filter's list and has still to exchange
    `m_workStarted` (`TBBProcessingDemo/TBBFrameworkCore/ModuleWrapper.cpp:116-125`), when
    another path or consumer started the filter meanwhile. After the reset its exchange
    starts the filter for the next event. `StragglerRuns` is such a run;
  * one in `doneWaiting` that has cleared `m_waiting` and has still to exchange the head
    (`TBBProcessingDemo/TBBFrameworkCore/WaitingTaskList.cpp:97` and `128`), when an adder
    that rechecks (`:78-86`) has let everybody go in its place. After the reset it takes
    whoever joined for the next event and lets them go, before the module has worked:
    `CloserRuns` ends with the failed assertion of
    `TBBProcessingDemo/TBBFrameworkCore/Event.cpp:86-103`, and `LateTakeBites` says that
    such a thread can always do so;
  * one that has let its last waiter go and has still to read `m_fromCache` of the node
    (`TBBProcessingDemo/TBBFrameworkCore/WaitingTaskList.cpp:117`), when more nodes were
    used than the cache has, two at first, and `reset` deletes it (`:19-37`).
  `FreshExactly` says that the reset is right if and only if there is none of them, and
  `UnsharedIsSafe` for which configurations there never is. The results about jobs with
  several events on a stream are for streams that go on when there is none.
* A task's exception is never cleared, also when the task is used again
  (`TBBProcessingDemo/TBBFrameworkCore/WaitingTask.h:25-43`). This does not matter: a stream
  goes on only after an event without an exception, and `NeededWentWell` says that then none
  of its tasks has one.

## Model

| member | source | states |
|---|---|---|
| `WaitingTaskListRuns.NoLostWakeup` | TBBProcessingDemo/TBBFrameworkCore/WaitingTaskList.cpp:58-130 | For any number of concurrent `add` calls and one `doneWaiting` between two resets: when all calls have returned the head is null, no node is leaked, and everybody who called `add` in the run was let go exactly once, with the very argument of the call of `doneWaiting` between the same resets. |
| `WaitingTaskListTheorems.HeadWillBeAnnounced` | TBBProcessingDemo/TBBFrameworkCore/WaitingTaskList.cpp:66-86 | The argument of the comment at lines 72-83: once `doneWaiting` has taken the head, a non-null head tops a chain whose bottom node's adder linked to null and has still to recheck or announce. |
| `WaitingTaskListRuns.NeverEarlyNeverTwice` | TBBProcessingDemo/TBBFrameworkCore/WaitingTaskList.cpp:58-130 | At every moment of every run whoever called `add` has been let go at most once, not before `doneWaiting` was called between the same resets, and with the argument of that call. |
| `WaitingTaskListRuns.NobodyElse` | TBBProcessingDemo/TBBFrameworkCore/WaitingTaskList.cpp:58-130 | Nobody is let go who did not call `add`. |
| `WaitingTaskListRuns.ClosesAsGiven` | TBBProcessingDemo/TBBFrameworkCore/WaitingTaskList.cpp:125-129 | The step that closes the list for its users closes it with the argument of the call of `doneWaiting`. |
| `WaitingTaskListRuns.HeapExactly` | TBBProcessingDemo/TBBFrameworkCore/WaitingTaskList.cpp:26-36 | What the growth at a reset is for: `add` takes a node from the heap exactly when as many nodes were taken since the last reset as the cache had at first, or as the most that were taken between two resets before. |
| `WaitingTaskListTheorems.ResetAssertion` | TBBProcessingDemo/TBBFrameworkCore/WaitingTaskList.cpp:19-37 | The assertion of `reset` on the head, for a list without calls in progress, holds if and only if `doneWaiting` was called or nothing was added since the last reset. |
| `WaitingTaskListTheorems.ListIntegrity` | TBBProcessingDemo/TBBFrameworkCore/WaitingTaskList.cpp:39-122 | Logical links (what the adder is about to write, else what is stored) from the head and from every announcer's cursor form disjoint chains without repetition that end in null; a node points to itself exactly while its adder has its link to write. |
| `WaitingTaskListTheorems.MemorySafe` | TBBProcessingDemo/TBBFrameworkCore/WaitingTaskList.cpp:39-122 | No access of any call touches a node that is not allocated. |
| `WaitingTaskListTheorems.DeleteIsFinal` | TBBProcessingDemo/TBBFrameworkCore/WaitingTaskList.cpp:117-119 | When a node is about to be deleted, or to go back to the cache of this epoch, it is not the head, no other call of the epoch is about to touch it, and no chain contains it or links to it. |
| `WaitingTaskListTheorems.NoNodeTwice` | TBBProcessingDemo/TBBFrameworkCore/WaitingTaskList.cpp:42-50 | Between two resets no cached node goes to two calls, and no heap address to a second call before the first one's holder was let go. |
| `WaitingTaskListTheorems.IndexWraps` | TBBProcessingDemo/TBBFrameworkCore/WaitingTaskList.cpp:42-45 | Arithmetic of the 32-bit index: the first n values that the counter gives are all different if and only if n is at most 2^32. Nothing is said here about a list whose counter has wrapped. |
| `WaitingTaskListTheorems.SpinnerWaitsForLink` | TBBProcessingDemo/TBBFrameworkCore/WaitingTaskList.cpp:104-106 | A spinning announcer waits for the link write of another call, which is never itself spinning and can always make that write. |
| `WaitingTaskListTheorems.NeverStuck` | TBBProcessingDemo/TBBFrameworkCore/WaitingTaskList.cpp:58-130 | A call in progress can always make its next access. |
| `WaitingTaskListTheorems.AdvanceLowersMeasure` | TBBProcessingDemo/TBBFrameworkCore/WaitingTaskList.cpp:58-130 | Every access that is not a spin lowers a measure over all calls in progress. |
| `WaitingTaskListTheorems.Progress` | TBBProcessingDemo/TBBFrameworkCore/WaitingTaskList.cpp:58-130 | While a call is in progress some call can make an access that is not a spin and lowers the measure: all calls end. |
| `WaitingTaskListRefinements.RefinesWaitList` | TBBProcessingDemo/TBBFrameworkCore/WaitingTaskList.cpp:19-130 | Every access of every call, and every reset of a settled list, is a step of the list of WaitList.dfy, or is invisible there: joins, second looks, the closing, the exchange of the head, and letting a waiter go only after closing, when it was taken from the head, and with the exception it was closed with. |
| `WaitingTaskListResets.ResetExactly` | TBBProcessingDemo/TBBFrameworkCore/WaitingTaskList.cpp:19-37 | When `doneWaiting` has been called and every holder let go, calls may still be in progress. After a reset then, whatever is done with the list, no holder is let go before `doneWaiting` of its epoch and no freed memory is touched, if and only if no call has still to exchange the head and none has still to look at a node of a cache that this reset deletes. |
| `WaitingTaskListResets.LateTakeRuns` | TBBProcessingDemo/TBBFrameworkCore/WaitingTaskList.cpp:78-97 | There is such a run: an adder that rechecks overtakes `doneWaiting` between its store to `m_waiting` and its exchange of the head, lets everybody go and returns. |
| `WaitingTaskListTheorems.StepKeepsInv` | TBBProcessingDemo/TBBFrameworkCore/WaitingTaskList.cpp:19-130 | The inductive invariant is kept by every access of every call, by new calls and by a reset of a settled list. |
| `WaitingTaskListObjects.WaitingTaskList.constructor` | TBBProcessingDemo/TBBFrameworkCore/WaitingTaskList.h:35-45 | A new list is the initial state, with the given number of cached nodes. |
| `WaitingTaskListObjects.WaitingTaskList.BeginAdd` | TBBProcessingDemo/TBBFrameworkCore/WaitingTaskList.cpp:60-61 | A call of `add` is about to read `m_waiting`. |
| `WaitingTaskListObjects.WaitingTaskList.BeginDoneWaiting` | TBBProcessingDemo/TBBFrameworkCore/WaitingTaskList.cpp:125-127 | The one call of `doneWaiting` of an epoch is about to store the argument it was given. |
| `WaitingTaskListObjects.WaitingTaskList.CheckWaiting` | TBBProcessingDemo/TBBFrameworkCore/WaitingTaskList.cpp:61 | The first test of `add`: create a node, or let the holder go at once. |
| `WaitingTaskListObjects.WaitingTaskList.LetGoAtOnce` | TBBProcessingDemo/TBBFrameworkCore/WaitingTaskList.cpp:61-64 | On a closed list the holder is let go, its only time, with `m_exceptionPtr`. |
| `WaitingTaskListObjects.WaitingTaskList.CreateNode` | TBBProcessingDemo/TBBFrameworkCore/WaitingTaskList.cpp:42-50 | One increment of the 32-bit counter picks a cached node or a new one from the heap; the list stays valid unless this wraps the counter. |
| `WaitingTaskListObjects.WaitingTaskList.InitNode` | TBBProcessingDemo/TBBFrameworkCore/WaitingTaskList.cpp:51-55 | The node gets its task and a link to itself. |
| `WaitingTaskListObjects.WaitingTaskList.ExchangeHead` | TBBProcessingDemo/TBBFrameworkCore/WaitingTaskList.cpp:69 | The new node becomes the head, the old head is kept in a local. |
| `WaitingTaskListObjects.WaitingTaskList.SetNextNode` | TBBProcessingDemo/TBBFrameworkCore/WaitingTaskList.cpp:70-77 | The link is written after the exchange; only a call that linked to null goes on to recheck. |
| `WaitingTaskListObjects.WaitingTaskList.RecheckWaiting` | TBBProcessingDemo/TBBFrameworkCore/WaitingTaskList.cpp:78-86 | The second test of `m_waiting`, which may make the adder an announcer. |
| `WaitingTaskListObjects.WaitingTaskList.StoreException` | TBBProcessingDemo/TBBFrameworkCore/WaitingTaskList.cpp:127 | The exception is stored before `m_waiting` is cleared. |
| `WaitingTaskListObjects.WaitingTaskList.ClearWaiting` | TBBProcessingDemo/TBBFrameworkCore/WaitingTaskList.cpp:128 | `m_waiting` is cleared, then the caller announces. |
| `WaitingTaskListObjects.WaitingTaskList.TakeChain` | TBBProcessingDemo/TBBFrameworkCore/WaitingTaskList.cpp:97 | The announcer takes the whole chain and leaves null. |
| `WaitingTaskListObjects.WaitingTaskList.FollowLink` | TBBProcessingDemo/TBBFrameworkCore/WaitingTaskList.cpp:99-106 | One read of a node's link: end, spin on a self link, or go on; the call returns only when its whole chain has been announced. |
| `WaitingTaskListObjects.WaitingTaskList.DecrementTask` | TBBProcessingDemo/TBBFrameworkCore/WaitingTaskList.cpp:107-116 | The node's task is let go, its only time, on a closed list, with `m_exceptionPtr`. |
| `WaitingTaskListObjects.WaitingTaskList.DeleteNode` | TBBProcessingDemo/TBBFrameworkCore/WaitingTaskList.cpp:117-120 | A node that is not from the cache is deleted, and the walk goes on. |
| `WaitingTaskListObjects.WaitingTaskList.Reset` | TBBProcessingDemo/TBBFrameworkCore/WaitingTaskList.cpp:19-37 | A settled list, in the sense of ResetExactly, opens again; the cache grows to what the epoch used. |
| `SerialTaskQueueTheorems.MutualExclusion` | TBBProcessingDemo/TBBFrameworkCore/SerialTaskQueue.cpp:42-57 | In every reachable state `m_taskChosen` is true exactly when one agent owns the slot, and no two do, also across a hand-over to another group. |
| `SerialTaskQueueTheorems.FifoConservation` | TBBProcessingDemo/TBBFrameworkCore/SerialTaskQueue.cpp:71-119 | At every step what was pushed equals what was started followed by the queue; what was executed is a prefix of what was started, at most one behind, without repetition, and all of it when no call is in progress. |
| `SerialTaskQueueTheorems.PauseBound` | TBBProcessingDemo/TBBFrameworkCore/SerialTaskQueue.cpp:59-119 | While the pause count is positive, the tasks started since are at most the calls of `pickNextTask` that had read 0 before, each at most one. |
| `SerialTaskQueueRuns.FifoOfRun` | TBBProcessingDemo/TBBFrameworkCore/SerialTaskQueue.cpp:71-119 | What a run pushes, in that order, is what it executes, in that order, followed by at most one task that an agent has and by what is in the queue. |
| `SerialTaskQueueRuns.OwnGroup` | TBBProcessingDemo/TBBFrameworkCore/SerialTaskQueue.cpp:42-57 | Every execution of a task is in the group the task was pushed with. |
| `SerialTaskQueueRuns.HandedOver` | TBBProcessingDemo/TBBFrameworkCore/SerialTaskQueue.cpp:42-57 | A task that is pulled is run on by its agent if the agent works for its group, and otherwise handed over to its group. |
| `SerialTaskQueueRuns.GroupStays` | TBBProcessingDemo/TBBFrameworkCore/SerialTaskQueue.cpp:42-57 | An agent works for another group only from when it begins a task that was handed over to that group. |
| `SerialTaskQueueRuns.PausesAre` | TBBProcessingDemo/TBBFrameworkCore/SerialTaskQueue.cpp:59-69 | The pause count is the number of pauses less the number of resumptions of the run. |
| `SerialTaskQueueRuns.PauseStarts` | TBBProcessingDemo/TBBFrameworkCore/SerialTaskQueue.cpp:95-102 | However long a pause lasts, no more tasks are pulled in it than agents were past their read of the pause count when it began. |
| `SerialTaskQueueRuns.StuckByAccess` | TBBProcessingDemo/TBBFrameworkCore/SerialTaskQueue.cpp:95-119 | With all calls finished, no task running and no pause, tasks are left if and only if some access of the run was the clear at line 114 with a task in the queue and nobody took the flag after it. |
| `SerialTaskQueueRuns.StuckByMiss` | TBBProcessingDemo/TBBFrameworkCore/SerialTaskQueue.cpp:95-119 | And then some call of the run found the flag set although a task was in the queue, while the agent that had set it stood before line 114. |
| `SerialTaskQueueTheorems.StuckExactly` | TBBProcessingDemo/TBBFrameworkCore/SerialTaskQueue.cpp:95-119 | With all calls finished, no task running and no pause, the queue is non-empty if and only if the last clear of `m_taskChosen` was the one at line 114 and left a task there. |
| `SerialTaskQueueTheorems.StuckCause` | TBBProcessingDemo/TBBFrameworkCore/SerialTaskQueue.cpp:95-119 | The cause, in the same states: tasks are left if and only if the last clear was the one at line 114 and, while its agent held the flag for a queue it had found empty, another call found the flag set although a task was there, and returned. |
| `SerialTaskQueueTheorems.TaskLeftBehind` | TBBProcessingDemo/TBBFrameworkCore/SerialTaskQueue.cpp:104-114 | There is such a run: a task pushed while another call is between its second pick and line 114 stays unstarted. |
| `SerialTaskQueueTheorems.AtomicPickLeavesNothing` | TBBProcessingDemo/TBBFrameworkCore/SerialTaskQueue.cpp:95-119 | With `pickNextTask` uninterrupted no run leaves a task behind. |
| `SerialTaskQueueTheorems.RefinesWorkQueue` | TBBProcessingDemo/TBBFrameworkCore/SerialTaskQueue.cpp:42-119 | Every access is a step of the atomic first-in-first-out queue of WorkQueue.dfy, which starts a task only when none is running. |
| `SerialTaskQueueTheorems.StepKeepsInv` | TBBProcessingDemo/TBBFrameworkCore/SerialTaskQueue.cpp:42-119 | The inductive invariant of the queue is kept by every access. |
| `SerialTaskQueueObjects.SerialTaskQueue.constructor` | TBBProcessingDemo/TBBFrameworkCore/SerialTaskQueue.h:68-71 | A new queue is empty, not paused, with the flag clear. |
| `SerialTaskQueueObjects.SerialTaskQueue.PushTask` | TBBProcessingDemo/TBBFrameworkCore/SerialTaskQueue.cpp:79-85 | A task that was not pushed before is appended, then `pickNextTask` begins. |
| `SerialTaskQueueObjects.SerialTaskQueue.PauseQueue` | TBBProcessingDemo/TBBFrameworkCore/SerialTaskQueue.h:91-93 | The pause count rises; the result tells whether it was 0. |
| `SerialTaskQueueObjects.SerialTaskQueue.ResumeQueue` | TBBProcessingDemo/TBBFrameworkCore/SerialTaskQueue.cpp:59-69 | The pause count falls; the result tells whether it reached 0, which begins `pickNextTask`. |
| `SerialTaskQueueObjects.SerialTaskQueue.ReadPauseCount` | TBBProcessingDemo/TBBFrameworkCore/SerialTaskQueue.cpp:98 | `pickNextTask` goes on only if it reads a pause count of 0. |
| `SerialTaskQueueObjects.SerialTaskQueue.CompareExchangeTaskChosen` | TBBProcessingDemo/TBBFrameworkCore/SerialTaskQueue.cpp:98-108 | The flag is taken, in the first or second attempt, or the call returns. |
| `SerialTaskQueueObjects.SerialTaskQueue.TryPop` | TBBProcessingDemo/TBBFrameworkCore/SerialTaskQueue.cpp:99-112 | The oldest task is pulled, and its agent is about to run it if it works for the task's group, and else to hand it over; or nothing is there. |
| `SerialTaskQueueObjects.SerialTaskQueue.ClearTaskChosen` | TBBProcessingDemo/TBBFrameworkCore/SerialTaskQueue.cpp:89-114 | The three clears of the flag: after a task, after the first and after the second empty pop. |
| `SerialTaskQueueObjects.SerialTaskQueue.ReadTasksEmpty` | TBBProcessingDemo/TBBFrameworkCore/SerialTaskQueue.cpp:108 | The test between the two attempts. |
| `SerialTaskQueueObjects.SerialTaskQueue.BeginTask` | TBBProcessingDemo/TBBFrameworkCore/SerialTaskQueue.cpp:44-48 | A task handed to a group begins there. |
| `SerialTaskQueueObjects.SerialTaskQueue.ExecuteTask` | TBBProcessingDemo/TBBFrameworkCore/SerialTaskQueue.cpp:48-50 | A task ends, and its agent turns to `finishedTask`. |
| `WaitingTaskHolders.CountIsOwners` | TBBProcessingDemo/TBBFrameworkCore/WaitingTaskHolder.h:40-114 | In every run of makes, copies, moves, swaps, failures, decrements, releases and executions a task's count equals its live holders plus the list nodes owning it, and nobody owns a task that is gone. |
| `WaitingTaskHolders.LastOneFires` | TBBProcessingDemo/TBBFrameworkCore/WaitingTaskHolder.h:95-107 | A decrement gives the task to its group exactly when its owner is the only one, and never a second time before the task has begun to execute. |
| `WaitingTaskHolders.HeldIsNotScheduled` | TBBProcessingDemo/TBBFrameworkCore/Module.cpp:25-32 | While anybody holds a share of a task it is not scheduled: the holder parameter of `prefetchAsync` keeps the run task back until the loop over the getters ends. |
| `WaitingTaskHolderRuns.FiresWithOffered` | TBBProcessingDemo/TBBFrameworkCore/WaitingTask.h:25-38 | A scheduled task carries an exception if and only if, since it was made, some owner of it was given one to hand on in the run, and then one that some owner was given. |
| `WaitingTaskHolderRuns.RecordedIs` | TBBProcessingDemo/TBBFrameworkCore/WaitingTask.h:25-34 | Which one: that of the first compare-exchange of its pointer in the run. |
| `WaitingTaskHolderRuns.GivenIsTried` | TBBProcessingDemo/TBBFrameworkCore/WaitingTask.h:25-34 | The compare-exchange is made with the exception that the owner was given, and only by one that found the pointer null. |
| `WaitingTaskHolderRuns.ExecutesOnce` | TBBProcessingDemo/TBBFrameworkCore/WaitingTaskHolder.h:95-107 | A task begins to execute once for each time in the run that an owner lets go of it who is the only one, and not before. |
| `WaitingTaskHolderRuns.WhoOwns` | TBBProcessingDemo/TBBFrameworkCore/WaitingTaskHolder.h:40-74 | Making, copying, moving and swapping holders: who has which share afterwards, and that nothing else changes. |
| `WaitingTaskHolderRuns.LetsGoOnce` | TBBProcessingDemo/TBBFrameworkCore/WaitingTaskHolder.h:95-107 | Whoever lets go has no share afterwards, the task has one owner less, and nothing else changes. |
| `WaitingTaskHolders.FirstStays` | TBBProcessingDemo/TBBFrameworkCore/WaitingTask.h:25-34 | The exception recorded first stays, whatever else is offered. |
| `WaitingTaskHolders.AssignedIs` | TBBProcessingDemo/TBBFrameworkCore/WaitingTaskHolder.h:62-67 | Copy assignment, its accesses not interleaved with others, to a holder with or without a task: the holder gets the other's task with a share of it, its old task if any loses one and is scheduled exactly if that was the last, no other task changes, and assigning within one task changes nothing. |
| `WaitingTaskHolders.StepKeepsInv` | TBBProcessingDemo/TBBFrameworkCore/WaitingTaskHolder.h:36-114 | The inductive invariant of the protocol is kept by every access. |
| `WaitingTaskHolderObjects.WaitingTask.DependentTaskFailed` | TBBProcessingDemo/TBBFrameworkCore/WaitingTask.h:25-34 | The first exception wins. |
| `WaitingTaskHolderObjects.WaitingTask.IncrementRefCount` | TBBProcessingDemo/TBBFrameworkCore/TaskBase.h:26 | The caller gets a share; the count stays the number of owners. |
| `WaitingTaskHolderObjects.WaitingTask.DecrementRefCount` | TBBProcessingDemo/TBBFrameworkCore/TaskBase.h:27 | The caller's share goes back, and the result is 0 exactly when nobody owns the task any more. |
| `WaitingTaskHolderObjects.WaitingTaskHolder.constructor` | TBBProcessingDemo/TBBFrameworkCore/WaitingTaskHolder.h:40-43 | The new holder is one more owner of the task. |
| `WaitingTaskHolderObjects.WaitingTaskHolder.Copy` | TBBProcessingDemo/TBBFrameworkCore/WaitingTaskHolder.h:50-54 | The copy is one more owner; its source must hold a task and stays an owner. |
| `WaitingTaskHolderObjects.WaitingTaskHolder.Move` | TBBProcessingDemo/TBBFrameworkCore/WaitingTaskHolder.h:56-60 | The new holder is an owner in place of its source, which is left empty. |
| `WaitingTaskHolderObjects.WaitingTaskHolder.DoneWaiting` | TBBProcessingDemo/TBBFrameworkCore/WaitingTaskHolder.h:95-107 | Records the exception unless there is one; the holder is no owner any more, and the task fires exactly if it was the last. |
| `WaitingTaskHolderObjects.WaitingTaskHolder.Destroy` | TBBProcessingDemo/TBBFrameworkCore/WaitingTaskHolder.h:44-48 | The destructor of a holder that still has a task is `doneWaiting` without an exception. |
| `WaitingTaskHolderObjects.WaitingTaskHolder.Assign` | TBBProcessingDemo/TBBFrameworkCore/WaitingTaskHolder.h:62-67 | Copy assignment, also to itself, to an empty holder, or between holders of one task: the holder is an owner of the other's task, no longer of its old one, which fires exactly if it was the last. |
| `WaitingTaskHolderObjects.WaitingTaskHolder.Swap` | TBBProcessingDemo/TBBFrameworkCore/WaitingTaskHolder.h:64-65 | Two holders swap tasks: each is an owner of the other's task in its place, and no count changes. |
| `WaitingTaskHolderObjects.WaitingTaskHolder.TakeOver` | TBBProcessingDemo/TBBFrameworkCore/WaitingTaskHolder.h:64-67 | The end of both assignments: after the swap the local holder is destroyed with the old task. |
| `WaitingTaskHolderObjects.WaitingTaskHolder.MoveAssign` | TBBProcessingDemo/TBBFrameworkCore/WaitingTaskHolder.h:69-74 | Move assignment: the holder is an owner in place of the source, which is left empty, and its old task is let go as above. |
| `WaitingTaskHolderObjects.WaitingTaskHolder.PresetTaskAsFailed` | TBBProcessingDemo/TBBFrameworkCore/WaitingTaskHolder.h:89-93 | Records an exception and keeps the share. |
| `WaitingTaskHolderObjects.WaitingTaskHolder.TaskHasFailed` | TBBProcessingDemo/TBBFrameworkCore/WaitingTaskHolder.h:77 | Tells whether an exception is recorded. |
| `WaitingTaskHolderObjects.WaitingTaskHolder.ReleaseNoDecrement` | TBBProcessingDemo/TBBFrameworkCore/WaitingTaskHolder.h:110-114 | The share becomes the caller's, with no change of the count. |
| `ModuleGraphs.EvalIs` | SingleThreadedProcessingDemo/SingleThreadedFrameworkCore/Producer.cpp:20-27 | A module has the value v if and only if its own code puts v on the values of what it gets, in the order of its getters, which all are there. |
| `ModuleGraphs.NeedsAreChains` | SingleThreadedProcessingDemo/SingleThreadedFrameworkCore/Module.cpp:27-36 | What has to run for a module is exactly what a chain of getters leads to from it. |
| `ModuleGraphs.InputsAre` | SingleThreadedProcessingDemo/SingleThreadedFrameworkCore/Event.cpp:70-83 | The inputs of a module are there if and only if everything it gets has a value, and are those values in the order of its getters. |
| `ModuleGraphs.CulpritsFail` | SingleThreadedProcessingDemo/SingleThreadedFrameworkCore/Producer.cpp:20-27 | Only a failing module has culprits; each is one that it needs, and threw on inputs that were all there. |
| `ModuleGraphs.NeedsClosed` | SingleThreadedProcessingDemo/SingleThreadedFrameworkCore/Module.cpp:27-36 | What has to run for a module contains what its members get. |
| `ModuleGraphs.NeedsHaveValues` | SingleThreadedProcessingDemo/SingleThreadedFrameworkCore/Producer.cpp:20-27 | If a module has a value, so has everything it needs. |
| `ModuleGraphs.VisitedIs` | SingleThreadedProcessingDemo/SingleThreadedFrameworkCore/Path.cpp:15-24 | The sequential path stops after the first filter that fails or has the product 0, or at its end. |
| `SingleThreaded.Modules.Get` | SingleThreadedProcessingDemo/SingleThreadedFrameworkCore/Event.cpp:70-83 | Gets the evaluation's value, running the producer and what it needs if it was not run, and nothing else. |
| `SingleThreaded.Modules.Prefetch` | SingleThreadedProcessingDemo/SingleThreadedFrameworkCore/Module.cpp:27-36 | After the loop the getters hold the inputs of the evaluation; it stops at the first that fails. |
| `SingleThreaded.Modules.DoProduce` | SingleThreadedProcessingDemo/SingleThreadedFrameworkCore/Producer.cpp:20-27 | Runs the module once after what it gets: the flags grow by exactly what it needs, the product is what the module's own code puts on the products that its getters hold, and it succeeds exactly when the evaluation does. |
| `SingleThreaded.HeldIsPut` | SingleThreadedProcessingDemo/SingleThreadedFrameworkCore/Producer.cpp:20-27 | Between any two calls, what a module holds that has run is what its own code puts when it gets what the modules hold that it gets from, which have run too. |
| `SingleThreaded.Modules.DoFilter` | SingleThreadedProcessingDemo/SingleThreadedFrameworkCore/Filter.cpp:15-24 | Runs the filter only if it has not run, and answers whether it has a product other than 0. |
| `SingleThreaded.Modules.RunPath` | SingleThreadedProcessingDemo/SingleThreadedFrameworkCore/Path.cpp:15-24 | Calls exactly the filters up to the first that does not keep the event, and runs exactly what these need. |
| `SingleThreaded.Modules.ResetFilters` | SingleThreadedProcessingDemo/SingleThreadedFrameworkCore/Path.cpp:26-33 | The filters on the paths forget that they ran, nothing else does. |
| `SingleThreaded.Modules.RunPaths` | SingleThreadedProcessingDemo/SingleThreadedFrameworkCore/Schedule.cpp:22-26 | The loop over the paths runs exactly what the visited filters need, or ends with the first failure. |
| `SingleThreaded.Modules.Process` | SingleThreadedProcessingDemo/SingleThreadedFrameworkCore/Schedule.cpp:18-27 | For an event whose producers were reset: succeeds exactly when no visited filter fails, and then exactly the needed modules have run, once each, with the evaluation's values. |
| `SingleThreaded.ScheduleNeedsAre` | SingleThreadedProcessingDemo/SingleThreadedFrameworkCore/Schedule.cpp:18-27 | What a schedule runs is what some visited filter of some path needs. |
| `SchedulerObjects.Job.constructor` | TBBProcessingDemo/TBBFrameworkCore/ModuleWrapper.cpp:33-40 | Nothing is started, no list closed, no path launched. |
| `SchedulerObjects.Job.FetchAdd` | TBBProcessingDemo/TBBFrameworkCore/ModuleWrapper.cpp:116-118 | `doWorkAsync` for the next getter: the copied holder joins the getter's list, or finds it closed and hands on its exception. |
| `SchedulerObjects.Job.FetchStart` | TBBProcessingDemo/TBBFrameworkCore/ModuleWrapper.cpp:120-124 | The exchange of `m_workStarted`, after the thread is back from `add`: the first to ask starts the module's own prefetching. |
| `SchedulerObjects.Job.FetchEnd` | TBBProcessingDemo/TBBFrameworkCore/Module.cpp:25-32 | The loop's own holder is let go; the run task is scheduled if it was the last. |
| `SchedulerObjects.Job.Execute` | TBBProcessingDemo/TBBFrameworkCore/ModuleWrapper.cpp:89-111 | The run task runs the module at once, or pushes it to its serial queue. |
| `SchedulerObjects.Job.StartQueued` | TBBProcessingDemo/TBBFrameworkCore/ModuleWrapper.cpp:103-106 | A serial queue starts the module at its head, and no other module of the queue is running then. |
| `SchedulerObjects.Job.Gets` | TBBProcessingDemo/TBBFrameworkCore/Event.cpp:86-103 | The loop over the getters reads the product of each module got, in order. |
| `SchedulerObjects.Job.Work` | TBBProcessingDemo/TBBFrameworkCore/ModuleWrapper.cpp:167-175 | The module's own code runs, for the first time, on the values got, unless a prefetch failed, which is so exactly when the evaluation has no inputs for it; it caches what the code puts on the products got, in order, or ends with the exception. |
| `SchedulerObjects.Job.Announce` | TBBProcessingDemo/TBBFrameworkCore/WaitingTaskList.cpp:125-128 | `doneWaiting` stores the exception, if any, and clears `m_waiting` of the module's list, which was open. |
| `SchedulerObjects.Job.Take` | TBBProcessingDemo/TBBFrameworkCore/WaitingTaskList.cpp:97 | Then, as a step of its own, it exchanges the head; nobody leaves the list by that. |
| `SchedulerObjects.Job.Recheck` | TBBProcessingDemo/TBBFrameworkCore/WaitingTaskList.cpp:78-86 | The second look of an adder that linked to null, which exchanges the head if the list was closed meanwhile. |
| `SchedulerObjects.Job.Leave` | TBBProcessingDemo/TBBFrameworkCore/ModuleWrapper.cpp:104-106 | The queued action has returned, and its queue is free. |
| `SchedulerObjects.Job.Release` | TBBProcessingDemo/TBBFrameworkCore/WaitingTaskList.cpp:107-116 | A waiter that was taken from the head, which implies that the list is closed, gets the list's exception, unless it has one, and is let go. |
| `SchedulerObjects.Job.Look` | TBBProcessingDemo/TBBFrameworkCore/WaitingTaskList.cpp:117-119 | The announcer reads `m_fromCache` of the node of whom it let go, and the node is there. |
| `SchedulerObjects.Job.LaunchPath` | TBBProcessingDemo/TBBFrameworkCore/Schedule.cpp:81-85 | When the thread is back from starting one path it starts the next, with a copy of the all-paths-done holder; an empty path is done at once. |
| `SchedulerObjects.Job.LaunchEnd` | TBBProcessingDemo/TBBFrameworkCore/Schedule.cpp:81-85 | When it is back from the last path the holder of `processAsync` is let go. |
| `SchedulerObjects.Job.PathRequest` | TBBProcessingDemo/TBBFrameworkCore/Path.cpp:52-57 | A path reads the fatal error flag before it asks for a filter. |
| `SchedulerObjects.Job.PathAsk` | TBBProcessingDemo/TBBFrameworkCore/Path.cpp:58-63 | The next-filter task joins the filter's list, or finds it closed. |
| `SchedulerObjects.Job.StartFilter` | TBBProcessingDemo/TBBFrameworkCore/ModuleWrapper.cpp:120-124 | The exchange of `m_workStarted` of a filter by one of the threads that asked for it: the first one starts the filter. |
| `SchedulerObjects.Job.PathFire` | TBBProcessingDemo/TBBFrameworkCore/Path.cpp:31-43 | A path goes on only without an exception or fatal error, if the filter kept the event and is not the last. |
| `SchedulerObjects.Job.PathEnd` | TBBProcessingDemo/TBBFrameworkCore/Path.cpp:34-42 | A path hands its exception to the all-paths-done task and lets it go. |
| `SchedulerObjects.Job.EventFire` | TBBProcessingDemo/TBBFrameworkCore/Schedule.cpp:53-60 | The all-paths-done task, all paths being done, sets the fatal error flag if it has an exception, and calls back. |
| `SchedulerPrefetch.StepKeepsPrefetch` | TBBProcessingDemo/TBBFrameworkCore/ModuleWrapper.cpp:89-125 | Every step keeps: a run task's count is its outstanding getters plus its loop's holder, and each token in a list belongs to exactly one getter or path. |
| `SchedulerPrefetch.StepGuarantee` | TBBProcessingDemo/TBBFrameworkCore/ModuleWrapper.cpp:89-177 | No step gives a module a product but its own work, closes its list but its own announcement, or changes an exception that was noted. |
| `SchedulerQueues.StepKeepsQueues` | TBBProcessingDemo/TBBFrameworkCore/ModuleWrapper.cpp:103-106 | Every step keeps: a module is in its queue exactly while queued, and the queue runs a module from its start until it returns. |
| `SchedulerQueues.QueueExcludes` | TBBProcessingDemo/TBBFrameworkCore/SerialTaskQueue.cpp:89-119 | At most one module of a serial queue runs at any time. |
| `SchedulerValues.StepKeepsValues` | TBBProcessingDemo/TBBFrameworkCore/ModuleWrapper.cpp:167-177 | Every step keeps: a module that worked has the evaluation's outcome, an exception noted is one that the evaluation blames, and each module's code ran at most once. |
| `SchedulerValues.ReadsInputs` | TBBProcessingDemo/TBBFrameworkCore/Event.cpp:86-103 | A module about to work reads exactly the inputs of the evaluation; one with a failed prefetch has no inputs there either. |
| `SchedulerPaths.StepKeepsPaths` | TBBProcessingDemo/TBBFrameworkCore/Path.cpp:19-64 | Every step keeps: each path is as far as the evaluation's outcomes of its filters let it be. |
| `SchedulerPaths.StepKeepsEvents` | TBBProcessingDemo/TBBFrameworkCore/Schedule.cpp:53-89 | Every step keeps: the count of an all-paths-done task is the paths under way plus the loop's holder, its exception came from one of them, and the fatal error flag from a finished event. |
| `SchedulerDemand.StepKeepsDemand` | TBBProcessingDemo/TBBFrameworkCore/ModuleWrapper.cpp:116-125 | Every step keeps: only what a requested filter needs is started. |
| `SchedulerLists.StepKeepsLists` | TBBProcessingDemo/TBBFrameworkCore/WaitingTaskList.cpp:58-130 | Every step keeps: nobody is taken from the head of an open list, a closed list with somebody at its head has somebody who will still take them, every thread inside a list is one that goes on to an exchange of `m_workStarted`, and each asker joins once for an event. |
| `SchedulerServices.ListsAreAtomic` | TBBProcessingDemo/TBBFrameworkCore/ModuleWrapper.cpp:116-118 | Every step of the scheduler is, for every wait list, a step of the list of WaitList.dfy that the lock-free list refines. |
| `SchedulerServices.ResetIsAtomic` | TBBProcessingDemo/TBBFrameworkCore/EventProcessor.cpp:188-205 | So is a stream that goes on to its next event without a late thread: each of its lists is reset when it is settled and no adder is inside, the others are left alone. |
| `SchedulerStarters.StepKeepsStarters` | TBBProcessingDemo/TBBFrameworkCore/ModuleWrapper.cpp:116-125 | Every step keeps: a filter that was asked for has been started, or some thread that asked for it is still on its way to the exchange; and the thread that launches paths is never the late one. |
| `SchedulerNextEvent.Reached` | TBBProcessingDemo/TBBFrameworkCore/ModuleWrapper.cpp:89-177 | The whole invariant holds after every sequence of steps of any number of threads, of a job whose streams may have gone on to any number of events, each when no late thread of the last one was left. |
| `SchedulerProgress.NoDeadlock` | TBBProcessingDemo/TBBFrameworkCore/ModuleWrapper.cpp:89-125 | With queues that pick atomically, on an acyclic graph, with shared serial queues and any number of events: no step is left if and only if all events have called back, all paths are done, every started module has ended, and nothing is left in any list, queue or on its way to an exchange. |
| `SchedulerProgress.StepFalls` | TBBProcessingDemo/TBBFrameworkCore/ModuleWrapper.cpp:89-177 | Every step lowers a measure. |
| `SchedulerProgress.RunsEnd` | TBBProcessingDemo/TBBFrameworkCore/ModuleWrapper.cpp:89-177 | A run has at most as many steps as the measure it starts with. |
| `SchedulerProgress.AlwaysCompletes` | TBBProcessingDemo/TBBFrameworkCore/ModuleWrapper.cpp:89-177 | With queues that pick atomically: from every state with the invariant some run completes, no run is longer than the measure, and a run is stuck exactly when it is complete. |
| `SchedulerOverQueues.RefinesScheduler` | TBBProcessingDemo/TBBFrameworkCore/SerialTaskQueue.cpp:42-119 | The job over the real queues, access by access, with any number of events on each stream: every run is a run of the scheduler over the atomic queues with some moves invisible there, and at each moment the atomic queues are what the real ones hold. |
| `SchedulerOverQueues.StuckExactly` | TBBProcessingDemo/TBBFrameworkCore/SerialTaskQueue.cpp:95-119 | Every run of the job over the real queues, with any number of events on each stream, at a point where nothing that is under way goes on: no task runs, and what is under way is not done if and only if some queue holds a task and was last cleared at line 114 with a task in it; in each such queue another call had found the flag set and returned. |
| `SchedulerTheorems.DoneHasOutcome` | TBBProcessingDemo/TBBFrameworkCore/ModuleWrapper.cpp:167-177 | At every moment of every run a finished module has the recursive evaluation's value or a blamed exception, and no other product is cached. |
| `SchedulerTheorems.RunComputes` | TBBProcessingDemo/TBBFrameworkCore/ModuleWrapper.cpp:89-177 | After a complete run exactly what requested filters need has been started and has the evaluation's outcome, and exactly those of it with all inputs ran their code, once each. |
| `SchedulerProducts.HoldsWhatItPuts` | TBBProcessingDemo/TBBFrameworkCore/Event.cpp:86-103 | At every moment of every run, whatever events the streams had before, a cached product is what the module's own code puts on the products that are cached for its getters, in their order. |
| `SchedulerProducts.WasThrown` | TBBProcessingDemo/TBBFrameworkCore/ModuleWrapper.cpp:167-177 | An exception that a module ended with was thrown by the own code of one that it needs, or by its own, on the products that are cached for that one's getters. |
| `SchedulerProducts.StoppedWhere` | TBBProcessingDemo/TBBFrameworkCore/Path.cpp:31-43 | A path that is done without an exception or a fatal error stopped at its end or at the first filter whose product is 0. |
| `SchedulerProducts.RanWorks` | TBBProcessingDemo/TBBFrameworkCore/ModuleWrapper.cpp:167-175 | The modules on record as run are those whose work a run did without a failed prefetch, in that order. |
| `SchedulerTheorems.WasCached` | TBBProcessingDemo/TBBFrameworkCore/Event.cpp:86-103 | The assertion in `get(Getter)` that the product was cached never fails while streams go on without late threads, and the value is the evaluation's. |
| `SchedulerTheorems.FiltersInOrder` | TBBProcessingDemo/TBBFrameworkCore/Path.cpp:31-64 | A path asks for filter k+1 only after filters 0 to k are done with a product other than 0, and never beyond where the sequential path stops. |
| `SchedulerTheorems.PathAgrees` | TBBProcessingDemo/TBBFrameworkCore/Path.cpp:31-43 | A finished path without a fatal error elsewhere, or with an exception, asked for exactly the filters that the sequential path runs. |
| `SchedulerTheorems.AllPathsFirst` | TBBProcessingDemo/TBBFrameworkCore/Schedule.cpp:53-89 | The all-paths-done task is scheduled only after every path of its event is done. |
| `SchedulerTheorems.OnceEach` | TBBProcessingDemo/TBBFrameworkCore/Schedule.cpp:53-89 | From wherever a job has come to until all under way is done, each all-paths-done task and each path's callback fires exactly once unless it has, and each needed module works and announces exactly once unless it has, each other never. |
| `SchedulerTheorems.ExceptionFidelity` | TBBProcessingDemo/TBBFrameworkCore/Schedule.cpp:53-60 | An event's callback gets an exception if and only if a filter requested for it fails, and then one thrown by the own code of a module that such a filter needs, on inputs that were all there. |
| `SchedulerTheorems.FirstExceptionStays` | TBBProcessingDemo/TBBFrameworkCore/WaitingTask.h:25-34 | The first exception of a run task, a list or an event, and the fatal error flag, stay for the rest of the run. |
| `SchedulerTheorems.FatalErrorStops` | TBBProcessingDemo/TBBFrameworkCore/Path.cpp:52-57 | Once the fatal error flag is set no path asks for another filter, except one that had read the flag before. |
| `SchedulerTheorems.FailureReachesWaiters` | TBBProcessingDemo/TBBFrameworkCore/WaitingTaskList.cpp:107-116 | Every waiter let go by a failed module has an exception; a path exactly then. |
| `SchedulerTheorems.FailedNeverRuns` | TBBProcessingDemo/TBBFrameworkCore/ModuleWrapper.cpp:167-177 | A module with a failed prefetch never runs its own code, and the evaluation has it fail too. |
| `SchedulerTheorems.ExceptionsAgree` | TBBProcessingDemo/TBBFrameworkCore/Schedule.cpp:53-60 | When all events under way are done, none has an exception if and only if the sequential framework has none for any of them. |
| `SchedulerTheorems.AgreesWithSequential` | TBBProcessingDemo/TBBFrameworkCore/Path.cpp:19-64 | For the events under way, when all are done without exceptions, whatever the interleaving and whatever events the streams had before: the same filters requested, exactly the same modules run, once each, the same values. |
| `SchedulerTheorems.EventAgrees` | TBBProcessingDemo/TBBFrameworkCore/EventProcessor.cpp:188-205 | Already when one event calls back in a job without a fatal error so far, whatever else is in flight and whichever event of its stream it is, streams having gone on without late threads: its paths asked for the filters that the sequential framework runs, and of its stream's modules exactly those have run that it runs, with its values. |
| `SchedulerReuse.NeededWentWell` | TBBProcessingDemo/TBBFrameworkCore/EventProcessor.cpp:192-201 | When an event has called back, every module that a requested filter needs has ended, and if the event has no exception, none of these modules' run tasks holds one, although nothing clears it. |
| `SchedulerReset.ResetKeepsInv` | TBBProcessingDemo/TBBFrameworkCore/EventProcessor.cpp:188-205 | Resetting the stream of an event that called back without an exception, while all others go on, keeps the invariant of the whole job for any next event, provided that no late thread is left: none before an exchange for one of the stream's filters, none that has closed one of its lists and not exchanged the head, and none before a look at a node that the reset deletes. |
| `SchedulerNextEvent.FreshExactly` | TBBProcessingDemo/TBBFrameworkCore/ModuleWrapper.h:35-38 | At every such moment: after the reset the stream's modules are as new, in every continuation start only for a requested filter that needs them, and nobody can be let go by them before they have worked nor a deleted node be looked at, whatever is done with their lists, if and only if no late thread of any of the three kinds is left. |
| `SchedulerUnshared.UnsharedIsSafe` | TBBProcessingDemo/TBBFrameworkCore/ModuleWrapper.cpp:116-125 | No late thread of any kind is ever left if every module of the event is asked for from one place, but that two paths may begin with the same filter: something to be seen in the configuration. |
| `SchedulerLateCloser.LateTakeBites` | TBBProcessingDemo/TBBFrameworkCore/WaitingTaskList.cpp:97-128 | Whenever a stream without stragglers, in a job without a fatal error, is reset although a closer has still to exchange the head of one of its lists, there are a next event and a run of it in which that thread lets a waiter of the module go before the module has worked. |
| `SchedulerOvertaken.CloserRuns` | TBBProcessingDemo/TBBFrameworkCore/Event.cpp:86-103 | There is a job that comes to that, with paths of filters 0, 1 and of filter 2, where 1 and 2 get the same product; in the next event filter 2 runs before the product is there, so that the assertion of `get(Getter)` fails. |
| `SchedulerStraggler.StragglerRuns` | TBBProcessingDemo/TBBFrameworkCore/ModuleWrapper.cpp:116-125 | With two paths of the same two filters there is a run that leaves one, and in the next event, which the first filter rejects, the second filter runs all the same. |
| `Agreement.ProcessEvent` | SingleThreadedProcessingDemo/SingleThreadedFrameworkCore/Schedule.cpp:18-27 | The single-threaded framework run on any event of a job leaves exactly the specification that the concurrent run is compared with. |
| `Agreement.EventIsSequential` | TBBProcessingDemo/TBBFrameworkCore/EventProcessor.cpp:188-205 | Already at the callback of one event, whichever of its stream, in a job without a fatal error so far: of its stream's modules exactly those have run that the single-threaded framework runs for it, with its values. |
| `Agreement.ConcurrentIsSequential` | TBBProcessingDemo/TBBFrameworkCore/Path.cpp:19-64 | When all events under way are done without exceptions, exactly what the single-threaded framework runs for them has run, and its values are there. |
| `WholeJobTheorems.WholeJobIsSequential` | OpenMPProcessingDemo/OpenMPFrameworkCore/EventProcessor.cpp:189-230 | The event loop with the events processed by the scheduler, past the barrier: it rethrows an exception if and only if the single-threaded framework has one for some event given out, and then one thrown by a module that a filter needs which that framework runs for such an event; if not, each event 0 to n-1 was given to one stream, and at its callback exactly those of the stream's modules had run that the single-threaded framework runs for this event, with its values. |
| `WholeJobTheorems.EachEventComputes` | SingleThreadedProcessingDemo/SingleThreadedFrameworkCore/Producer.cpp:20-27 | And at the callback for event i each module that had run held what its own code puts for event i on the products then held for its getters. |
| `WholeJobTheorems.RethrowsFirst` | OpenMPProcessingDemo/OpenMPFrameworkCore/EventProcessor.cpp:195-229 | The exception that is rethrown is that of the first callback in the run that had one. |
| `WholeJobTheorems.RecordedAre` | OpenMPProcessingDemo/OpenMPFrameworkCore/EventProcessor.cpp:195-201 | What these results say was there at the callback for event i is the state in which the run calls back for it. |
| `WholeJobTheorems.EachEventIsSequential` | SingleThreadedProcessingDemo/SingleThreadedFrameworkCore/Schedule.cpp:18-27 | The same against what ProcessEvent, the single-threaded framework itself, leaves behind for event number i. |
| `WholeJobProgress.WaitsExactly` | TBBProcessingDemo/TBBFrameworkCore/EventProcessor.cpp:188-205 | Where streams reset only when no late thread is left, a stream has to wait exactly for those threads; and never where its modules are asked for from one place each. |
| `WholeJobProgress.MoveFalls` | OpenMPProcessingDemo/OpenMPFrameworkCore/EventProcessor.cpp:189-230 | Every move of the whole job lowers the measure of the loop, or leaves the loop alone and lowers that of the events. |
| `WholeJobProgress.JobAlwaysEnds` | OpenMPProcessingDemo/OpenMPFrameworkCore/EventProcessor.cpp:189-230 | Before the barrier there always is a move to make, and from everywhere the job can come to the barrier. |
| `ThreadTypes.ModuleWrapper.constructor` | TBBProcessingDemo/TBBFrameworkCore/ModuleWrapper.cpp:33-40 | A first wrapper chooses its queue by the module's thread type. |
| `ThreadTypes.ModuleWrapper.Clone` | TBBProcessingDemo/TBBFrameworkCore/ModuleWrapper.cpp:42-54 | A clone for another event shares the queue, unless the module is safe between instances. |
| `ThreadTypes.MakeSchedule` | TBBProcessingDemo/TBBFrameworkCore/Schedule.cpp:112-115 | The first schedule's wrappers have the queues of their modules. |
| `ThreadTypes.CloneSchedule` | TBBProcessingDemo/TBBFrameworkCore/Schedule.cpp:33-46 | A cloned schedule's wrappers have the same queues. |
| `ThreadTypes.ThreadTypeGuarantee` | TBBProcessingDemo/TBBFrameworkCore/ModuleWrapper.cpp:23-63 | At every moment, over all events in flight, a module safe only between modules runs for at most one event, and at most one thread-unsafe module runs at all. |
| `ThreadTypes.NeverQueued` | TBBProcessingDemo/TBBFrameworkCore/ModuleWrapper.cpp:23-63 | A module safe between instances never waits for a queue. |
| `FinishSetups.AlternateDependencyPaths` | TBBProcessingDemo/TBBFrameworkCore/EventProcessor.cpp:61-78 | True if and only if a chain of consumers leads from the child to a module that nobody consumes without passing the parent after its first module; ends on every acyclic job. |
| `FinishSetups.AddDependencies` | TBBProcessingDemo/TBBFrameworkCore/EventProcessor.cpp:148-158 | Adds exactly the pairs of a producer and this consumer. |
| `FinishSetups.RecursivelyCheckGetItems` | TBBProcessingDemo/TBBFrameworkCore/EventProcessor.cpp:80-110 | Adds to the accumulator exactly what is selected among all that is reached from the module, although it turns back at modules noted before. |
| `FinishSetups.RecursivelyCheckPrefetchItems` | TBBProcessingDemo/TBBFrameworkCore/EventProcessor.cpp:112-127 | Finds exactly the modules prefetched directly. |
| `FinishSetups.ReachIsChains` | TBBProcessingDemo/TBBFrameworkCore/EventProcessor.cpp:101-108 | What the search reaches is what a chain of getters leads to. |
| `FinishSetups.CorrectPossibleDeadlocks` | TBBProcessingDemo/TBBFrameworkCore/EventProcessor.cpp:129-146 | The module gets, in ascending order, exactly the modules that something it might get is or gets, that have items, are not prefetched by it, and have an alternate chain of consumers. |
| `FinishSetups.EventProcessor.BuildDependencies` | TBBProcessingDemo/TBBFrameworkCore/EventProcessor.cpp:167-174 | The map is exactly the inverse of all getters of all filters and producers, and rises along ranks. |
| `FinishSetups.EventProcessor.FinishSetup` | TBBProcessingDemo/TBBFrameworkCore/EventProcessor.cpp:162-186 | Afterwards every filter and producer has its exact answer, and the processor's lists are empty. |
| `FinishSetups.Module.IsADependentModule` | TBBProcessingDemo/TBBFrameworkCore/Module.cpp:65-69 | The binary search answers membership in the module's list. |
| `FinishSetups.Sorted` | TBBProcessingDemo/TBBFrameworkCore/EventProcessor.cpp:144-145 | The elements of the set, each once, in ascending order. |
| `EventLoops.OneStreamPerEvent` | OpenMPProcessingDemo/OpenMPFrameworkCore/EventProcessor.cpp:189-204 | At every moment: the numbers below n are given out without gaps, no two streams process one event, what is being processed is not done yet, and a stream that draws has finished all it was given. |
| `EventLoops.LoopEnds` | OpenMPProcessingDemo/OpenMPFrameworkCore/EventProcessor.cpp:208-230 | Past the barrier every event given out was drawn exactly once and done exactly once, the counter stands at these plus one for each stream that saw the end, and it rethrows exactly if some stream was stopped by an exception; if none was, every event 0 to n-1 was drawn and done exactly once and the counter stands at n plus the number of streams. |
| `EventLoops.RethrowsFirst` | OpenMPProcessingDemo/OpenMPFrameworkCore/EventProcessor.cpp:195-229 | In every run the exception that is rethrown is the first that a callback of the run was given, and none if none was. |
| `EventLoops.StepFalls` | OpenMPProcessingDemo/OpenMPFrameworkCore/EventProcessor.cpp:189-230 | Every step lowers a measure, so that the loop ends. |
| `EventLoops.GoesOn` | OpenMPProcessingDemo/OpenMPFrameworkCore/EventProcessor.cpp:189-230 | No step is left exactly when processAll is past its barrier. |
| `EventLoopObjects.SimpleSource.SetEventInfo` | TBBProcessingDemo/TBBFrameworkCore/SimpleSource.cpp:19-25 | Gives the next number, and tells whether there is an event of that number. |
| `EventLoopObjects.EventProcessor.constructor` | OpenMPProcessingDemo/OpenMPFrameworkCore/EventProcessor.cpp:208-211 | No event given out, no stream started. |
| `EventLoopObjects.EventProcessor.TakeNext` | OpenMPProcessingDemo/OpenMPFrameworkCore/EventProcessor.cpp:189-204 | The stream processes the event it was given, or is over. |
| `EventLoopObjects.EventProcessor.HandleNextEventAsync` | OpenMPProcessingDemo/OpenMPFrameworkCore/EventProcessor.cpp:195-201 | Called again when an event is done: the stream goes on to the next or is over. |
| `EventLoopObjects.EventProcessor.Start` | OpenMPProcessingDemo/OpenMPFrameworkCore/EventProcessor.cpp:218-223 | The streams are started one after the other, the first schedule's last. |
| `EventLoopObjects.EventProcessor.Join` | OpenMPProcessingDemo/OpenMPFrameworkCore/EventProcessor.cpp:224-230 | The wait is over when all streams are; it rethrows exactly if one of them was stopped by an exception. |
| `EventLoopObjects.EventProcessor.Callback` | OpenMPProcessingDemo/OpenMPFrameworkCore/EventProcessor.cpp:195-201 | After an event the stream draws again, or stops, and the exception it was given is recorded if none was. |

## Left out

- The TBB and OpenMP runtimes: a scheduled task eventually runs once, and `concurrent_queue` is a linearizable first-in-first-out queue.
- WaitingTaskListTheorems.ResetAssertion: for a list without calls in progress; WaitingTaskListResets.ResetExactly is about those that may be.
- What a wait list does after a reset that was not settled, beyond the runs that show it to go wrong.
- Exhausted memory, and reference counts, pause counts and event counters near the limits of their types: they are unbounded numbers in the model; only the counter of the node cache is 32 bits wide.
- `acquire` and modules with external work: an exception thrown there is dropped by the code.
- The TBB version of `processAll`, whose last task can fire before all streams have their holder; the OpenMP loop is modelled instead.
- `isPaused` and the destructor of the serial queue, which uses it: the function answers the opposite of its comment.
- Pauses of a serial queue that serves a job: nothing in the scheduler pauses one.
- Exceptions of queued actions, which the queue swallows: the only actions pushed, the modules' runs, catch their own.
- Producers with several products, and synchronous `get` by label, which asserts at run time; `mightGet` at run time.
- Labels and products as keys of the event's lookup map: a getter is the module it leads to; lookup by label is modelled in FinishSetup.dfy, where the search depends on it.
- Jobs after a reset under a late thread: the runs that show what it does are there, but SchedulerNextEvent.Reached and all results about reachable states, among them SchedulerTheorems.WasCached, EventAgrees, AgreesWithSequential and WholeJobTheorems.WholeJobIsSequential, are for streams that go on without one. The code does not wait for that; where SchedulerUnshared.UnsharedIsSafe applies it does not have to.
- The reset of a stream as accesses of its own: it is one step of the job. Without a late thread no other thread touches the stream's modules during it, except to look at a node that stays.
- The reset of the products of a stream that then finds no more events: its wrappers are left as they are.
- The call stack of a thread: the code runs the prefetch loop of a module inside the call that started it, and the scheduler lets the loop and its starter go on in any order, which allows every run of the code and more.
- SchedulerLateCloser.LateTakeBites: the run it gives is one of the scheduler's, with any order of those steps; SchedulerOvertaken.CloserRuns has a run that keeps the code's.
- The thread that looks again in a list and lets its waiters go before it goes on to its own exchange: the scheduler lets it go on at once, and anybody let those go whom it took.
- SchedulerProgress.NoDeadlock: for queues that pick atomically; SchedulerOverQueues.StuckExactly is the statement for the real ones.
- SchedulerProgress.AlwaysCompletes: for queues that pick atomically, likewise.
- SchedulerObjects.Job.Work: the module's own code with the two writes of its product is one step, since nobody reads the product before the list is closed.
- SchedulerObjects.Job.FetchAdd: on a closed list the record of the exception and the decrement are one step here, and two in WaitingTaskHolder.dfy.
- SchedulerObjects.Job.Release: an announcer's record of the exception and its decrement are one step here, and two in WaitingTaskHolder.dfy.
- SchedulerObjects.Job.PathEnd: the hand-over of the exception and the decrement are one step here, and two in WaitingTaskHolder.dfy.
- WaitingTaskListObjects.WaitingTaskList.LetGoAtOnce: the record of the exception and the decrement are one step here, and two in WaitingTaskHolder.dfy.
- WaitingTaskListObjects.WaitingTaskList.DecrementTask: the record of the exception and the decrement are one step here, and two in WaitingTaskHolder.dfy.
- WaitingTaskHolderObjects.WaitingTask.DependentTaskFailed: the test for null and the compare-exchange are one step here, and two in WaitingTaskHolder.dfy.
- ModuleWrapper, Path and Schedule as objects of their own: in SchedulerObject.dfy they are the elements of sequences of one object, updated in place; aliasing between them is not modelled.
- FinishSetups.RecursivelyCheckGetItems: its two loops, over what might be got and over what is prefetched, are one loop over both in that order.
- The whole job of WholeJob.dfy over the real serial queues: it is over the atomic ones; SchedulerOverQueues.dfy has what the real ones add.
- The event's producers by number, and `mustWaitFor`.
- JSON configuration, factories, busy-wait and sleep modules, timing, main programs and the libdispatch version.
