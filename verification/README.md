# Verification of the event dispatcher

The dispatcher schedules *subtasks*. A subtask belongs to a *main task* and may name other subtasks as
dependencies. When a main task has received its last subtask, all of them are released together into the
ready queue of the main task's priority. An event loop drains the ready queues into a bounded ring, from
which a fixed pool of workers takes subtasks. A worker blocks on each dependency that is not done, calls
the task function, posts the outcome into a one-shot slot, announces completion and counts the subtask at
its main task. A caller fetches an outcome by name; that reaps the slot, the name and the subtask.

This project models these threads as one state machine and proves what holds in every reachable state and
over every run, for any number of callers, any pool size from one on, and any interleaving.
`dafny verify dfyconfig.toml` checks all of it.

## How it is built

The protocol is layered as the program is.

- `Protocol` is the machine: one step for each locked region or single access of `EventDispatcher.hpp`, for
  submitters, event loop, workers and callers that wait for results. The ring and the completion event appear in
  it as an atomic bounded queue and an atomic test. Fields marked as history record what has happened.
  They are read by the guards that keep callers to the assumptions below, and by `Inputs`: what a task
  function ends with, and so what is posted, is a function of the outcomes its dependencies have then.
- `Invariant`, with the modules `Frames`, `WorkerPreserves`, `CallerPreserves`, `ReleasePreserves`,
  `RestPreserves` and `CallPreserves`, is the inductive invariant and the proof that each step keeps it.
- `Safety` has the theorems about every reachable state: dependency order, exactly once, conservation,
  routing of results, counters and removal of main tasks, the scan before the event loop ends, shutdown.
- `History`, `CallerSteps`, `Dependencies`, `Measure`, `Progress`, `Deadlock`, `Standstill`, `Completion`,
  `SingleMain` and `Results` are about progress, with other main tasks in the course of submission
  (`SelfContained`). Workers that block on dependencies can come to a standstill; `StandstillIff` says
  exactly when, `Completion` what every run achieves when they cannot, and `StandstillLasts` that a
  standstill never ends. `Submission` builds the run that submits a main task with any dependency lists,
  `Instances` decides by these lists alone whether it can come to a standstill, and `Tight` builds a
  standstill for every pool size. `Runs` is about runs from the start, in which submitters move like
  everybody else.
- `Moves` says for every thread in every reachable state exactly when it can move. `Calls` runs whole calls of
  `addMainTask` and `addSubTask` from any reachable state to their end, `Asking` those of `getSubTaskResult`,
  `Shutdown` the event loop after `Stop`. `Passes` says when a pass of the event loop ends, and `Jams` builds
  for every pool size one that does not.
- `DispatchOrder` and `EventLoop` are about the order of dispatch, `Evaluate` about its irrelevance: what a
  subtask produces is the sequential evaluation of its dependency graph.
- `RingMachine`, `RingProperties` and `RingLoss` show that the ring with its two semaphores and two mutexes
  is that atomic queue, and what its shutdown does; `RingCalls` shows call by call that `emplace` appends the
  item it is given and `pop` returns the item it removes. `RingQueue` is the ring as an object over its vector.
- `Latch` shows that waiting for a completion event is that atomic test, and has the condition variable as
  an object.
- `IdAllocator` is the id allocator as an object with the history of its operations.
- `EventDispatcher` is the dispatcher as an object: its tables and the main-task, subtask and result objects
  are updated in place, one method for each region, from the allocation of an id to the pop of a subtask and
  its removal. `Refinement` composes these regions into the threads: a dispatcher just made stands for the
  initial state, and whenever a step of the protocol is possible in a reachable state, the region's method
  finds what it requires, and running it on the tables and objects is that step.

`Sequences` and `Modular` hold facts about sequences and about indices that go round.

## What was found

- Take a reachable state in which nothing released waits for a submitter (`SelfContained`: the dependencies of
  released subtasks are released too, no call is about to give up the ready mutex, and `Stop` was not called
  before a released main task was added) and the dependencies of subtasks already dispatched were registered
  before that, as within one main task they always are. From there the pool can come to a standstill if and
  only if the dependencies are cyclic or, at some position of the dispatch order, at least as many subtasks
  before it as there are workers depend, directly or not, on one at or behind it. So acyclic dependencies
  with fewer subtasks that have a later dependency than workers are safe, submission in dependency order
  needs one worker, and for every N a main task of N + 1 subtasks exists that blocks N workers for ever. A
  cycle of registered dependencies leads to a standstill with any number of workers, and one subtask that
  names itself is such a cycle. For a single main task the dependency lists in the order of adding decide, so
  a caller can tell before adding anything (`ListsDecide`).
- The event loop holds the ready mutex while it waits for room in the ring. With the conditions above a pass can
  end if and only if at no position of the dispatch order at least as many subtasks before it as there are
  workers depend on one at or behind it, or on a cycle, while more subtasks than the ring has slots come after
  it. In a pass with such a position the last `addSubTask` of every other main task, however independent, waits
  for the mutex for ever, and `Stop` does not return. For every N a main task of 2N + 1 subtasks does this to N
  workers. Without such a position, and whenever the loop is not in a pass, every call of `addSubTask` can return.
- The order of the three scans of `hasPendingWork`, with each table under its own lock, is sound.
- The lookup of the main task that `addSubTask` dereferences without a check, and the missing-entry
  branches of a worker, are safe: in no run within the assumptions below is the entry missing.
- `RingQueue::IsEmpty` is also true of a full ring. Before `Stop` that has no effect: no `pop` is refused. After `Stop` on a full ring
  `pop` returns false with every item still there, and they stay there; on a ring that is not full all items
  are popped first. The dispatcher reaches its pool's shutdown with an empty ring.

Where code and documentation differ the model follows the code: the dispatcher's own README describes a `wait`
on an rvalue lock (line 115) and a clean-up of ids when a result is fetched (line 84); the code has neither.

## Assumptions

- The pool has at least one worker and a main task at least one subtask.
- Names of main tasks are unique over a run, and so are names of subtasks.
- `addMainTask` has returned before `addSubTask` is called for that main task; no more subtasks are added to a
  main task than its size. Where a theorem says that everything submitted is finished, exactly that many are
  added and the calls have returned (`Submitted`).
- At most one caller fetches the result of a name; it may ask again after it was told that there is none.
- Task functions end, by returning or throwing, and do not call the dispatcher. A task function's outcome is
  a function of its name and of the outcomes its dependencies have when it ends.
- The event loop is started once.

## Model

| member | source | states |
|---|---|---|
| CallPreserves.StepPreserves | EventDispatcher.hpp:25-322 | every step of every thread keeps the invariant that ties tables, counters, queues, program counters and history together |
| CallPreserves.ReachableInv | EventDispatcher.hpp:25-327 | the invariant holds in every reachable state, and no thread ever refers to an object that does not exist |
| Safety.DependencyOrder | EventDispatcher.hpp:38-95 | a started function's registered dependencies have ended before it started, also when getters reaped their names or entries in between |
| Safety.SameMainKnown | EventDispatcher.hpp:290-314 | within one main task every dependency is registered before its dependent is dispatched |
| Safety.SameMainOrder | EventDispatcher.hpp:38-72 | within one main task a dependency's function has ended before its dependent's starts, with no further condition |
| Safety.ChainFalls | EventDispatcher.hpp:38-65 | start times fall along chains of dependencies |
| Safety.NoCycleStarts | EventDispatcher.hpp:38-65 | no subtask on a cycle of registered dependencies ever starts |
| Safety.NoMainCycleStarts | EventDispatcher.hpp:38-65 | no subtask on a dependency cycle within a main task ever starts |
| Safety.ExactlyOnce | EventDispatcher.hpp:67-95 | each function is called at most once, each slot posted at most once, in the order called, posted, completed, done |
| Safety.OneStage | EventDispatcher.hpp:169-185 | each subtask is in exactly one stage: unreleased, queued at one place, with one worker, or finished; nothing is queued twice |
| Safety.ResultRouting | EventDispatcher.hpp:204-253 | what is fetched under a name is what the function registered under that name returned or threw |
| Safety.NothingMissing | EventDispatcher.hpp:30-36 | a worker always finds its subtask, its slot and its main task, and addSubTask the main task it dereferences unchecked |
| Safety.MainCounters | Task.hpp:23-30 | ready_subtasks and completed_subtasks count the subtasks past each increment and never exceed the size |
| Safety.MainRemoval | EventDispatcher.hpp:106-117 | a main task leaves its table only with all subtasks counted, and in every state at most one worker is at its removal |
| Runs.OneRemover | EventDispatcher.hpp:106-117 | over any run only one worker, with one subtask, is ever at the removal of a main task |
| Safety.ReleaseReadsQuietly | EventDispatcher.hpp:306-319 | the list pushed at the release has each of the main task's subtasks once and none of them has been queued or started |
| Safety.ScanIsSound | EventDispatcher.hpp:131-167 | if hasPendingWork returns false, every subtask of every main task added before the scan has run and posted, whatever happened between the three regions |
| Safety.ShutdownIsClean | EventDispatcher.hpp:322-335 | with submission over before Stop, ready queues and ring are empty when the event loop has ended, so the pool is shut down with an empty ring |
| Runs.RegisteredFirst | EventDispatcher.hpp:38-65 | over every run: a dependency of whichever main task that is in sub_tasks before its dependent has been dispatched has ended before that starts |
| Moves.WhoCanMove | EventDispatcher.hpp:25-327 | in every reachable state each thread can move exactly under its own condition: only the ready mutex, a full or empty ring, a dependency not done or a slot not posted keeps anybody |
| Calls.MainCanBeAdded | EventDispatcher.hpp:186-202 | from every reachable state, with any other main tasks there and the loop on or off, a main task with a new name can be added and is then in all its tables, the rest being as it was |
| Calls.AddSubReturns | EventDispatcher.hpp:270-321 | wherever a call of addSubTask is, it can be run to its end; it throws exactly when nobody has added its main task; only the releasing call needs the loop not to be in a pass |
| Calls.SubCanBeAdded | EventDispatcher.hpp:270-321 | so from its beginning in any reachable state, with its name, dependencies and tables as given |
| Passes.PassAlone | EventDispatcher.hpp:169-185 | with room in the ring for all that is ready the loop empties the queues, gives up the mutex and is back at its condition |
| Passes.LoopReturns | EventDispatcher.hpp:125-185 | so from wherever it is: it comes back to its condition or has ended |
| Passes.PassEndsIff | EventDispatcher.hpp:169-185 | with dependencies known before dispatch, cyclic or not, a pass under way can end if and only if there is no jam: no position with as many open subtasks before it as workers and more subtasks behind it than slots |
| Passes.ReleasesIff | EventDispatcher.hpp:306-319 | a call about to release its main task can return if and only if the loop is not in a pass with a jam |
| Passes.JamForEver | EventDispatcher.hpp:169-185 | in such a pass no step of anybody, submissions included, ends it, releases a main task or lets such a call return |
| Jams.JamHappens | EventDispatcher.hpp:172-182 | for every pool size N there is a reachable state after one main task of 2N + 1 subtasks in which the only call of an independent main task hangs for ever, and the loop too |
| Jams.JamListed | EventDispatcher.hpp:169-185 | before anything is taken the dependency lists of a main task decide whether its pass jams |
| Shutdown.LoopEnds | EventDispatcher.hpp:322-327 | after Stop, with submission over and everything through, whatever workers and getters do: the loop moves on at most twelve times and can move as long as it has not ended |
| Shutdown.StopReturns | EventDispatcher.hpp:322-327 | from every reachable state with submission over, acyclic dependencies and fewer late subtasks than workers some run finishes everything and ends the loop after Stop, queues and ring empty |
| Shutdown.StoppedForGood | EventDispatcher.hpp:322-324 | once Stop has been called on a started loop its flag stays down over every run |
| Dependencies.SubmittedReleased | EventDispatcher.hpp:306-319 | once submission is over every subtask has been released |
| Measure.EffortBounded | EventDispatcher.hpp:38-118 | the steps left to do are at most twelve for each subtask and three for each dependency |
| Progress.QuietEffort | EventDispatcher.hpp:25-118 | every step of worker or dispatch lowers what is left to do of the released subtasks, and no step of worker, getter or event loop raises it |
| Progress.LoopDispatches | EventDispatcher.hpp:120-185 | with something ready and room in the ring, the event loop moving alone comes to dispatch, also after Stop |
| Runs.LoopComesRound | EventDispatcher.hpp:120-185 | in any run with something ready at its start, whatever submitters, workers and getters do in between, the loop has dispatched once it has moved on more often than its distance from a dispatch, at most twenty times |
| Runs.LoopGoesOn | EventDispatcher.hpp:120-185 | moving alone the loop moves on any number of times, unless a call keeps its lock or the ring is too small for all that is ready; with an uncompleted subtask in the table it does not end |
| Instances.RoundHappens | EventDispatcher.hpp:120-185 | for every pool size there is a run as LoopComesRound is about |
| Deadlock.BlockedEscapes | EventDispatcher.hpp:57-64 | following the waits of blocked workers leads, without a cycle, to a subtask nobody has taken |
| Deadlock.StuckMeansOpen | EventDispatcher.hpp:57-64 | without progress but with unfinished work at least as many taken subtasks as workers depend on untaken ones |
| Standstill.CrowdedLeadsToStuck | EventDispatcher.hpp:57-64 | from a crowded position some run leads to a state where nothing moves and work is left |
| Standstill.RunToEnd | EventDispatcher.hpp:120-185 | from everywhere some run comes to a state in which nothing can advance any more |
| Standstill.CycleStandsStill | EventDispatcher.hpp:38-65 | with a cycle of registered dependencies some run ends in a standstill, whatever the number of workers |
| Instances.CycleHappens | EventDispatcher.hpp:38-65 | whatever the pool, every main task whose dependency lists have a cycle can be submitted, and then some run ends in a standstill with the subtask on the cycle not started |
| Instances.SelfDependence | EventDispatcher.hpp:38-65 | so for one subtask that names itself |
| Standstill.StandstillIff | EventDispatcher.hpp:38-65 | with dependencies registered before their dependents are dispatched (always so within one main task), a standstill can be reached if and only if they are cyclic or some position of the dispatch order has as many open subtasks before it as there are workers; other main tasks may be in the course of submission |
| Submission.Submit | EventDispatcher.hpp:186-321 | for any dependency lists some run submits one main task of subtasks with these lists: all calls have returned and all subtasks are ready in the order of adding |
| Instances.ListsDecide | EventDispatcher.hpp:38-65 | then a standstill can be reached if and only if the lists are cyclic or, for some p, at least as many of the first p subtasks as there are workers depend, directly or not, on one added later (or on a cycle) |
| Standstill.InFlightProgress | EventDispatcher.hpp:169-185 | in every reachable state, submissions in flight or not: with released, acyclic dependencies and fewer late subtasks than workers, while a released subtask is unfinished a worker can move, the event loop can dispatch, or the call that holds the ready mutex can give it up |
| Standstill.FewLateNeverStuck | EventDispatcher.hpp:169-185 | with fewer late subtasks than workers no later state is a standstill, whatever workers, event loop and getters do, also while other main tasks are being submitted |
| Standstill.TopologicalNeverStuck | ThreadPool.hpp:20-30 | dispatch in dependency order never stands still, with one worker or more |
| Completion.RunsAreBounded | EventDispatcher.hpp:27-118 | every run of workers, event loop and getters has at most twelve steps of dispatch and workers for each released subtask and three for each dependency |
| Runs.EveryRunIsBounded | EventDispatcher.hpp:27-118 | so has every run from the start, with all its submissions, for the subtasks released by its end |
| Completion.InFlightRest | EventDispatcher.hpp:27-118 | in every reachable state in which nothing can advance, submissions in flight or not, with released, acyclic dependencies and fewer late subtasks than workers, every released function has been called once, its slot posted once, and every released main task counted and removed |
| Completion.CompleteRunsFinish | EventDispatcher.hpp:27-118 | with fewer late subtasks than workers every run at whose end nothing can advance any more has finished all that was released, and everything if submission was over |
| Completion.SomeRunFinishes | EventDispatcher.hpp:27-118 | and there is such a run |
| Completion.InFlightFinishes | EventDispatcher.hpp:308-320 | also from a state in which a call holds the ready mutex: it gives it up, and some run from there finishes everything released |
| Completion.EnoughWorkersFinish | ThreadPool.hpp:20-30 | the same, removal of main tasks included, for at most as many released subtasks as workers, whatever their acyclic dependencies |
| Completion.TopologicalFinish | ThreadPool.hpp:20-30 | the same, removal of main tasks included, for dispatch in dependency order and any number of workers |
| Completion.StandstillLasts | EventDispatcher.hpp:57-64 | once all workers wait for what is not done, no later step of anybody, new submissions included, moves a worker |
| SingleMain.OrderIsAddOrder | EventDispatcher.hpp:294-314 | with one main task the dispatch order is the order of adding |
| SingleMain.AddOrderFinish | EventDispatcher.hpp:294-314 | one main task with subtasks added in dependency order finishes and is removed with any number of workers |
| SingleMain.AddOrderRun | EventDispatcher.hpp:294-314 | and some run gets there |
| Tight.BoundIsSharp | EventDispatcher.hpp:57-64 | for every N there is a reachable state of one main task of N + 1 subtasks, the first N depending on the last: each of the N workers is blocked for ever at its wait for that one, which is in the ring; exactly N subtasks are late |
| Results.PostedMeansAvailable | EventDispatcher.hpp:228-237 | a caller at the semaphore of a posted slot is not blocked |
| Results.EveryGetterAnswered | EventDispatcher.hpp:204-253 | when nothing can advance and no getter can move, every getter has its outcome or was told that there is none, unless its subtask has not been released |
| Results.SomeRunAnswers | EventDispatcher.hpp:204-253 | after submission some run finishes everything and answers every getter |
| Asking.CanBeAsked | EventDispatcher.hpp:204-206 | in every reachable state every name can be asked for that was not yet, or was not found |
| Asking.ToldNothingIff | EventDispatcher.hpp:207-226 | a getter is told that there is nothing exactly when no subtask of that name has been entered, or at its second lookup has no slot yet |
| Asking.ResultIsHanded | EventDispatcher.hpp:204-253 | from every reachable state in which a name's slot is posted some run hands out the outcome of its function and takes slot, name and subtask out of their tables |
| Asking.EveryResultIsHanded | EventDispatcher.hpp:204-253 | so, after submission, for the name of every subtask that was added |
| Asking.GetterStaysOver | EventDispatcher.hpp:204-253 | over every run a getter that has begun stays, and keeps what it has got |
| Evaluate.OutcomeIsEvaluation | EventDispatcher.hpp:38-72 | in every reachable state an ended function's outcome is the sequential evaluation of its dependency graph |
| Evaluate.ResultIsEvaluation | functional_tests/test.cc:545-602 | so is every result handed out |
| Evaluate.SchedulesAgree | EventDispatcher.hpp:38-72 | two runs of one program, with pools of any sizes, agree on all that both have computed |
| Evaluate.WithinOneMain | EventDispatcher.hpp:38-72 | a main task with all its dependencies inside needs no further condition for this |
| DispatchOrder.PassesInOrder | EventDispatcher.hpp:169-185 | ring and workers receive the event loop's passes end to end, each falling in priority |
| DispatchOrder.AddOrderKept | EventDispatcher.hpp:310-314 | a main task's subtasks come together among those of their priority, in the order of adding |
| DispatchOrder.FirstInFirstOut | EventDispatcher.hpp:174-183 | along every run the sequence dispatched or ready at one priority only grows at its end |
| EventLoop.StableSortUnique | EventDispatcher.hpp:172-184 | emptying the queues from the highest down is the one stable sort by falling priority |
| EventLoop.FlatIsSort | EventDispatcher.hpp:172-184 | the queues read off end to end, as the protocol does, are that sort of what was pushed |
| EventLoop.PushList | EventDispatcher.hpp:311-314 | a list goes onto one queue whole and in order, the others stay |
| EventLoop.PopFront | EventDispatcher.hpp:178-180 | the front leaves its queue, the others stay |
| EventLoop.ReadyQueues.PushAll | EventDispatcher.hpp:311-314 | with the history of what was pushed, at which priority |
| EventLoop.ReadyQueues.Drain | EventDispatcher.hpp:176-183 | one queue is emitted from its front and left empty, the others stay |
| EventLoop.ReadyQueues.EventLooper | EventDispatcher.hpp:169-185 | a pass emits the stable sort of all pushed since the last and leaves nothing |
| EventDispatcher.EventDispatcher.AllocateMain | EventDispatcher.hpp:188-189 | a call of addMainTask gets an id that no main task has had |
| EventDispatcher.EventDispatcher.AllocateSub | EventDispatcher.hpp:272-273 | a call of addSubTask gets an id that no subtask has had |
| EventDispatcher.EventDispatcher.NameMain | EventDispatcher.hpp:190-193 | the first region of addMainTask leaves the tables as the protocol's step does |
| EventDispatcher.EventDispatcher.WaitMain | EventDispatcher.hpp:194-197 | so does the second |
| EventDispatcher.EventDispatcher.InsertMain | EventDispatcher.hpp:198-201 | so does the third, and the table holds the object given |
| EventDispatcher.EventDispatcher.LookUpMain | EventDispatcher.hpp:275-285 | the main task's id, or none and the call throws |
| EventDispatcher.EventDispatcher.NameSub | EventDispatcher.hpp:286-289 | the name table as the protocol's step leaves it |
| EventDispatcher.EventDispatcher.InsertSub | EventDispatcher.hpp:290-293 | the subtask table likewise, and it holds the object given |
| EventDispatcher.EventDispatcher.ListSub | EventDispatcher.hpp:294-297 | the main task's list likewise |
| EventDispatcher.EventDispatcher.SlotSub | EventDispatcher.hpp:298-301 | a new slot without token or outcome |
| EventDispatcher.EventDispatcher.FindMain | EventDispatcher.hpp:303-305 | the main task object, given that the entry is there |
| EventDispatcher.EventDispatcher.CountReady | EventDispatcher.hpp:306-306 | the counter in the object, and true for exactly the call that the protocol lets release |
| EventDispatcher.EventDispatcher.PushAll | EventDispatcher.hpp:309-314 | the whole list goes onto the ready queue in its order |
| EventDispatcher.EventDispatcher.Unwait | EventDispatcher.hpp:315-318 | the main task leaves the waiting set of its priority |
| EventDispatcher.EventDispatcher.LookUpName | EventDispatcher.hpp:207-215 | the id of a name, or none and the call throws |
| EventDispatcher.EventDispatcher.LookUpSlot | EventDispatcher.hpp:218-226 | the slot of an id, or none and the call throws |
| EventDispatcher.EventDispatcher.PassSlot | EventDispatcher.hpp:228-228 | passes exactly when the slot has a token, and takes it |
| EventDispatcher.EventDispatcher.TakeResult | EventDispatcher.hpp:232-237 | hands out the outcome, empties the slot and erases its entry |
| EventDispatcher.EventDispatcher.EraseName | EventDispatcher.hpp:238-241 | the name's entry goes |
| EventDispatcher.EventDispatcher.EraseSub | EventDispatcher.hpp:242-249 | the subtask's entry goes, the object stays with those that hold it |
| EventDispatcher.EventDispatcher.AnyReady | EventDispatcher.hpp:133-142 | true if and only if some ready queue has an element |
| EventDispatcher.EventDispatcher.AnyWaiting | EventDispatcher.hpp:144-153 | true if and only if some main task waits |
| EventDispatcher.EventDispatcher.AnyUncompleted | EventDispatcher.hpp:155-164 | true if and only if some subtask in the table is not completed |
| EventDispatcher.EventDispatcher.Head | EventDispatcher.hpp:125-125 | the flag at the head of the loop |
| EventDispatcher.EventDispatcher.ScanReady | EventDispatcher.hpp:133-142 | the first region of the scan as the protocol's step, others free to move before the next |
| EventDispatcher.EventDispatcher.ScanWaiting | EventDispatcher.hpp:144-153 | the second region likewise |
| EventDispatcher.EventDispatcher.ScanSubTasks | EventDispatcher.hpp:155-164 | the third likewise |
| EventDispatcher.EventDispatcher.EmitFront | EventDispatcher.hpp:178-182 | the front of a ready queue goes to the ring |
| EventDispatcher.EventDispatcher.Start | EventDispatcher.hpp:120-125 | the flag goes up and the loop is at its condition |
| EventDispatcher.EventDispatcher.Stop | EventDispatcher.hpp:322-324 | the flag goes down |
| EventDispatcher.EventDispatcher.Take | ThreadPool.hpp:20-24 | an idle worker gets the oldest subtask in the pool's queue and its entry leaves it, or there is none |
| EventDispatcher.EventDispatcher.Fetch | EventDispatcher.hpp:29-36 | a worker's subtask object, or none |
| EventDispatcher.EventDispatcher.LookUpDep | EventDispatcher.hpp:40-48 | a dependency's id, or none and it is skipped |
| EventDispatcher.EventDispatcher.FetchDep | EventDispatcher.hpp:49-55 | a dependency's object, or none |
| EventDispatcher.EventDispatcher.TestDone | EventDispatcher.hpp:57-64 | the worker goes on exactly when the dependency is done |
| EventDispatcher.EventDispatcher.Call | EventDispatcher.hpp:67-77 | the task function begins or ends without touching a table |
| EventDispatcher.EventDispatcher.Post | EventDispatcher.hpp:79-89 | outcome and token into the slot, if it is there |
| EventDispatcher.EventDispatcher.MarkCompleted | EventDispatcher.hpp:91-91 | the flag of the subtask object |
| EventDispatcher.EventDispatcher.MarkDone | EventDispatcher.hpp:92-95 | the flag of the completion event |
| EventDispatcher.EventDispatcher.FindOwner | EventDispatcher.hpp:98-104 | the main task object, or none |
| EventDispatcher.EventDispatcher.CountCompleted | EventDispatcher.hpp:106-107 | the counter in the object, and true for exactly the worker that the protocol lets remove it |
| EventDispatcher.EventDispatcher.EraseMain | EventDispatcher.hpp:109-112 | the main task's entry goes |
| EventDispatcher.EventDispatcher.EraseList | EventDispatcher.hpp:113-116 | its list goes |
| Refinement.AddMainMeets | EventDispatcher.hpp:186-202 | until its insertion nothing has been counted at a main task, so the object inserted is as it was made |
| Refinement.AddSubMeets | EventDispatcher.hpp:270-321 | in every reachable state a call of addSubTask that can move has its flags and slot as they were made, its main task listed where it is looked up unchecked, and its object later |
| Refinement.GetMeets | EventDispatcher.hpp:204-253 | a getter that can move past its lookups has its subtask's slot object |
| Refinement.WorkMeets | EventDispatcher.hpp:25-118 | a busy worker has the objects of its subtask, of the dependency it waits for and of its main task, and is blocked only before a dependency that is not done |
| Refinement.Create | EventDispatcher.hpp:330-330 | a dispatcher just made stands for the state from which all runs start |
| Refinement.BeginMainRegion | EventDispatcher.hpp:186-189 | whenever a call of addMainTask can begin, taking its id is the protocol's step and leaves a reachable state |
| Refinement.BeginSubRegion | EventDispatcher.hpp:270-273 | so for a call of addSubTask |
| Refinement.BeginGetRegion | EventDispatcher.hpp:204-206 | so for a getter of any name not asked for, or not found |
| Refinement.StartRegion | EventDispatcher.hpp:120-125 | so for start |
| Refinement.StopRegion | EventDispatcher.hpp:322-324 | so for Stop, in every reachable state |
| Refinement.AddMainTask | EventDispatcher.hpp:186-202 | with nobody in between, the whole call leads from any reachable state in which it can begin to one in which its main task is added |
| Refinement.AddMainRegion | EventDispatcher.hpp:186-202 | whichever region a call of addMainTask is at, it can run it, and running it on the tables is the protocol's next step and leaves a reachable state |
| Refinement.RegisterRegion | EventDispatcher.hpp:270-305 | so for a call of addSubTask up to its lookup of the main task object, in every reachable state |
| Refinement.ReleaseRegion | EventDispatcher.hpp:306-320 | and from its count to the release, which exactly the last call does, with the ready mutex free |
| Refinement.GetRegion | EventDispatcher.hpp:204-253 | so for a getter, which at its slot needs a token |
| Refinement.ScanRegion | EventDispatcher.hpp:125-167 | so for the event loop at its condition, scan by scan, the first with the ready mutex free |
| Refinement.PassRegion | EventDispatcher.hpp:169-185 | and in a pass: it begins at the highest priority, an emission needs room in the ring, an empty queue leads to the next lower one, the lowest back to the condition |
| Refinement.TakeRegion | ThreadPool.hpp:20-24 | so for an idle worker that pops a subtask, given that there is one |
| Refinement.FetchRegion | EventDispatcher.hpp:29-36 | so for a worker that fetches its subtask |
| Refinement.LookUpRegion | EventDispatcher.hpp:38-48 | that looks the next dependency up or calls the function |
| Refinement.WaitRegion | EventDispatcher.hpp:49-65 | that fetches the dependency and, once that is done, passes its wait |
| Refinement.FinishRegion | EventDispatcher.hpp:67-117 | and from the function to the erasures |
| RingMachine.StepKeeps | RingQueue.hpp:20-62 | every step of producers, consumers and Stop keeps the token equations, the contents of the slots and the holders of the two mutexes |
| RingProperties.BoundedFifo | RingQueue.hpp:20-49 | what is read is a prefix of what is written, the slots from head on are the unread rest, never more than the size |
| RingProperties.Accounting | RingQueue.hpp:22-48 | before Stop each slot is free, promised, occupied or about to be announced, and so for items |
| RingProperties.StepRefinesQueue | RingQueue.hpp:29-46 | each step leaves a bounded queue alone, appends to it while there is room, or takes its first item |
| RingProperties.DifferentSlots | RingQueue.hpp:29-46 | a producer and a consumer at their slots are at different slots; only one producer is at a slot |
| RingProperties.OneConsumer | RingQueue.hpp:38-47 | only one consumer is in its critical section |
| RingProperties.StoppedRun | RingQueue.hpp:25-28 | once stop is set nothing is written |
| RingProperties.RejectedIff | RingQueue.hpp:40-43 | a pop that finds stop set returns false if and only if the ring is empty or full |
| RingProperties.DrainedBeforeRejected | RingQueue.hpp:40-46 | if the ring was not full at stop, a pop returns false exactly when every item has been read, in order |
| RingProperties.FullAtStopIsLost | RingQueue.hpp:40-43 | if it was full at stop, no item is ever read again |
| RingLoss.RefusedWithItemsLeft | RingQueue.hpp:40-43 | for every size a run refuses a pop with all slots full |
| RingCalls.StepIsAtomic | RingQueue.hpp:20-49 | against an atomic queue with its calls: emplace begins with the item given and appends that item while there is room and no stop, pop removes the oldest item and returns it, both refuse only after stop |
| RingCalls.PutOnce | RingQueue.hpp:20-35 | over every run a call of emplace(x) carries x to its end: it has appended x once, or is refused, after stop, with nothing appended |
| RingCalls.TakeOnce | RingQueue.hpp:36-49 | over every run a call of pop returns the one item that it has removed, or false, after stop, with nothing removed |
| RingCalls.RefusedOnlyAfterStop | RingQueue.hpp:25-43 | before stop nobody is refused, and pop takes an item also from a full ring |
| RingCalls.CallsBegin | RingQueue.hpp:20-62 | an idle thread can begin a call with any item, and Stop begins once no producer is in its critical section |
| RingCalls.CallsFinish | RingQueue.hpp:20-62 | some run of the calls under way comes to where each has ended or is blocked as BlockedOnlyIf says |
| RingProperties.BlockedOnlyIf | RingQueue.hpp:51-62 | when nothing moves, emplace is blocked only by a full ring and pop only by an empty one, and after Stop neither |
| RingProperties.CallsEnd | RingQueue.hpp:21-62 | every step of a call under way brings all calls nearer to their end |
| RingQueue.RingQueue.Emplace | RingQueue.hpp:20-35 | appends the item, or is refused exactly after Stop, or would block exactly when full |
| RingQueue.RingQueue.Pop | RingQueue.hpp:36-49 | takes the first item, or returns nothing exactly after Stop on an empty or full ring, or would block exactly when empty |
| RingQueue.RingQueue.Stop | RingQueue.hpp:51-62 | sets the flag, posts both semaphores once for each slot and leaves the items |
| RingQueue.RingQueue.IsEmpty | RingQueue.hpp:63-65 | true if and only if the ring is empty or full |
| Latch.StepKeeps | ConditionVariable.hpp:28-62 | every step keeps tokens, count, flag and holders in agreement |
| Latch.TokensMatchWaiters | ConditionVariable.hpp:37-62 | tokens and count together are the registered waiters without a token |
| Latch.PassedOnlyWhenDone | EventDispatcher.hpp:59-64 | no waiter passes or wakes before the event is done |
| Latch.OneTokenEach | EventDispatcher.hpp:92-95 | after notify_all nobody registers and there is one token for each waiter |
| Latch.AllPass | EventDispatcher.hpp:57-64 | no wakeup is lost or stolen: when nothing moves, the event is done and every waiter has passed |
| Latch.RunsAreShort | ConditionVariable.hpp:37-62 | every run has at most ten steps for each waiter and six for the completer |
| Latch.ConditionVariable.Register | ConditionVariable.hpp:53-57 | one more waiter is counted |
| Latch.ConditionVariable.TryPass | ConditionVariable.hpp:59-61 | passes exactly with a token, and takes it |
| Latch.ConditionVariable.NotifyOne | ConditionVariable.hpp:28-35 | one token for one registered waiter, none without |
| Latch.ConditionVariable.NotifyAll | ConditionVariable.hpp:37-44 | a token for every registered waiter |
| IdAllocator.NextIsPeak | IDAllocator.hpp:32-73 | over every run since the last reset: used and recycled ids are disjoint, without repetition, exactly those from start to next, and as many as were ever in use at once |
| IdAllocator.GivenIsFree | IDAllocator.hpp:32-49 | an id is given out only while nobody holds it, and it is no larger than start plus the peak of use |
| IdAllocator.NeverTwice | IDAllocator.hpp:32-73 | between two allocations of one id lies its release |
| IdAllocator.GiftsAreNew | IDAllocator.hpp:80-102 | a batch has as many ids as asked for, all different and none in use before |
| IdAllocator.BatchGives | IDAllocator.hpp:80-102 | a batch gives first what was given back, in its order, then new ids |
| IdAllocator.BatchFrees | IDAllocator.hpp:108-117 | releasing a batch frees each of its ids in use once; the others and repetitions change nothing |
| IdAllocator.BatchQueues | IDAllocator.hpp:108-117 | its ids in use queue up for reuse in their order, each at its first place, behind those given back before |
| IdAllocator.BatchComesBack | IDAllocator.hpp:108-117 | so a batch of different ids in use comes back in its order |
| IdAllocator.BatchRoundTrip | IDAllocator.hpp:80-117 | allocating a batch and releasing it restores the ids in use |
| IdAllocator.IdAllocator.Allocate | IDAllocator.hpp:32-49 | the id given out is the one returned longest ago, else a new one, and comes into use |
| IdAllocator.IdAllocator.Deallocate | IDAllocator.hpp:56-73 | true if and only if the id was in use, which it then is no longer |
| IdAllocator.IdAllocator.AllocateBatch | IDAllocator.hpp:80-102 | the ids of so many single allocations; a negative count throws with nothing changed |
| IdAllocator.IdAllocator.DeallocateBatch | IDAllocator.hpp:108-117 | the state after so many single releases |
| IdAllocator.IdAllocator.IsInUse | IDAllocator.hpp:122-125 | true if and only if the id was made since the last reset and is not recycled |
| IdAllocator.IdAllocator.UsedCount | IDAllocator.hpp:130-133 | with the recycled ids it adds up to the peak of use |
| IdAllocator.IdAllocator.Reset | IDAllocator.hpp:154-160 | a new history begins at the given id |

## Left out

- Mutexes, lock guards and threads: acquiring and releasing a lock is atomic, and threads are the participants of the machines.
- `is_locked` of a mutex, which is cleared after the lock is free and so says nothing about its holder.
- Values of results: an outcome is an opaque value or an opaque error; the casts of `getSubTaskResultAs` and the futures of `enqueue` are not modelled, and moving an object is handing it over.
- Sleeping between passes, memory order, and the data race on the plain flag `completed`: every access is atomic.
- Failing or interrupted semaphore operations, failing thread creation, and overflow: counters and ids of the dispatcher are natural numbers, ids of the allocator integers without bound.
- Uses outside the assumptions above: more subtasks than a main task's size, reused names, two callers for one name, adding while `Stop` runs, task functions that call the dispatcher, starting the event loop again.
- An unregistered dependency is skipped by the worker, as in the code; no order is claimed for it.
- Main-task and subtask ids are taken from the allocators as ever new numbers, which is what they give out as long as nothing is given back; the dispatcher gives nothing back.
- The release reads `main_to_subtasks` without the mutex of that table; it is one step here, under `ready_mutex` only.
- The program's `ThreadPool` has no module of its own: its workers are the workers of the protocol, each subtask it is given runs to its end, exceptions are the error outcomes, and its ring is the ring of the protocol.
- Waiting with a predicate on a condition variable, and which of several waiters of a general condition variable a token wakes: the dispatcher loops over the plain `wait` itself, and only the counting law and the completion event are proved.
- Several calls of `Stop` on one ring in the step machine; the object takes any number.
- Order of destruction of the singleton's members, benchmarks, samples, console output.
- EventDispatcher.EventDispatcher.HasPendingWork: the three scans are joined with nobody in between; with others moving in between they are the three regions, and `Safety.ScanIsSound` is about these.
- A call of addSubTask or of getSubTaskResult, a pass and a worker's closure as one method each: the object has a method for each region, because other threads run between the regions; a thread's own position and local variables go from one region to the next as parameters.
- The pool's ring in the dispatcher object is an atomic queue, a sequence; `RingQueue` has the ring as an object, and `RingProperties` shows that the ring is such a queue.
- The id allocators in the dispatcher object are counters; `IdAllocator` has the object.
