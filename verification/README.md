# McMini: explorer, program model, condition variables and handshake

A Dafny model of the core of McMini, a stateless model checker for pthread programs,
with proofs of what its parts promise one another.

* `Transitions.dfy`, `CvPolicy.dfy`, `SignalAccounting.dfy`, `WakeLaws.dfy`, `CvRuns.dfy`:
  states, what each transition does to them, and the wake policy of condition variables as
  values, with who may leave told by the history.
  `PolicyObject.dfy` and `SharedPolicies.dfy` are the policy as an object that states share
  by reference.
* `Dependency.dfy`, `Independence.dfy`: the double-dispatch tables, the relations they
  hold and what independence guarantees.
* `StateSequence.dfy`, `SequenceObject.dfy`: object histories indexed by each state, as a
  value and as the class that keeps them.
* `ProgramSpec.dfy`, `ProgramSteps.dfy`, `Program.dfy`, `Coordinator.dfy`: the rewindable
  program model, the ownership of its transition objects, and the coordinator that keeps it
  in step with the process.
* `ClockVectors.dfy`, `ExplorerSpec.dfy`, `StackItems.dfy`, `Search.dfy`, `StepClocks.dfy`,
  `Races.dfy`, `SleepSets.dfy`, `ClassicDpor.dfy`: the search, its stack updated in place,
  the clocks it computes, and why it ends, repeats nothing, answers the races it finds and
  may skip sleeping runners.
* `MissedDeadlock.dfy`: a program with a deadlock that the search does not find.
* `FromMain.dfy`, `FoundDeadlock.dfy`: the search of a whole program, from the main thread
  alone, and a program whose deadlock it finds.
* `MutualExclusion.dfy`, `ThreadLifecycle.dfy`, `Enabledness.dfy`: critical sections and
  threads on traces, and which operations a trace enables.
* `RawSemaphore.dfy`, `Handshake.dfy`: the futex semaphore and the handshake between
  scheduler and threads, as atomic steps of any number of threads.
* `ThreadQueue.dfy`: the front/rear linked queue.

The process under test is a function from the schedule executed so far to the next
operation of the runner scheduled last. The clock vectors are computed
as the explorer computes them; the array of runner clocks in a stack item is a map.
A transition object is an address with what it holds; deletion is recorded, and a second one
is a violated precondition.

Where code and documentation differ, the model follows the code:

* `apply_to` reports `disabled` where `modify` reports `undefined`, so no undefined
  operation ever reaches its caller (`include/mcmini/model/transition.hpp:117-123`).
* `happens_before_thread` compares a depth counted from 0 with clocks that an absent entry
  makes 0 and that count from 1 otherwise
  (`src/mcmini/model_checking/algorithms/classic_dpor.cpp:82`, `90`, `269`). So the first step
  comes before everything, the first stack item never gets a backtrack point, and a runner
  other than the smallest is never tried first. A search from the main thread loses nothing
  by that, since nobody else can start; one from a checkpoint (`src/mcmini/mcmini.cpp:381`)
  may miss deadlocks, as in `MissedDeadlock.dfy`.
* A step's clock takes, for each earlier step it depends on, the clock of the step into the
  state where that one was taken, and the last item already has an out-transition then,
  contrary to the comment there
  (`src/mcmini/model_checking/algorithms/classic_dpor.cpp:51-62`).
* Restoring depth 0 leaves the pending steps alone, because the loop guard is computed in
  thirty-two bits (`src/mcmini/model/program.cpp:65-66`). This concerns
  `restore_model_at_depth` by itself: the explorer never returns to depth 0.
* A process that dies in the first step after a backtrack ends `verify_using` with an
  uncaught exception, since only undefined behaviour is caught there
  (`src/mcmini/model_checking/algorithms/classic_dpor.cpp:222-230`). The model returns this
  as the verdict `Aborted`.
* An object discovered over one that a rewind hid leaves a gap in the index table, and the
  next rewind throws (`src/mcmini/model/state_sequence.cpp:154-161`, `203-210`).
* A runner may be both asleep and done, contrary to the comments in `stack_item.hpp`
  (`src/mcmini/model_checking/algorithms/classic_dpor.cpp:293-297`).
* Dependence depends on the order of the arguments (`include/mcmini/misc/ddt.hpp:158-177`).
* The first enabled runner is followed even when it sleeps (`stack_item.hpp:229-235`).
* `create_thread_queue` does not set the counter; every operation keeps its error.

## Model

| member | source | states |
|---|---|---|
| `ClassicDpor.Explorer.VerifyUsing` | src/mcmini/model_checking/algorithms/classic_dpor.cpp:104-233 | from every start and for every target the search ends (the method terminates); no two schedules it completes are equal, each is a maximal run of the program and begins with the smallest runner enabled at the start, the deadlocks reported are exactly the completed schedules that leave an unexited runner behind, a finished search has answered every race along every completed schedule, and, races aside, every pair of steps there that are declared dependent and co-enabled or that do not commute, and one that stops early does so at the depth limit or because the process died in an enabled step |
| `ClassicDpor.Explorer.Explore` | src/mcmini/model_checking/algorithms/classic_dpor.cpp:131-181 | the exploration phase keeps every search invariant and never adds weight, until nobody is enabled, the limit is hit or the process dies |
| `ClassicDpor.Explorer.FollowFirst` | src/mcmini/model_checking/algorithms/classic_dpor.cpp:132-150 | one iteration: the smallest enabled runner takes the next step, the races its step brings are planned for and the stack gets lighter, or the reason to stop is reported |
| `ClassicDpor.Explorer.Backtrack` | src/mcmini/model_checking/algorithms/classic_dpor.cpp:189-231 | the backtrack phase either empties the stack, and then every race is answered, or returns to the last item with a backtrack point, which is never the first, follows it and makes the stack lighter |
| `ClassicDpor.Explorer.AccumulateMaxClockVectorAgainst` | src/mcmini/model_checking/algorithms/classic_dpor.cpp:49-63 | the maximum of the clocks of the items whose out-transition the step depends on, in the stack's order |
| `ClassicDpor.Explorer.DropExhausted` | src/mcmini/model_checking/algorithms/classic_dpor.cpp:189-191 | exactly the items above the last one with a backtrack point are dropped |
| `ClassicDpor.Explorer.ContinueDpor` | src/mcmini/model_checking/algorithms/classic_dpor.cpp:235-242 | the runner followed is enabled, so its execution is never refused; the stack grows by one item, only backtrack sets below change and not the first, and the races that the step brings are handled |
| `ClassicDpor.Explorer.GrowStackAfterRunning` | src/mcmini/model_checking/algorithms/classic_dpor.cpp:244-298 | the stack items become the specified grown items: the runner is asleep and done below, exactly the sleepers whose step is independent of the one taken sleep on, the step is the out-transition of both, and its clock is computed and given to its runner |
| `ClassicDpor.Explorer.DynamicallyUpdateBacktrackSets` | src/mcmini/model_checking/algorithms/classic_dpor.cpp:300-402 | the items become the specified updated items: other runners in id order against the last step, then the last runner down to its latest reversible race |
| `ClassicDpor.Explorer.DynamicallyUpdateBacktrackSetsAtIndex` | src/mcmini/model_checking/algorithms/classic_dpor.cpp:404-444 | one race is handled as specified; there is one if and only if the two steps are declared dependent and co-enabled and the runner's clock has not reached the step, so never at index 0, where nothing changes |
| `ClassicDpor.Explorer.ThreadsRaceAfter` | src/mcmini/model_checking/algorithms/classic_dpor.cpp:93-102 | whether some later step of `q` happens before the next step of `p` |
| `ClassicDpor.Explorer.Report` | src/mcmini/model_checking/algorithms/classic_dpor.cpp:183-187 | what the callbacks see: the schedule is new and complete, and the deadlock verdict is right |
| `StackItems.StackItem.InsertIntoBacktrackSetUnlessCompleted` | include/mcmini/model_checking/algorithms/classic_dpor/stack_item.hpp:167-169 | a runner that is done is not planned again; nothing else changes |
| `StackItems.StackItem.MarkSearched` | include/mcmini/model_checking/algorithms/classic_dpor/stack_item.hpp:181-184 | done and no longer planned; nothing else changes |
| `StackItems.StackItem.BacktrackSetPopFirst` | include/mcmini/model_checking/algorithms/classic_dpor/stack_item.hpp:210-222 | the smallest planned runner is marked and returned, nothing happens on an empty set |
| `StackItems.StackItem.GetFirstEnabledRunner` | include/mcmini/model_checking/algorithms/classic_dpor/stack_item.hpp:229-235 | the smallest enabled runner, or the maximal id when there is none |
| `Search.StepKeepsStack` | src/mcmini/model_checking/algorithms/classic_dpor.cpp:235-298 | one step keeps: path of enabled steps, cached enabled sets right, done within sleep, sleep apart from backtrack, both within enabled, sleepers justified and exactly those done or inherited, and every completed schedule through an item continued with a runner done there |
| `Search.CutKeepsStack` | src/mcmini/model_checking/algorithms/classic_dpor.cpp:189-201 | returning to a lower depth keeps the same invariant |
| `Search.TraceCompletes` | src/mcmini/model_checking/algorithms/classic_dpor.cpp:183-191 | a trace that cannot be continued is a schedule not completed before, and every item below knows it |
| `Search.OthersAreMissed` | src/mcmini/model_checking/algorithms/classic_dpor.cpp:145-146 | a maximal run that begins with any other enabled runner is never completed and never reported as a deadlock |
| `Search.NeverBackToStart` | src/mcmini/model_checking/algorithms/classic_dpor.cpp:189-201 | an item with a backtrack point is never the first, however many runners were enabled there, so depth 0 is never returned to |
| `Search.StepWeighsLess` | src/mcmini/model_checking/algorithms/classic_dpor.cpp:127-232 | a step takes more weight from its level than the next level can gain |
| `Search.RacesAreHandled` | src/mcmini/model_checking/algorithms/classic_dpor.cpp:365-444 | after an update every reversible race of a waiting runner with the last step, and the latest reversible race of the last runner, has a member of E planned or every enabled runner planned or asleep |
| `Races.StepDeals` | src/mcmini/model_checking/algorithms/classic_dpor.cpp:235-242 | one step keeps every race along every path taken so far either answered or planned for at an item still on the stack |
| `Races.TraceDeals` | src/mcmini/model_checking/algorithms/classic_dpor.cpp:189-191 | a race whose item is left was answered: a completed schedule with the same prefix goes on with a member of E, or everyone enabled there ran there or slept, having run from a state below with the same step and only independent steps since |
| `Races.LastTraceAnswers` | src/mcmini/model_checking/algorithms/classic_dpor.cpp:189-191 | so a finished search has answered every race that the updates look at, along the path of every schedule it completed and for the clocks computed along it |
| `Races.RaceIsLater` | src/mcmini/model_checking/algorithms/classic_dpor.cpp:409-411 | none of these races is one with the first step |
| `Races.RunHasPath` | src/mcmini/model_checking/algorithms/classic_dpor.cpp:235-242 | and every completed schedule has such a path |
| `ExplorerSpec.AddBacktrackHandles` | src/mcmini/model_checking/algorithms/classic_dpor.cpp:410-443 | the update at one index handles the race, keeps the set invariant and only adds backtrack points |
| `ExplorerSpec.PathIsRun` | src/mcmini/model_checking/algorithms/classic_dpor.cpp:235-242 | the trace and the moments of the search are what its schedule leads to |
| `ExplorerSpec.FirstStepIsBefore` | src/mcmini/model_checking/algorithms/classic_dpor.cpp:85-91 | whatever the clocks, no race is found with the first step, and an update at index 0 changes nothing |
| `ExplorerSpec.LastStepPlans` | src/mcmini/model_checking/algorithms/classic_dpor.cpp:412-441 | a race with the last step plans the waiting runner itself and nobody else, when it is enabled and awake |
| `ExplorerSpec.WhoLeads` | src/mcmini/model_checking/algorithms/classic_dpor.cpp:93-102 | an enabled runner with a step since that the clock of the waiting one knows of is in the set E |
| `ExplorerSpec.OnlyRacesPlan` | src/mcmini/model_checking/algorithms/classic_dpor.cpp:365-402 | an update changes an item only when somebody races with the step taken there: with the last step, or the latest race of the runner that took it |
| `Races.ContentionIsRace` | src/mcmini/model_checking/algorithms/classic_dpor.cpp:404-411 | while one runner waits and another takes a step, not the first, that is declared dependent on and co-enabled with what the one waiting is about to do, the update after that step finds a race, whatever the clocks, and E is the waiting runner if it is enabled and empty otherwise |
| `Races.ContentionIsAnswered` | src/mcmini/model_checking/algorithms/classic_dpor.cpp:365-444 | so along every schedule of a finished search, wherever that is the case, the waiting runner ran there instead or slept; when it could not run there, this holds of everybody who could |
| `Races.ConflictsAreAnswered` | src/mcmini/model_checking/algorithms/classic_dpor.cpp:65-75 | the same wherever the two steps do not commute in that state, tables and clocks aside: creates name runners not yet started, and the two are not both condition-variable operations |
| `Races.PastContentionIsAnswered` | src/mcmini/model_checking/algorithms/classic_dpor.cpp:384-401 | what a runner is about to do after its own step, against a step of the past that its clock does not know: the race with that step or with a later one was answered |
| `ClockVectors.MaxOf` | src/mcmini/model_checking/algorithms/clock_vector.cpp:9-18 | the pointwise maximum, with an entry for whoever has one in either |
| `ClockVectors.MaxIsLeast` | src/mcmini/model_checking/algorithms/clock_vector.cpp:9-18 | that maximum is the least upper bound when an absent entry reads as zero |
| `StepClocks.StepKeepsClocks` | src/mcmini/model_checking/algorithms/classic_dpor.cpp:261-280 | along the current path the clocks on the stack are those computed step by step: for each earlier dependent step the clock at the depth before it, and the clock of the item left when the step depends on its out-transition, with the depth for its own runner |
| `StepClocks.CutKeepsClocks` | src/mcmini/model_checking/algorithms/classic_dpor.cpp:189-201 | so they are after a return, where the item returned to keeps the step last tried there as its out-transition |
| `StepClocks.ClockIsStep` | src/mcmini/model_checking/algorithms/classic_dpor.cpp:261-271 | every clock entry is zero or the depth right after a step of the runner it is about |
| `StepClocks.ComparisonIsOffByOne` | src/mcmini/model_checking/algorithms/classic_dpor.cpp:85-91 | a step is found to come before a runner if and only if the runner's clock is past it, or it is the first step, or the clock ends right before it and the same runner took the step before |
| `StepClocks.WaitingIsNotAfter` | src/mcmini/model_checking/algorithms/classic_dpor.cpp:85-91 | the step another runner takes is found to come before what a waiting runner does next if and only if it is the first step |
| `SleepSets.SleepersAreCovered` | src/mcmini/model_checking/algorithms/classic_dpor.cpp:283-297 | a sleeper other than the runner being followed was run, in a schedule already completed, from a lower item with the same pending step; running it there and then the steps in between leads to the state that running it now would lead to, if and only if none of these steps and its own are a create that starts again an exited runner and a join on that runner |
| `SleepSets.SearchCoversSleepers` | src/mcmini/model_checking/algorithms/classic_dpor.cpp:283-297 | so it is at every loop head of a search |
| `SleepSets.SwapsWithSteps` | src/mcmini/model_checking/algorithms/classic_dpor.cpp:283-291 | an enabled step stays enabled across independent steps and commutes with all of them, if and only if none is such a create or join together with it |
| `FromMain.VerifyFromMain` | src/mcmini/model/program.cpp:27-35 | the same for a whole program: from the main thread about to start, any threads not yet created and any other objects, for any target that answers for the runner scheduled; every schedule begins with the main thread, and wherever along one the step taken does not commute with what another runner could have done there, that runner did it or slept |
| `FromMain.MainRunsAlone` | src/mcmini/model/program.cpp:27-35 | at the start only the main thread can run |
| `Independence.IndependenceIsValid` | src/mcmini/model_checking/algorithms/classic_dpor.cpp:71-75 | transitions declared independent in either argument order neither enable nor disable each other and reach one state in both orders, if and only if neither is a create that starts again the exited runner the other one joins |
| `Independence.RestartingBreaksIndependence` | include/mcmini/model/transitions/thread/thread_create.hpp:18-33 | a state where the exception arises: a create on an exited runner and an independent join on it that do not commute |
| `Independence.ApplyIsLocal` | include/mcmini/model/transition.hpp:117-123 | the outcome depends only on the objects the transition names |
| `Independence.NeverBothEnabled` | src/mcmini/model_checking/algorithms/classic_dpor.cpp:65-69 | two transitions that are not both condition-variable operations and are declared not co-enabled are never both enabled |
| `Independence.CoenabledIsWrongOnCvs` | src/mcmini/model_checking/algorithms/classic_dpor.cpp:473-502 | two transitions declared not co-enabled can be both enabled in some state if and only if both are condition-variable operations |
| `Independence.SignalMeetsWait` | include/mcmini/model/transitions/condition_variables/condition_variables_signal.hpp:110-123 | counterexample: a signal and a wait on one condition variable declared not co-enabled are both enabled |
| `Dependency.DispatchTable.RegisterPair` | include/mcmini/misc/ddt.hpp:124-156 | a second registration of a pair is refused; otherwise the pair and the mirrored pair are entered, the latter overwriting when the kinds are equal |
| `Dependency.DispatchTable.RegisterKind` | include/mcmini/misc/ddt.hpp:111-122 | a second registration of a kind is refused |
| `Dependency.DefaultDependencies` | src/mcmini/model_checking/algorithms/classic_dpor.cpp:446-471 | the registrations all succeed and leave the stated tables |
| `Dependency.TableIsRelated` | include/mcmini/misc/ddt.hpp:158-177 | looking any two transitions up in the default dependency tables gives the closed-form relation |
| `Dependency.DefaultCoenabledness` | src/mcmini/model_checking/algorithms/classic_dpor.cpp:473-502 | the registrations all succeed and leave the stated tables |
| `Dependency.CoTableIsMayCoexist` | include/mcmini/misc/ddt.hpp:158-177 | looking any two transitions up in the default co-enabledness tables gives the closed-form relation |
| `Dependency.IndependentPairs` | src/mcmini/model_checking/algorithms/classic_dpor.cpp:446-471 | two operations are independent if and only if two threads take them and they are locks, a lock and an initialisation or a lock and a wait on different mutexes, a wait and an initialisation or signal of different condition variables, a signal and a lock whose objects differ, or a create or join that does not name the other thread, where the tables let these be asked |
| `Dependency.NotCoenabledPairs` | src/mcmini/model_checking/algorithms/classic_dpor.cpp:473-502 | two operations of different threads are declared not co-enabled if and only if they are a lock and an unlock of one mutex, two of signal, wait and destroy on one condition variable, a signal and an unlock whose objects have one id, or a create or join that names the other thread, where the tables let these be asked |
| `Dependency.DependenceIsNotSymmetric` | include/mcmini/misc/ddt.hpp:158-177 | the lookup consults the pair entries of the first kind only, so lock against create is dependent and create against lock is not |
| `Program.ProgramModel.ModelExecutionOf` | src/mcmini/model/program.cpp:76-108 | each error case leaves the model untouched; otherwise the pending step joins the trace, its replacement becomes pending and the new state is the step's |
| `Program.ProgramModel.RestoreModelAtDepth` | src/mcmini/model/program.cpp:47-74 | trace, states and pending steps are those of depth `n`, nothing leaks and nothing is deleted twice; at depth 0 the thirty-two-bit guard leaves the pending steps as they are |
| `Program.ProgramModel.StepsSince` | src/mcmini/model/program.cpp:64-67 | the earliest step of each runner at depth `n` or later, and nothing at depth 0 |
| `Program.ProgramModel.ReturnSteps` | src/mcmini/model/program.cpp:69-70 | each such step moves from the trace to the pending map, where it replaces and deletes one object |
| `Program.ProgramModel.CutTrace` | src/mcmini/model/transition_sequence.cpp:12-19 | the tail is deleted once and erased |
| `Program.ProgramModel.GetEnabledRunners` | src/mcmini/model/program.cpp:37-45 | exactly the runners whose pending step is enabled in the latest state |
| `Program.ProgramModel.IsInDeadlock` | src/mcmini/model/program.cpp:129-160 | nobody is enabled and some runner with a pending step has not exited |
| `Program.ProgramModel.DiscoverObject` | src/mcmini/model/program.cpp:110-113 | the latest moment gains the object, every earlier one stays |
| `Program.ProgramModel.DiscoverRunner` | src/mcmini/model/program.cpp:115-127 | the latest moment gains the runner with its first step and an object of its own, every other runner keeps its object, distinct runners keep distinct objects, and every earlier moment stays |
| `ProgramSteps.AdvancedInv` | src/mcmini/model/program.cpp:76-108 | executing keeps the model's invariant, and exactly the new object is handed over |
| `ProgramSteps.RestoredInv` | src/mcmini/model/program.cpp:47-74 | restoring keeps the model's invariant |
| `ProgramSteps.RoundTrip` | src/mcmini/model/program.cpp:47-74 | at depth 1 and above the restored model says what the model said at that depth |
| `ProgramSteps.DepthZero` | src/mcmini/model/program.cpp:64-67 | at depth 0 the restored model is right if and only if every runner that ran is again about to take its first step |
| `ProgramSteps.FirstStepIsLost` | src/mcmini/model/program.cpp:64-67 | once a runner took a first step that it will not repeat next, restoring depth 0 does not bring the model back to its start |
| `ProgramSteps.DiscoveredObjectInv` | src/mcmini/model/program.cpp:110-113 | discovering an object keeps the model's invariant |
| `ProgramSteps.DiscoveredRunnerInv` | src/mcmini/model/program.cpp:115-127 | discovering a runner keeps the model's invariant and hands over one object |
| `ProgramSpec.ExecuteKeepsPending` | src/mcmini/model/program.cpp:107-107 | executing changes nothing about what was pending at earlier depths |
| `ProgramSpec.RestoreKeepsPending` | src/mcmini/model/program.cpp:53-59 | cutting the trace and restoring the steps pending there changes nothing about earlier depths |
| `ProgramSpec.ExtractKeepsOwners` | include/mcmini/model/pending_transitions.hpp:69-78 | handing a step back keeps single ownership, and the object it replaces is the one deleted |
| `ProgramSpec.PushKeepsOwners` | src/mcmini/model/program.cpp:107-107 | moving the executed step to the trace keeps single ownership |
| `StateSequence.FollowRefines` | src/mcmini/model/state_sequence.cpp:321-330 | following appends the latest view overridden by the diff |
| `StateSequence.FollowKeepsViews` | src/mcmini/model/state_sequence.cpp:321-330 | and changes no earlier view |
| `StateSequence.FollowKeepsInv` | src/mcmini/model/state_sequence.cpp:321-330 | and keeps indices in range and monotone along the sequence |
| `StateSequence.TruncateShows` | src/mcmini/model/state_sequence.cpp:194-211 | consuming into a subsequence takes a prefix of the plain list of states |
| `StateSequence.AddObjectViews` | src/mcmini/model/state_sequence.cpp:154-161 | adding an object changes no earlier view and the latest only by that object |
| `StateSequence.AddObjectDense` | src/mcmini/model/state_sequence.cpp:154-161 | the index table stays free of gaps if and only if the latest element knew every object |
| `StateSequence.AddRunnerViews` | src/mcmini/model/state_sequence.cpp:163-169 | adding a runner changes no earlier view |
| `StateSequence.AddRunnerLatest` | src/mcmini/model/state_sequence.cpp:163-169 | the latest view gains the object of the new runner, and of the runners the first one it did not know; that is the new one if and only if it knew all others |
| `StateSequence.NewRunnerIsKnown` | src/mcmini/model/state_sequence.cpp:163-169 | so where all others are known the new runner is, with its own state, and distinct runners keep distinct objects |
| `StateSequence.RewindThrowsOnGap` | src/mcmini/model/state_sequence.cpp:203-210 | rewinding throws if and only if the element returned to has a gap in its table, since containment compares with the table's size |
| `StateSequence.RediscoveryBreaksRewinding` | src/mcmini/model/state_sequence.cpp:154-161 | counterexample: an object found, hidden by a rewind, and another found before it reappears make the next rewind throw |
| `SequenceObject.StateSeq.constructor` | src/mcmini/model/state_sequence.cpp:78-89 | the initial state is shown and every object and runner is known |
| `SequenceObject.StateSeq.Commit` | src/mcmini/model/state_sequence.cpp:321-330 | the state after the loops is the specified one |
| `SequenceObject.StateSeq.AddObject` | src/mcmini/model/state_sequence.cpp:154-161 | the new id is the number of objects and the state is the specified one |
| `SequenceObject.StateSeq.AddRunner` | src/mcmini/model/state_sequence.cpp:163-169 | the new id is the number of runners, and where all others are known the latest state knows the new one by an object of its own that is as given |
| `SequenceObject.StateSeq.ConsumeIntoSubsequence` | src/mcmini/model/state_sequence.cpp:194-211 | nothing when the sequence is short enough; otherwise the truncation, or failure exactly where the original throws |
| `SequenceObject.StateSeq.SliceAll` | src/mcmini/visible_object.cpp:7-11 | each history is cut after the index the element holds |
| `Coordinator.Coordinator.ExecuteRunner` | src/mcmini/coordinator/coordinator.cpp:35-85 | the process and the model take the same step; a dead process, a foreign step and a disabled step are told apart |
| `Coordinator.Coordinator.ReturnToDepth` | src/mcmini/coordinator/coordinator.cpp:87-103 | the new process has executed exactly the trace the model was rewound to, and the two are in step; above depth 0 from the same start, at depth 0 from one where the steps pending now replace the first ones |
| `Coordinator.AfterInStep` | src/mcmini/coordinator/coordinator.cpp:75-75 | executing an enabled step keeps the model and the process in step |
| `Coordinator.RestoredInStep` | src/mcmini/coordinator/coordinator.cpp:95-98 | rewinding to depth 1 or more keeps them in step |
| `Coordinator.RestoredToStart` | src/mcmini/coordinator/coordinator.cpp:95-98 | rewinding to depth 0 leaves the model in step with a new process as far as the model can tell, that is from a start with the steps pending then |
| `MissedDeadlock.VerifyIt` | src/mcmini/mcmini.cpp:325-381 | a real failing input: a search from a checkpoint with two threads about to lock one mutex finishes and reports no deadlock, although the program deadlocks when the second thread comes first |
| `MissedDeadlock.DeadlockIsMissed` | src/mcmini/model_checking/algorithms/classic_dpor.cpp:145-146 | whatever depth limit and clocks such a search has, it reports no deadlock and never completes that schedule |
| `MissedDeadlock.RunIsByCounts` | src/mcmini/mcmini.cpp:325-381 | every run of that program leads where the numbers of steps of its two threads say |
| `FoundDeadlock.VerifyIt` | src/mcmini/model/program.cpp:27-35 | the same two threads, created by a main thread: the search from the main thread finishes and reports the deadlock in which one waits for the mutex that the other, waiting for it to exit, holds |
| `FoundDeadlock.DeadlockIsCompleted` | src/mcmini/model_checking/algorithms/classic_dpor.cpp:404-444 | whatever such a search completes, one of its schedules leads there |
| `FoundDeadlock.RunIsByCounts` | src/mcmini/model/program.cpp:27-35 | every run of that program leads where the numbers of steps of its three threads say |
| `CvPolicy.RunKeepsInv` | src/mcmini/model/cond_var_default_policy.cpp:8-78 | in every run the wake groups form a chain within the queue, and threads freed by a broadcast are in no group and not queued |
| `CvPolicy.BroadcastPassLasts` | src/mcmini/model/cond_var_default_policy.cpp:31-64 | a thread freed by a broadcast can exit until it does |
| `CvPolicy.FirstFitIsOptimal` | src/mcmini/model/cond_var_default_policy.cpp:48-78 | distinct threads not freed by a broadcast can all be woken in a given order if and only if they can be assigned to distinct groups containing them |
| `CvPolicy.FirstFitNeedsNesting` | src/mcmini/model/cond_var_default_policy.cpp:57-64 | counterexample: without nesting first fit is not optimal |
| `SignalAccounting.EveryWakeUpHasItsSignal` | src/mcmini/model/cond_var_default_policy.cpp:48-78 | in every run the wake-ups not due to a broadcast are matched one to one with signals sent after the thread enqueued and after the last broadcast |
| `CvRuns.TraceIsRun` | include/mcmini/model/transitions/condition_variables/condition_variable_enqueue_thread.hpp:21-65 | along every executable trace the policy in the state is the policy after the trace's events since the condition variable was last initialised or destroyed |
| `CvRuns.TraceAccounts` | include/mcmini/model/transitions/condition_variables/condition_variables_wait.hpp:23-63 | so chain and signal accounting hold of the traces of the model |
| `CvRuns.WaitIsEnabled` | include/mcmini/model/transitions/condition_variables/condition_variables_wait.hpp:23-63 | a thread that waits with the mutex everybody there uses can go on if and only if that mutex is unlocked and a broadcast has come since it enqueued, or a signal that nobody used up |
| `WakeLaws.PolicyIsByHistory` | src/mcmini/model/cond_var_single_grp_policy.cpp:7-40 | in every run the queue is exactly the threads that enqueued and have neither woken up nor heard a broadcast since, and a pass is held by exactly those that enqueued before a broadcast and have not woken up |
| `WakeLaws.StandingIsHistory` | src/mcmini/model/cond_var_single_grp_policy.cpp:7-40 | the same in terms of the times at which these events took place |
| `WakeLaws.MessageFrees` | src/mcmini/model/cond_var_single_grp_policy.cpp:7-18 | right after a signal or a broadcast everyone who was asleep can leave, after a broadcast on a pass |
| `WakeLaws.WhoCanExit` | src/mcmini/model/cond_var_default_policy.cpp:30-78 | with signal-driven wake-ups matched to signals as above, a thread can leave if and only if it holds a pass or a signal sent while it slept is matched to nobody: no signal that somebody heard is lost |
| `CvPolicy.SignalsAgree` | src/mcmini/model/cond_var_arbitrary_policy.cpp:11-18 | in every run the policy's own signal method does what the signal transition does by hand |
| `CvPolicy.WithoutSplits` | src/mcmini/model/cond_var_wakegroup.cpp:9-11 | striking a thread from a group leaves all the others, in order and as often |
| `Enabledness.EnabledIsByTrace` | include/mcmini/model/transition.hpp:117-126 | each operation is enabled in a state if and only if the trace that led there says so: who holds which mutex, who started, exited or was created, whether the condition variable is in use and with which mutex, and who has heard which message |
| `Enabledness.UseIsByTrace` | include/mcmini/model/transitions/condition_variables/condition_variables_signal.hpp:46-102 | the phase of a condition variable and its last runner are those the trace gives; a message that finds nobody asleep changes neither |
| `PolicyObject.ConditionVariablePolicy.Clone` | src/mcmini/model/cond_var_arbitrary_policy.cpp:5-9 | a fresh object with the same value |
| `PolicyObject.ConditionVariablePolicy.WakeThread` | src/mcmini/model/cond_var_default_policy.cpp:47-78 | the object takes the value of the specified wake-up, through queue, groups and passes |
| `PolicyObject.ConditionVariablePolicy.ReceiveBroadcastMessage` | src/mcmini/model/cond_var_single_grp_policy.cpp:7-18 | everyone listed or queued gets a pass, groups and queue are emptied |
| `PolicyObject.ConditionVariablePolicy.ReceiveSignalMessage` | src/mcmini/model/cond_var_arbitrary_policy.cpp:11-18 | a non-empty queue becomes a new group |
| `PolicyObject.ConditionVariablePolicy.ThreadCanExit` | src/mcmini/model/cond_var_default_policy.cpp:30-45 | a pass or a group that lists the thread |
| `PolicyObject.ConditionVariablePolicy.AddWaiterWithState` | src/mcmini/model/cond_var_arbitrary_policy.cpp:41-44 | queued last, with its status |
| `PolicyObject.RemoveCandidateThread` | src/mcmini/model/cond_var_wakegroup.cpp:9-11 | every occurrence of the thread is erased, the order of the rest kept |
| `SharedPolicies.ApplyTo` | include/mcmini/model/transition.hpp:117-123 | nothing that existed before is modified, every policy in the diff is new, and the outcome is the specified one |
| `SharedPolicies.WaitOnCv` | include/mcmini/model/transitions/condition_variables/condition_variables_wait.hpp:23-63 | the same for the waking half of a wait |
| `SharedPolicies.EnqueueOnCv` | include/mcmini/model/transitions/condition_variables/condition_variable_enqueue_thread.hpp:21-65 | the same for the enqueueing half |
| `SharedPolicies.SignalCv` | include/mcmini/model/transitions/condition_variables/condition_variables_signal.hpp:35-104 | the same for a signal |
| `SharedPolicies.BroadcastCv` | include/mcmini/model/transitions/condition_variables/condition_variable_brdcast.hpp:26-80 | the same for a broadcast |
| `SharedPolicies.InitCv` | include/mcmini/model/transitions/condition_variables/condition_variables_init.hpp:18-22 | a fresh empty policy |
| `SharedPolicies.CommittedStates.IsEnabled` | include/mcmini/model/transition.hpp:124-126 | testing enabledness modifies nothing |
| `SharedPolicies.CommittedStates.Follow` | src/mcmini/model/state_sequence.cpp:321-330 | committing appends the step's state and every earlier state still says what it said |
| `Transitions.StepKeepsShape` | include/mcmini/model/transition.hpp:117-123 | a step keeps objects, their kinds and the runners, so typed ids stay typed |
| `MutualExclusion.SectionsAreExclusive` | include/mcmini/model/transitions/mutex/mutex_lock.hpp:20-30 | between two acquires of a mutex the first thread released it |
| `MutualExclusion.ReleasesFollowAcquires` | include/mcmini/model/transitions/mutex/mutex_unlock.hpp:18-30 | every release is by the thread that acquired last, with nothing in between |
| `MutualExclusion.HolderIsOwner` | include/mcmini/model/transitions/condition_variables/condition_variable_enqueue_thread.hpp:27-63 | the state's owner is the one the trace says is inside, initialisations included |
| `MutualExclusion.PathExecutes` | src/mcmini/model_checking/algorithms/classic_dpor.cpp:235-242 | the traces of the search are executable, so the above applies to them |
| `ThreadLifecycle.JoinFollowsExit` | include/mcmini/model/transitions/thread/thread_join.hpp:18-25 | a join takes place only after its target's exit, with no create of it in between |
| `ThreadLifecycle.NoStepWhileGone` | include/mcmini/model/transitions/thread/thread_exit.hpp:15-22 | a thread takes no step before it is created, and none after its exit unless it is created again |
| `ThreadLifecycle.StatusIsByTrace` | include/mcmini/model/transitions/thread/thread_create.hpp:18-22 | the status in the state is the one the creates and exits of the trace give |
| `RawSemaphore.RunKeepsInv` | src/common/runner_mailbox.c:20-43 | in every interleaving a sleeper implies the value is at most pending wake-ups plus awake waiters, and waits, value and posts since the last reset agree up to wrap-around |
| `RawSemaphore.NoLostWakeUp` | src/common/runner_mailbox.c:39-43 | once everything has settled a thread sleeps only on zero |
| `RawSemaphore.WaitsArePaidFor` | src/common/runner_mailbox.c:20-43 | successful waits since the last reset never exceed posts, and fewer than 2^32 posts are all accounted for |
| `RawSemaphore.SleeperIsNotAlone` | src/common/runner_mailbox.c:20-43 | a thread asleep on a positive value has another that still has a step to take |
| `RawSemaphore.WaitsAreTaken` | src/common/runner_mailbox.c:20-37 | in every interleaving the calls of a thread to the wait that are over are as many as what it took off a positive value, interruptions and retries included |
| `RawSemaphore.CountersCount` | src/common/runner_mailbox.c:20-43 | the counters are the posts and the values taken since the last reset |
| `RawSemaphore.NobodyProceedsUnpaid` | src/common/runner_mailbox.c:20-43 | without a reset the waits that are over, by all threads together, never exceed the posts, and with fewer than 2^32 posts the difference is the value |
| `RawSemaphore.AloneItEnds` | src/common/runner_mailbox.c:20-37 | left alone an awake waiter takes one off a positive value within three steps, or falls asleep on zero |
| `Handshake.ExactlyOneToken` | src/lib/wrappers.c:157-190 | in every interleaving exactly one of the scheduler, a pending post and a thread has control; everybody else is parked on a zero semaphore or is the thread that the one in control creates or joins |
| `Handshake.TargetCodeIsSequential` | src/mcmini/real_world/local_linux_process.cpp:83-114 | target code runs in one thread at a time and never while the scheduler chooses |
| `Handshake.SchedulerIsAnswered` | src/lib/wrappers.c:446-467 | the scheduler never waits without some step being possible, through create, exit and join |
| `Handshake.EveryStepIsProgress` | src/lib/wrappers.c:446-467 | while the scheduler waits, every step that can happen brings it closer to being heard |
| `Handshake.SchedulerIsHeard` | src/lib/wrappers.c:446-467 | so in every interleaving it waits for fewer than ten steps |
| `Handshake.NextKeepsHolds` | src/lib/wrappers.c:1097-1119 | each step passes the token on as stated, including exit permission on join |
| `Handshake.ScriptIsFollowed` | src/lib/wrappers.c:446-488 | in every interleaving a thread's own steps after it announced an operation are those of that operation, in order, before it does anything else: after an exit it is resumed and finishes, after a join it is resumed, lets the thread it joins terminate and joins it, after a create it hears of its child, reports and is resumed |
| `Handshake.FirstSteps` | src/lib/wrappers.c:679-688 | a thread's first own step is to register, that of the main thread to be resumed into target code |
| `Handshake.GoneByLeaves` | src/lib/wrappers.c:458-467 | a thread is gone if and only if it took its last step |
| `Handshake.JoinWaits` | src/lib/wrappers.c:1097-1119 | after a join a thread is in target code again only once the thread it joined is gone |
| `Handshake.CreateWaits` | src/lib/wrappers.c:679-688 | after a create a thread goes on only once its child has registered |
| `ThreadQueue.Queue.Enqueue` | src/mcmini/Thread_queue.c:26-37 | appended at the rear, the counter in step |
| `ThreadQueue.Queue.Remove` | src/mcmini/Thread_queue.c:142-184 | the first entry of the thread is taken out wherever it is, rear and counter in step; -1 otherwise |
| `ThreadQueue.Queue.GetThreadCvState` | src/mcmini/Thread_queue.c:103-113 | the status of the thread's first entry, none where the original exits |
| `ThreadQueue.Queue.UpdateThreadCvState` | src/mcmini/Thread_queue.c:115-126 | only the thread's first entry changes |
| `ThreadQueue.Queue.FirstWaiting` | src/mcmini/Thread_queue.c:128-140 | the first waiting entry's thread, or the invalid id |
| `ThreadQueue.Queue.Contains` | src/mcmini/Thread_queue.c:72-81 | whether some entry is the thread's |
| `ThreadQueue.Queue.constructor` | src/mcmini/Thread_queue.c:6-14 | an empty list whose counter is whatever was in memory |
| `ThreadQueue.RemoveUndoesEnqueue` | src/mcmini/Thread_queue.c:142-184 | removing a thread just enqueued for the first time gives the old queue back |

## Left out

- Completeness of the search and that the clocks equal happens-before: neither holds of this code, as `MissedDeadlock.VerifyIt` and `StepClocks.ComparisonIsOffByOne` show.
- Independence.CoenabledIsWrongOnCvs: looks at states where creates name runners not yet started, as the creation of a runner guarantees.
- Discovery during a search: the explorer and the coordinator run on objects and runners known from the start; `ProgramModel` and `StateSeq` also model discovery.
- Semaphores, process exit and abort, and the exit-code checks after a step: they would add easy members only.
- The bound of twenty runners on the clocks in a stack item and on the mailboxes: the model has maps there.
- Spurious wake-ups: the counter is never set above zero.
- The waiters and signalled threads passed to the condition-variable constructor: they come from recorded executions.
- `diff_state::add_object` and `diff_state::add_runner`: no transition uses them.
- Record mode, checkpoint and restart, thread-sanitizer support, signals of dead children and logging: foreign calls and timing.
- FUTEX_WAIT errors other than EAGAIN and EINTR: the wait would return an error to its caller.
- `dequeue_thread`, `peek_thread` and printing of the thread queue: the first drops nodes without updating size or rear, the others are trivial.
- Fields that no transition reads: lost-wakeup warnings and the had-waiters flags.
