# Verification of the greater-will daemon

This project models the run daemon of greater-will and the algorithms around it,
and proves what they keep over every run. Its parts, in the system's terms:

- **The run registry** (`RunModel`, `RegistrySpec`, `RegistryMeaning`, `RunRegistry`,
  `RegistrySystem`): run entries, per-repository locks, FIFO queues, the drain
  order across repositories and the per-repository failure breaker. `RunRegistry`
  is the class with the fields and loops of the source; each method is proved
  against a function on the registry as a value and against a promise that names
  no such function, and the functions are the actions of a transition system in
  which any enabled action may come next.
- **Queues over time** (`QueueAccounts`, `QueueHistory`, `DrainOrder`,
  `StaleRestart`): no submitted run is lost, doubled or overtaken, through restarts
  that find the snapshot of the current queues; in which order repositories are
  drained until the first restart; what a restart from an older snapshot loses or
  repeats; what the breaker count means.
- **The life of a run** (`RunLifecycle`) and **repository locks** (`RepoLocks`):
  terminal is final; exactly when locks are exclusive.
- **Persistence** (`FlushProtocol`, `QueueBatching`): flushers that race between
  a shared epoch tracker and a rename, step by step; batched mutations against
  the wrappers that persist after each.
- **What drives the registry** (`Executor`, `DrainTask`, `DrainLocks`, `DrainPaths`,
  `Recovery`, `RecoveryPaths`, `SessionCollisions`, `Reconciler`, `Startup`): the step after a completed run, the
  background tasks that check, promote, launch and retry drained runs and what they do
  to locks, recovery and launch racing a user's stop, and startup reconciliation with
  what it amounts to for each run and each lock.
- **Checkpoints** (`CheckpointSchema`, `CheckpointProgress`): the classifier over
  an arbitrary table of phases, the two completion tests, and the operations that
  move a checkpoint forward.
- **Self-contained algorithms**: `ProcessTree`, `BatchState` with `BatchRunner`,
  `Framing`, `Schedule`.

Foreign effects are inputs of the operations or free choices of a step: whether a
lock file is free, a write or rename succeeds, a session exists, a plan runs to
its end. Paths, repository keys and plan names go through an abstract file system
(`RunModel.Env`). Time is an argument.

## What the code does not do

These statements about the code are false as one would first write them. Each has
a concrete run or an exact condition below.

- A queue flush advances the shared tracker before it renames. Two flushers whose
  claim-to-rename windows nest leave the older snapshot on disk although both
  report success (`RollsBackExactlyWhenNested`, `OverlapRollsBack`). The comment
  at src/daemon/registry.rs:1477-1481 says the time-of-check window is closed; the
  model follows the code. After a failed rename, retrying the flush reports
  success without writing (`RetryAfterFailedRenameLies`); with windows apart,
  success means durable or superseded exactly when some epoch from one's own on
  was claimed and its rename did not fail (`SuccessMeansDurableOrSuperseded`).
- Any terminal status frees the repository's lock, also when the run never owned
  it, so dequeueing a waiting run lets a second run start beside the one at work
  (`ExclusiveExactlyWhen`, `DequeueLetsTwoRunsIn`). The reconciler takes a
  canonical run's lock away exactly when the loser of some collision belongs to
  its repository (`CanonicalKeepsItsLockIff`).
- The drain over all repositories does not look at locks. A run drained into a
  repository at work cannot be promoted, its failure frees the lock of the run at
  work, and its retry is promoted beside it (`DrainLetsSecondRunIn`). A drain step
  that fails one run keeps locks exclusive exactly when that run owns its
  repository, or nobody does, or it has no entry (`WhichStepsKeepExclusive`,
  `DrainsExclusiveExactlyWhen`).
- Startup does not give every run it marks running the lock of its repository. A
  stale queued run is marked without taking it, and ending a stale run, a collision
  loser or a vanished queue entry frees the lock whoever holds it
  (`RunningUnlockedIff`, `RevivedWithoutLock`). The comment at
  src/daemon/reconciler.rs:81-92 says that stale entries release or acquire the
  lock as appropriate.
- A stop that falls between a recovery's check and its spawn, or between a launch
  and its spawn, leaves a stopped run with a live session
  (`EndedRunComesAliveIff` and the two lemmas after it). The comment at
  src/daemon/heartbeat.rs:1180-1186 says the gate closes this race.
- A popped run can stay queued until a user's stop or the next startup. This
  happens exactly to a retry that fails at its checks or at its promotion
  (`LeftQueuedIff`); every later failure of a launch stages it as failed. Such a
  run is in no queue and no completion comes back to it (`RetryLeavesRunQueued`,
  `ForgottenStaysQueued`), and as long as its entry is active its plan is refused
  (`ActiveEntryBlocksItsPlan`). The next startup finds it stale, unless a live
  session has its name, and ends the wait (`LeftQueuedEnds`). The handling that the
  comment at src/daemon/executor.rs:222-230 gives as the cure is there for the
  first attempt only.
- An ended run can become active again by adoption, which guards on the name of
  a meta.json's directory but stores the entry under the run id it holds. A session
  brings a run back exactly when no run has its name and the meta.json in the
  directory of that name can be adopted and holds the run's id
  (`EndedRunAdoptedIff`, `EndedRunActiveIff`, `MisfiledRunComesBack`); with every
  meta.json in its own directory no ended run comes back (`EndedStaysEnded`).
- The inferred phase is never "complete", so the test at
  src/daemon/heartbeat.rs:416 never holds (`EffectivePhaseInTable`); the second
  way to `AllDone` in the classifier (src/checkpoint/schema.rs:440-441) is never
  taken, because `Classifies` gives `AllDone` to complete checkpoints only.
- `mark_phases_completed_before` does not make its target pending when the target
  already has a status, as the comment at src/checkpoint/reader.rs:395 says it
  does; `MarkingResumesIff` states when the pipeline then resumes there.
- A delayed schedule that was paused shows as active once resumed and never fires
  (`PausedDelayedNeverFires`).

## Model

| member | source | states |
|---|---|---|
| RunModel.PlansMatchEquivalence | src/daemon/reconciler.rs:456-474 | For a fixed repository plan matching is reflexive, symmetric and transitive in spite of the base-name fallback. |
| RunModel.PlansMatchByName | src/daemon/reconciler.rs:456-474 | Two plans match if and only if their canonical paths agree, relative ones taken within the repository, or their base names are present and agree. |
| RunModel.OneDirectoryOneKey | src/daemon/registry.rs:144-151 | Two spellings of one directory share their key; different keys mean different directories. |
| RegistryMeaning.StagePromise | src/daemon/registry.rs:526-572 | What a staging refuses, what it writes into the one entry, field by field, and that a run that ends unlocks its repository. |
| RegistryMeaning.RegisterPromise | src/daemon/registry.rs:467-519 | Registration works if and only if nobody holds the repository and the write works; then lock and queued entry are there, else nothing is. |
| RegistryMeaning.PromotePromise | src/daemon/registry.rs:963-1001 | Promotion works if and only if the run is queued, nobody holds the repository and the write works; a failed write changes the entry only. |
| RegistryMeaning.EnqueuePromise | src/daemon/registry.rs:789-870 | Full from 50 waiting runs on; already active if and only if an active run of the repository has a matching plan; else the run joins the end of its queue, the drain order stays a prefix of the new one, and a new repository stands at its end. |
| RegistryMeaning.SameNameIsRefused | src/daemon/registry.rs:799-836 | While a run of the same directory and the same present plan file name is active, the answer is already active and nothing changes. |
| RegistryMeaning.FirstReadyPromise | src/daemon/registry.rs:1229-1249 | The search through the drain order finds the first repository with waiting runs and fewer than 3 failures, or there is none. |
| RegistryMeaning.DrainAnyPromise | src/daemon/registry.rs:1229-1249 | The head of that queue, and nothing else, leaves. |
| RegistryMeaning.DequeuePromise | src/daemon/registry.rs:888-914 | A run that waits leaves its queue, where the others keep their places, and is stopped; one that does not wait stays as it is. |
| RegistryMeaning.ClearPromise | src/daemon/registry.rs:1324-1379 | A run waits afterwards if and only if it waited before, there is a filter, and its repository is neither the filter nor its canonical form; the runs that left are those listed and those stopped. |
| RegistryMeaning.FailurePromise | src/daemon/registry.rs:1087-1118 | The first two failures are counted and nothing else; the third empties that one queue, stops exactly its runs and forgets the count. |
| RunRegistryClass.RunRegistry.constructor | src/daemon/registry.rs:370-381 | A new registry is empty. |
| RunRegistryClass.RunRegistry.StageStatusLocked | src/daemon/registry.rs:526-572 | Refuses unknown runs, terminal to non-terminal and Running to Queued without any change; otherwise updates the one entry, raises its write epoch and, for a terminal status, drops the repository's lock. |
| RunRegistryClass.RunRegistry.UpdateStatus | src/daemon/registry.rs:594-612 | Same state change; success needs both the transition and the write. |
| RunRegistryClass.RunRegistry.AcquireRepoLock | src/daemon/registry.rs:1572-1598 | Succeeds exactly when neither this registry nor another process holds the lock, and changes nothing but the lock set. |
| RunRegistryClass.RunRegistry.AcquireRepoLockForAdopt | src/daemon/registry.rs:690-713 | Succeeds also when the lock is already held here. |
| RunRegistryClass.RunRegistry.RegisterRun | src/daemon/registry.rs:467-519 | Lock and entry appear together or, when the lock is taken or the write fails, not at all. |
| RunRegistryClass.RunRegistry.PromoteQueued | src/daemon/registry.rs:963-1001 | Only a queued run is promoted; a failed write leaves the lock free but the entry's start time changed. |
| RunRegistryClass.RunRegistry.TotalPendingCount | src/daemon/registry.rs:1158-1160 | The loop over queues computes the total number of waiting runs. |
| RunRegistryClass.RunRegistry.EnqueueRunWithoutSnapshot | src/daemon/registry.rs:789-870 | Refused at 50 waiting runs or when an active run of the repository has a matching plan; otherwise entry, the end of one queue and the end of the drain order change, nothing else, and no known repository is overtaken. |
| RunRegistryClass.RunRegistry.PopFromPendingQueues | src/daemon/registry.rs:921-930 | Removing the first occurrence from one queue removes the run from all queues, and finds it exactly when it waits somewhere. |
| RunRegistryClass.RunRegistry.DequeueRunStaged | src/daemon/registry.rs:888-914 | Removal, Stopped and one snapshot of the resulting queues; nothing when the run does not wait, and no snapshot when it cannot be stopped. |
| RunRegistryClass.RunRegistry.DrainNextWithoutSnapshot | src/daemon/registry.rs:1033-1048 | Hands out the head of the repository's own queue unless its breaker is tripped. |
| RunRegistryClass.RunRegistry.DrainAnyReadyWithoutSnapshot | src/daemon/registry.rs:1229-1249 | Hands out the head of the first queue in drain order that has waiting runs and fewer than 3 failures. |
| RunRegistryClass.RunRegistry.RecordQueueFailureWithoutSnapshot | src/daemon/registry.rs:1087-1118 | The third failure empties the queue, stops its runs and forgets the count; an earlier one only counts. |
| RunRegistryClass.RunRegistry.RecordQueueSuccessWithoutSnapshot | src/daemon/registry.rs:1146-1149 | Forgets the repository's count and changes nothing else. |
| RunRegistryClass.RunRegistry.RemovePendingWithoutSnapshot | src/daemon/registry.rs:1204-1208 | Filters every queue, keeping order. |
| RunRegistryClass.RunRegistry.ClearOneQueue | src/daemon/registry.rs:1337-1350 | Removal by index keeps exactly the runs whose repository is neither the filter nor its canonical form, in order, and reports each run it drops. |
| RunRegistryClass.RunRegistry.ClearQueueStaged | src/daemon/registry.rs:1324-1379 | With a filter a run waits afterwards if and only if it waited before and its repository is neither the filter nor its canonical form, without one nothing waits; exactly the runs that left are listed and stopped; cleared and remaining runs add up to those that waited; one snapshot of the result. |
| RunRegistryClass.RunRegistry.StageQueueLocked | src/daemon/registry.rs:1414-1436 | A snapshot is the current queues and counts under a fresh epoch, and staging changes only the epoch. |
| RunRegistryClass.RunRegistry.RestoreQueue | src/daemon/registry.rs:1549-1558 | Loading installs queues and counts and adds each repository with waiting runs to the drain order once, whatever order keys are visited in. |
| RegistrySystem.StepKeepsWellFormed | src/daemon/registry.rs:526-1379 | Every action keeps: runs wait under their own repository's key, identities unique across all queues, every non-empty queue in the duplicate-free drain order, breaker counts below 3, at most 50 waiting. |
| RegistrySystem.ExecutionWellFormed | src/daemon/registry.rs:526-1379 | The same in every state of every execution. |
| QueueHistory.ExecutionAccounts | src/daemon/registry.rs:789-1379 | Over any execution, with restarts that find the current snapshot, per repository: what was submitted and not removed is, in order, what was handed out followed by what waits. |
| QueueHistory.SubmittedRunIsInOnePlace | src/daemon/registry.rs:789-1379 | Under the same restarts a submitted run is in exactly one of: one queue, once, under its own key; handed out; removed; and at most 50 wait. |
| QueueHistory.HandedOutInSubmissionOrder | src/daemon/registry.rs:1033-1048 | First come, first served per repository among runs not removed. |
| QueueHistory.BreakerNeverStaysTripped | src/daemon/registry.rs:1087-1149 | The stored count is the failures since the last success modulo 3 and never reaches 3. |
| QueueHistory.ThirdFailureEmptiesItsQueue | src/daemon/registry.rs:1087-1118 | Every third failure in a row, and no other, empties exactly that repository's queue and stops exactly its runs. |
| QueueHistory.DrainFindsWaitingRun | src/daemon/executor.rs:178-182 | In every reachable state, own queue then any ready queue comes up empty exactly when nothing waits anywhere. |
| DrainOrder.OrderIsByFirstSubmission | src/daemon/registry.rs:863-865 | Until the first restart the drain order is exactly the list of repositories with an accepted submission, by the first one of each, read off the events. |
| DrainOrder.DrainedRepositoryCameFirst | src/daemon/registry.rs:1229-1249 | When the drain over all repositories hands out a run, every other repository with a waiting run had its first submission accepted later. |
| QueueHistory.RestartRoundTrip | src/daemon/registry.rs:1414-1558 | Stage, write, load and restore rebuild the same queues and counts, and the drain order holds exactly the repositories with waiting runs. |
| StaleRestarts.StaleRestart | src/daemon/registry.rs:1414-1558 | A restart from the snapshot of an earlier state loses a run exactly when it was submitted since and still waited, and lets a run wait again although handed out or removed exactly when that happened since. |
| RunLifecycle.StepAdvances | src/daemon/registry.rs:526-572 | No action takes a run from terminal to active or from Running to Queued, changes its plan or repository, or changes its status without raising its write epoch. |
| RunLifecycle.TerminalIsFinal | src/daemon/registry.rs:526-572 | Between any two states of an execution a run only advances: once ended it stays ended. |
| RunLifecycle.EpochCountsStagings | src/daemon/registry.rs:545-562 | The write epoch grows by at least one for each successful staging. |
| RunLifecycle.NoActiveDuplicates | src/daemon/registry.rs:799-836 | A run accepted by enqueue and any older run, both active on one repository, have plans that do not match, in every later state. |
| RunLifecycle.ActiveQueuedPlansDiffer | src/daemon/registry.rs:799-836 | Two runs enqueued for one repository directory that are both active never match, in either order. |
| RepoLocks.LocksFreed | src/daemon/registry.rs:557-562 | An action that grants no lock frees exactly those of the repositories of the runs it finishes. |
| RepoLocks.StepKeepsExclusive | src/daemon/registry.rs:557-562 | One action keeps locks exclusive if and only if, for each run it finishes, whoever owns the lock of that run's repository is finished by it too. |
| RepoLocks.ExclusiveExactlyWhen | src/daemon/registry.rs:250-1598 | Over a whole execution, each repository has at most one owner and its lock is held exactly while it has one, if and only if no action finishes a run under another owner's lock. |
| RepoLocks.FailedGrantFreesLock | src/daemon/registry.rs:250-270 | A failed register or promote leaves the locks as they were. |
| RepoLocks.DequeueLetsTwoRunsIn | src/daemon/registry.rs:888-914 | A concrete execution in which removing a queued run lets two active runs own one repository. |
| FlushProtocol.FileIsAWholeSnapshot | src/daemon/registry.rs:1450-1504 | In every interleaving queue.json is the file found at start or one whole staged snapshot, of an epoch at most the tracker. |
| FlushProtocol.TrackerGrows | src/daemon/registry.rs:1482-1485 | The shared tracker never decreases. |
| FlushProtocol.ClaimsIncrease | src/daemon/registry.rs:1482-1490 | Claims are won in strictly increasing epoch order. |
| FlushProtocol.RenamedAtMostOnce | src/daemon/registry.rs:1492-1504 | Each epoch reaches queue.json at most once, retries included. |
| FlushProtocol.RollsBackExactlyWhenNested | src/daemon/registry.rs:1482-1504 | The file goes back to an older epoch in an execution exactly when one flusher claims and renames between the claim and the rename of another. |
| FlushProtocol.FileNeverGoesBack | src/daemon/registry.rs:1450-1504 | When claim-to-rename windows do not overlap, the epoch on disk never decreases, I/O errors or not. |
| FlushProtocol.SuccessMeansDurableOrSuperseded | src/daemon/registry.rs:1450-1504 | With windows apart and any errors, a flush that reported success is on disk, or overtaken by a newer one there or about to be, if and only if some epoch from its own on was claimed and its rename did not then fail. |
| FlushProtocol.AllFlushedMeansLatestOnDisk | src/daemon/registry.rs:1414-1504 | Once every staged snapshot has been flushed, the file is the snapshot of the highest epoch if and only if the rename of that one epoch never failed. |
| FlushProtocol.OverlapRollsBack | src/daemon/registry.rs:1482-1504 | A concrete overlapping execution that ends with the older snapshot on disk. |
| FlushProtocol.FailedRenameIsNeverRepaired | src/daemon/registry.rs:1492-1500 | After a failed rename that epoch never reaches the file, however often its flush is retried. |
| FlushProtocol.RetryAfterFailedRenameLies | src/daemon/registry.rs:1450-1504 | A concrete execution in which a retried flush reports success and nothing was written. |
| QueueBatching.QueueFile.FlushQueue | src/daemon/registry.rs:1450-1504 | The loads, claim and rename of one flush amount to the function `Flush`; success implies the tracker covers the snapshot. |
| QueueBatching.FlushIsFourSteps | src/daemon/registry.rs:1450-1504 | `Flush` is what the four steps of the racing model do when nobody comes between. |
| QueueBatching.EachFormKeepsUp | src/daemon/registry.rs:737-1142 | With the persisting wrappers queue.json agrees with memory after every operation, and each snapshot costs one epoch. |
| QueueBatching.BatchingRefines | src/daemon/executor.rs:157-199 | Any list of queue mutations with one trailing snapshot gives the same answers, the same registry up to the epoch and the same queue.json as the wrappers that persist after each. |
| Executor.DrainIfAvailable | src/daemon/executor.rs:152-191 | Under one hold of the mutex: breaker, own queue, then any ready queue, and one snapshot of the resulting queues. |
| Executor.CompletionDrains | src/daemon/executor.rs:170-182 | A completed run hands out nothing exactly when nothing waits after the breaker was told; its own repository's head is preferred. |
| Executor.CompletionPromise | src/daemon/executor.rs:152-191 | A failure is counted, or the third trips the breaker, a success forgets the count; then the head of the own queue leaves if it can be drained, else that of the first queue in drain order that can. |
| Executor.RecoveryPromise | src/daemon/executor.rs:219-263 | The run is staged as failed, the failure counted, and the next run, if any, is the head of the same repository's queue, never one of another. |
| Executor.RecoverFromFailedSpawn | src/daemon/executor.rs:219-263 | A drained run that could not be spawned ends terminal; breaker, next run of the same repository and one snapshot. |
| DrainTasks.LeftQueuedOnlyByRetry | src/daemon/executor.rs:118-296 | In every interleaving, a popped run whose task is done is no longer queued, unless it was a retry that failed before its promotion. |
| DrainTasks.LeftQueuedIff | src/daemon/executor.rs:118-296 | Of a popped run whose status only its own task touches: still queued when that task is done if and only if it was the retry and failed at its checks or its promotion. |
| DrainTasks.RetryLeavesRunQueued | src/daemon/executor.rs:273-287 | From any state where two runs of a repository wait, an execution that leaves the second queued, in no queue and with no task at work. |
| DrainTasks.ForgottenStaysQueued | src/daemon/executor.rs:152-296 | No completion, task or recovery ever changes the entry of such a run again; only an action elsewhere can end it. |
| DrainTasks.ActiveEntryBlocksItsPlan | src/daemon/registry.rs:799-836 | Over any execution, while an entry is active no run with a matching plan is accepted for its repository. |
| DrainTasks.TasksAdvance | src/daemon/executor.rs:118-296 | Through all these steps every run only advances: terminal is final and running is never queued again. |
| DrainTasks.DrainedRunAgainstLock | src/daemon/registry.rs:963-1001 | A drained queued run can be promoted if and only if its repository is unlocked, and staging its failure keeps a held lock if and only if it is another repository's. |
| DrainTasks.DrainLetsSecondRunIn | src/daemon/registry.rs:1229-1249 | From any state with a run at work, an execution in which a completion elsewhere drains into its repository and the retry is promoted beside it. |
| DrainPaths.UndisturbedLaunch | src/daemon/executor.rs:118-296 | A drained run that passes its checks in an unlocked repository ends running, its session named, its repository locked, no other run touched. |
| DrainPaths.FailedTask | src/daemon/executor.rs:118-296 | A failed launch fails the run with its reason, unlocks the repository and leads a first task to its recovery, a retry to its end. |
| DrainPaths.TaskGoesOnIff | src/daemon/executor.rs:118-296 | A task goes on after its checks, its promotion and its launch exactly on the conditions of each; otherwise a first task is recovered and a retry ends. |
| DrainLocks.DrainStepKeepsExclusive | src/daemon/executor.rs:118-296 | One step of a drain, a task or anything else keeps locks exclusive if and only if, for each run it finishes, whoever owns the lock of that run's repository is finished by it too. |
| DrainLocks.WhichStepsKeepExclusive | src/daemon/executor.rs:118-296 | Checks, promotions, finished launches and completions of runs that did not fail never break it; a failed launch, or a recovery that empties no queue, does if and only if its run has an entry and the repository is locked for another run. |
| DrainLocks.DrainsExclusiveExactlyWhen | src/daemon/executor.rs:118-296 | Over a whole execution of drain tasks interleaved with all registry actions, from any state with exclusive owners, locks stay exclusive if and only if no step finishes a run under another owner's lock. |
| SessionCollisions.FindSessionNameCollisions | src/daemon/reconciler.rs:353-368 | Exactly the session names shared by at least two active runs, each with all its runs, once each. |
| SessionCollisions.ResolveSessionNameCollisions | src/daemon/reconciler.rs:384-450 | Exactly the active runs that share the name of another, canonical run are stopped, and they are counted. |
| SessionCollisions.ResolvedOnce | src/daemon/reconciler.rs:370-383 | Afterwards a canonical run is the only active one of its name, groups without one are unchanged, and resolving again finds nothing. |
| SessionCollisions.CanonicalKeepsItsLockIff | src/daemon/reconciler.rs:384-450 | A canonical run's held lock survives resolution if and only if no loser of any group belongs to its repository. |
| Reconciler.AdoptFromDisk | src/daemon/reconciler.rs:512-589 | Adopts exactly when the plan at work is the recorded one and a lock is to be had, under the run id the file holds. |
| Reconciler.EndedRunAdoptedIff | src/daemon/reconciler.rs:484-590 | Over the registry before the session is processed: an ended run is active afterwards if and only if no run has the session's name and the meta.json in the directory of that name is of an unknown run, has the plan at work, can get the lock, and holds the ended run's id. |
| Reconciler.TryAdoptOrphan | src/daemon/reconciler.rs:484-590 | Adopts exactly when the run is known, or on disk with the plan at work there and a lock to be had; a known run and a refused one leave the registry as it was. |
| Reconciler.ProcessSession | src/daemon/reconciler.rs:130-190 | A session that a run has the name of is kept for an active one or cleaned up for an ended one, with nothing changed; one that no run has the name of is adopted, as one entry and one lock, if and only if it can be, and cleaned up otherwise; ended runs come back exactly as `EndedRunAdoptedIff` says. |
| Reconciler.FateByName | src/daemon/reconciler.rs:130-190 | What becomes of a session, from the session names and run ids of the entries alone: adopted if and only if no run carries the name and the directory of that name can be adopted; otherwise nothing changes. |
| Reconciler.ProcessSessions | src/daemon/reconciler.rs:130-190 | The sessions are processed one after the other, each as above; the three counts are the numbers of those kept, adopted and cleaned up; and with every meta.json in its own directory the registry grows by exactly the adopted ones. |
| Reconciler.FiledAdoption | src/daemon/reconciler.rs:484-590 | With every meta.json in its own directory no registered run changes. |
| Reconciler.ReacquireLocks | src/daemon/reconciler.rs:93-120 | The locks added are exactly those of running runs whose lock file is free, so every running run's repository is then locked unless another process holds it. |
| Reconciler.FindStaleRuns | src/daemon/reconciler.rs:648-675 | Exactly the active runs that neither wait in a queue nor have a live session, once each. |
| Reconciler.ReviveStaleRuns | src/daemon/reconciler.rs:199-289 | Exactly the active runs that neither wait nor have a live session are processed: with a checkpoint they are running at pending-recovery with their restart count, with a restart flag only running at pending-respawn with none, and failed with neither; the three counts are the sizes of those three sets. |
| Reconciler.ReviveEachRun | src/daemon/reconciler.rs:202-289 | Processing the list changes each listed run once, as its own checkpoint and restart flag say, and no other. |
| Reconciler.ReviveTakesUp | src/daemon/reconciler.rs:199-289 | The same for the whole list as a function, and no other run changes. |
| Reconciler.DropAllFrame | src/daemon/reconciler.rs:302-335 | Validation only shrinks queues and drops every waiting run whose plan or repository is gone. |
| Reconciler.Reconcile | src/daemon/reconciler.rs:69-343 | With successful writes: every active run waits, is named by a live session or is marked for recovery; no active run shares a canonical run's name; nothing queued lacks its plan or repository; every count is exact, session by session and run by run; each stage follows from the one before with nothing skipped; and the registry invariant is kept. |
| Startup.FateAtStartup | src/daemon/reconciler.rs:69-343 | The status of every run after startup, from its entry after adoption: failed if the plan or repository of its queue entry is gone, or it is stale with neither checkpoint nor restart flag, else stopped if it lost a collision, else running if it was stale, else unchanged. |
| Startup.EntryAtStartup | src/daemon/reconciler.rs:69-343 | Collisions and vanished plans aside, a run that has ended, waits in a queue or is named by a live session keeps its entry, and every other run is resumed, started afresh or failed by its checkpoint and restart flag. |
| Startup.WaitsAfterStartup | src/daemon/reconciler.rs:302-335 | A run waits after startup if and only if it waited before and its plan and its repository exist. |
| Startup.EndedRunActiveIff | src/daemon/reconciler.rs:69-343 | A run that had ended is active after startup if and only if some scanned session brought it back and the reconciliation did not end it again. |
| Startup.EndedStaysEnded | src/daemon/reconciler.rs:69-343 | With every meta.json in its own directory an ended run stays ended through startup. |
| Startup.MisfiledSessionAdopted | src/daemon/reconciler.rs:484-590 | A concrete registry and session for which every permitted outcome adopts the session and makes an ended run running. |
| Startup.MisfiledRunComesBack | src/daemon/reconciler.rs:69-343 | Every startup that finds these ends with that run running. |
| Startup.LeftQueuedEnds | src/daemon/reconciler.rs:199-289 | A queued run that is in no queue and has no live session is not queued after startup: running with a checkpoint or restart flag, failed without, or stopped by a collision. |
| Startup.LockAccount | src/daemon/reconciler.rs:69-343 | The locks after startup are those before, with those of running runs whose lock file is free and of adopted runs, without those of the repositories of every run the reconciliation ended. |
| Startup.RunningUnlockedIff | src/daemon/reconciler.rs:69-343 | A run that is running after startup, with its lock file free, has its repository open to a new run if and only if the reconciliation ended some run of that repository, or it was itself a stale queued run while nobody had the lock. |
| Startup.RevivedWithoutLock | src/daemon/reconciler.rs:199-269 | A queued registration found after a crash, alone in its repository, with a checkpoint or restart flag, is running after startup with its repository open to a new run. |
| Recovery.EndedRunStaysEnded | src/daemon/heartbeat.rs:1187-1417 | Whatever recovery, launch, stop, phase-update and registry steps interleave, an ended run stays ended and a running one is never queued again. |
| Recovery.EndedRunComesAliveIff | src/daemon/heartbeat.rs:1310-1440 | The session of an ended run can be alive now or later if and only if it is alive already or a task stands between its check and its spawn. |
| Recovery.StopDuringRecoveryLeaksSession | src/daemon/executor.rs:589-697 | From any active run: a stop inside a recovery's window ends with the run stopped, no task at work, the session alive and a restart counted that no write epoch shows. |
| Recovery.StopDuringLaunchLeaksSession | src/daemon/executor.rs:357-575 | A stop before a launch has named its session kills nothing; the session then starts under a stopped run. |
| Recovery.LatePhaseUpdateStaysInMemory | src/daemon/heartbeat.rs:434-462 | A phase seen after the end overwrites the phase in memory and nothing else. |
| RecoveryPaths.TaskConcludes | src/daemon/heartbeat.rs:1187-1417 | Every way a recovery, launch or stop can end makes an active run what its name says, ends the task, and kills the session only when a launch's command could not be sent. |
| RecoveryPaths.PhaseIsRecorded | src/daemon/heartbeat.rs:434-462 | A new phase of an active run is recorded and the run counts as running. |
| RecoveryPaths.UndisturbedRecovery | src/daemon/heartbeat.rs:1187-1417 | A recovery that nothing disturbs ends with the run running, its session alive and one more restart counted. |
| RecoveryPaths.UndisturbedStop | src/daemon/executor.rs:589-697 | A stop that nothing disturbs ends with the run stopped and its session dead, and it stays dead whatever comes later. |
| CheckpointSchema.InferPhasePosition | src/checkpoint/schema.rs:370-457 | The scans yield the position that the statuses call for: the first phase in progress; failing that the first failed one; failing that the last completed one with the first waiting phase after it; failing that the first waiting phase; for every status map and skip map. |
| CheckpointSchema.ClassifiedStands | src/checkpoint/schema.rs:370-457 | The definition by least and greatest table indices agrees with that account of the statuses. |
| CheckpointSchema.ClassifiesOne | src/checkpoint/schema.rs:370-457 | That definition leaves exactly one position, so AllDone is given if and only if the map is non-empty and the checkpoint complete. |
| CheckpointSchema.EffectivePhaseInTable | src/checkpoint/schema.rs:142-152 | The effective phase is a phase of the table, hence never "complete". |
| CheckpointSchema.NextActionablePhaseAfter | src/checkpoint/schema.rs:678-682 | The first phase from an index on that is pending or blank and outside the skip map, or there is none. |
| CheckpointSchema.PhaseIndex | src/checkpoint/phase_order.rs:116-118 | The least index of the name, or the name is not in the table. |
| CheckpointSchema.NearIff | src/checkpoint/schema.rs:559-625 | Near completion if and only if a completion time is set, the terminal phase is completed, every phase is completed, skipped or cancelled, or the inferred phase stands at ship or after it. |
| CheckpointSchema.CompletionGap | src/checkpoint/schema.rs:491-625 | Complete but not near completion if and only if no completion time is set, the terminal phase was skipped and some phase is not completed, skipped or cancelled. |
| CheckpointSchema.EarlyPhaseIsNotNear | src/checkpoint/schema.rs:559-625 | While the first running phase lies before ship, without completion time or completed terminal phase, completion is not believed. |
| CheckpointSchema.CompleteIsNearUnlessSkipped | src/checkpoint/schema.rs:491-625 | Complete implies near completion unless the terminal phase was skipped. |
| CheckpointProgress.CheckpointFile.Fresh | src/checkpoint/writer.rs:186-210 | A fresh checkpoint has exactly the table's phases, all pending, and sequence 0. |
| CheckpointProgress.CheckpointFile.MarkPhasesCompletedBefore | src/checkpoint/reader.rs:353-408 | The loop's effect as a map: phases before the target completed, or skipped by the skip map, with completion times kept or set. |
| CheckpointProgress.CheckpointFile.MarkPhaseCompleted | src/checkpoint/writer.rs:263-307 | One phase completed with its artifact, the sequence moved past it if it is in the table. |
| CheckpointProgress.CheckpointFile.FinishedEntry | src/checkpoint/reader.rs:371-391 | A finished phase is skipped or completed and keeps an earlier completion time. |
| CheckpointProgress.MarkingPromise | src/checkpoint/reader.rs:353-408 | Every phase that stands before the target is finished, with its completion time kept or set; a missing target waits; every other phase is as it was; an unknown target changes nothing. |
| CheckpointProgress.CompletionPromise | src/checkpoint/writer.rs:263-307 | One entry changes: completed now, with the artifact and hash given; the sequence is the place after it in the table. |
| CheckpointProgress.MarkingTwice | src/checkpoint/reader.rs:353-408 | With one clock reading, marking before t1 and then before a later or equal t2 equals marking before t2, on any checkpoint and skip map. |
| CheckpointProgress.MarkingFrame | src/checkpoint/reader.rs:393-404 | The target, later phases and unknown names keep their status; only a missing target is inserted as pending. |
| CheckpointProgress.MarkingResumesIff | src/checkpoint/reader.rs:353-408 | On any checkpoint, after marking before a phase the classifier stands at it if and only if, before the call, no completion time was set, the terminal phase was not done, and the phase was running, or failed with nothing from it on running, or waiting outside the skip map with nothing from it on running, failed or later completed. |
| CheckpointProgress.AdvancingAgrees | src/checkpoint/writer.rs:263-307 | After completing the first k phases of a fresh checkpoint, inferred phase, stored and effective sequence are all k; for all phases it is AllDone. |
| CheckpointProgress.JumpingAgrees | src/checkpoint/reader.rs:353-408 | Marking before phase k of a fresh checkpoint gives the same agreement. |
| CheckpointProgress.NextPendingPhase | src/checkpoint/reader.rs:460-472 | The first phase that is missing or pending. |
| CheckpointProgress.NextPendingAfterMarking | src/checkpoint/reader.rs:353-472 | After marking, the next pending phase is at or after the target, and is the target exactly when that was missing or pending. |
| CheckpointProgress.SkippedPhaseIsPendingNotNext | src/checkpoint/reader.rs:448-472 | On a checkpoint whose first phase is to be skipped the next pending and the next actionable phase differ. |
| ProcessTree.CollectDescendants | src/cleanup/process.rs:119-149 | Terminates on every table, cycles included; lists exactly the processes reachable from the root, the root excepted, once each, every parent before its children. |
| ProcessTree.IndexChildren | src/cleanup/process.rs:121-130 | The index lists exactly the children of each process. |
| BatchStates.RecordKeepsConsistent | src/batch/state.rs:154-198 | Recording keeps: one result per finished plan in order, breaker fields equal to what the results say, and a plan skipped exactly when the results before it had broken the circuit. |
| BatchStates.RecordPastEndMiscounts | src/batch/state.rs:187-194 | A result past the end is dropped but moves the breaker, so the state stays consistent exactly for a skip, a transient failure, or a pass with no failures counted. |
| BatchStates.SkippedTail | src/batch/queue.rs:181-211 | Everything after the first skipped plan is skipped, and only a positive maximum of counted failures starts it. |
| BatchStates.CountIsCardinality | src/batch/queue.rs:380-408 | The count of an outcome is the number of results that have it. |
| BatchRunners.NextResultFits | src/batch/queue.rs:250-335 | While the circuit is not broken a result is passed if and only if there was disk space and the plan ran to its end with no failed group, failed otherwise, and transient only for a run that failed on such an error. |
| BatchRunners.AfterRecords | src/batch/queue.rs:164-249 | From any state, each result a run adds is a skip if the circuit was broken by then, and otherwise fits the disk space and execution of its own plan in that way. |
| BatchRunners.BatchRunner.RecordResult | src/batch/state.rs:154-198 | Breaker first, then index check, then the result. |
| BatchRunners.BatchRunner.Resume | src/batch/queue.rs:123-162 | Any saved state is taken as it is, and the queue holds the plans from its index on, none if that lies past the end. |
| BatchRunners.BatchRunner.ExecuteNext | src/batch/queue.rs:213-243 | One plan gets a result that fits its disk space and execution, and the state is saved; a failed cleanup ends the run with the state as it was. |
| BatchRunners.BatchRunner.SkipAll | src/batch/queue.rs:181-211 | Once the circuit is broken every remaining plan is recorded as skipped, the first one saved on its own. |
| BatchRunners.BatchRunner.Run | src/batch/queue.rs:164-249 | From any state, whatever fails or dies on the way, memory and file hold what recording some number of plans in order gives; each result added is passed if and only if its plan ran clean with disk space, unless the circuit was broken; an undisturbed run finishes, and a finished run has recorded and saved every plan; from a consistent state both stay consistent and each new result is what was due. |
| BatchRunners.AfterAdds | src/batch/queue.rs:164-249 | From any state, consistent or not, a run adds one result per plan it finishes, in plan order, and loses none. |
| BatchRunners.ReachesIffOnTheWay | src/batch/queue.rs:164-249 | From a consistent state, recording plans one by one gives exactly the consistent states of the batch in which each new result is what its predecessors, disk space and execution call for. |
| BatchRunners.OnlyOneWay | src/batch/queue.rs:164-249 | How many plans a run has finished determines its whole state. |
| BatchRunners.BatchRunner.BuildSummary | src/batch/queue.rs:380-408 | The three counts are those of the outcomes and add up to the number of results. |
| BatchRunners.FinishedBatch | src/batch/queue.rs:94-249 | Through any crashes and resumptions a finished batch has exactly one result per plan in plan order, each a skip or what some step of the history came to, its counts add up, and its breaker reads what its results say. |
| BatchRunners.HistoryExplains | src/batch/queue.rs:94-249 | Through any crashes and resumptions every result in memory or saved is a skip under a broken circuit or fits the disk space and execution of a step that recorded it in its place. |
| BatchRunners.SavedResultsStay | src/batch/queue.rs:123-249 | As long as no new batch is begun, no crash or resumption loses or changes a saved result. |
| Framing.DecodeEncode | src/daemon/protocol.rs:254-269 | Decoding inverts encoding of the length prefix. |
| Framing.EncodeDecode | src/daemon/protocol.rs:254-269 | Encoding inverts decoding. |
| Framing.FirstByteWeighsMost | src/daemon/protocol.rs:254-269 | Where two prefixes first differ, the smaller byte makes the smaller length: the first byte is the most significant. |
| Framing.FrameStartsWithLength | src/daemon/protocol.rs:240-259 | The first four bytes of a frame weigh 2^24, 2^16, 2^8 and 1 in the length of its payload, which follows. |
| Framing.Writer.WriteMessage | src/daemon/protocol.rs:240-259 | Sends one frame, or refuses a payload over 16 MiB and sends nothing. |
| Framing.Reader.ReadMessage | src/daemon/protocol.rs:262-281 | Consumes one frame, or stops at an oversized prefix before its payload, or finds the stream cut. |
| Framing.RoundTrip | src/daemon/protocol.rs:240-281 | Reading the frames of any list of payloads gives back that list, and nothing is unread when the next read fails. |
| Framing.ReadingLosesNothing | src/daemon/protocol.rs:262-281 | On any stream, the messages read, framed again, followed by what was unread at the failing read, are the stream. |
| Framing.FramesInjective | src/daemon/protocol.rs:240-281 | Two lists of payloads never share a byte stream. |
| Framing.TruncationGivesPrefix | src/daemon/protocol.rs:262-281 | A stream cut anywhere gives exactly the messages that lie wholly before the cut, then an error, never a false size. |
| Framing.OversizedRefused | src/daemon/protocol.rs:271-275 | A prefix over the limit is refused with its size, whatever follows. |
| Schedules.ScheduleRegistry.Add | src/daemon/schedule.rs:108-113 | The entry is stored under its id, whether or not the file can be written. |
| Schedules.ScheduleRegistry.Remove | src/daemon/schedule.rs:116-121 | Only that entry goes; an unknown id is an error. |
| Schedules.ScheduleRegistry.Pause | src/daemon/schedule.rs:124-132 | The one entry is paused without a fire time; a failed save leaves the change in memory. |
| Schedules.ScheduleRegistry.Resume | src/daemon/schedule.rs:135-143 | The one entry is active again with a recomputed fire time. |
| Schedules.ScheduleRegistry.GetReadySchedules | src/daemon/schedule.rs:151-161 | Exactly the active entries whose fire time has come, once each. |
| Schedules.ScheduleRegistry.RecordFired | src/daemon/schedule.rs:167-188 | Counts the fire; completes an entry that fires once, reschedules a recurring one. |
| Schedules.CreatedIsDue | src/daemon/schedule.rs:151-444 | A new delayed schedule is due once its delay is over, a one-shot at its instant if that lies ahead, a recurring one at the next instant of the cron library, and none earlier. |
| Schedules.RecurringIsDue | src/daemon/schedule.rs:135-188 | A recurring schedule that was resumed, or fired while active, is due at the next instant of the cron library and not before. |
| Schedules.CreatedFiresAtMostOnce | src/daemon/schedule.rs:124-424 | A one-shot or delayed schedule is recorded as fired at most once over any pauses, resumptions, rejections and retries under a clock that does not go back. |
| Schedules.CanFireIff | src/daemon/schedule.rs:135-444 | Such a schedule can still fire if and only if it is firing, or active with a fire time, or a one-shot whose instant lies ahead. |
| Schedules.PausedDelayedNeverFires | src/daemon/schedule.rs:124-143 | A delayed schedule that was paused is active after resuming and never fires. |
| Schedules.ReadyOnlyAfterLastFire | src/daemon/schedule.rs:151-188 | A recurring schedule is never found ready twice for one instant. |
| Schedules.RecurringCanFireIff | src/daemon/schedule.rs:135-444 | A recurring schedule can fire again if and only if it is firing, or active with a fire time, or the cron library gives an instant from now on. |

## Left out

- Run identifiers: random in the source, assumed new in the model; so are the integer widths of epochs and counters, which are unbounded here.
- meta.json: a failed write is modelled where it changes the outcome; the order in which its flushes reach the disk is not, because the source ignores their epoch.
- RegistrySystem.StepKeepsWellFormed: the reconciler's adoption of a run from disk is not one of the actions; it happens at startup, and Reconciler.Reconcile keeps the same invariant.
- QueueHistory.ExecutionAccounts: a restart finds the snapshot of the current queues; for an older one StaleRestarts.StaleRestart says exactly what is lost and repeated.
- QueueHistory.SubmittedRunIsInOnePlace: same assumption about restarts.
- DrainOrder.OrderIsByFirstSubmission: ends at the first restart, because loading a snapshot visits its keys in no fixed order; RunRegistryClass.RunRegistry.RestoreQueue says what is then in the order.
- QueueBatching.BatchingRefines: leaves out dequeue and clear, which have no helper without a snapshot, and gives the drain over all repositories a persisting wrapper the source does not have.
- Reconciler.Reconcile: assumes writes succeed; killing sessions has no effect on the list of sessions read at the start.
- DrainTasks.LeftQueuedIff: what a task does between its registry steps is a free choice; sessions of launched runs are the subject of `Recovery`.
- Recovery.EndedRunComesAliveIff: one run and its one session, and a kill always works; which restart command is chosen is a free choice of the step.
- CheckpointSchema.InferPhasePosition: unknown JSON fields, commits and pull request data of a checkpoint, which the classifier does not read, are omitted; the table of phases is any duplicate-free one without an empty name or one called "complete".
- BatchRunners.BatchRunner.Run: durations, timestamps, the instance lock and the summary's text are omitted; failures and what executing a plan comes to are arbitrary functions of how far the run is.
- Schedules.CreatedFiresAtMostOnce: removal and load-time migration of schedules; one fire is in flight at a time, as in the sequential fire loop.
- The text of messages built for logs and errors is shortened to constants.
- JSON, hashing, cron parsing and path canonicalization: abstract functions, the file system fixed while an operation runs.
- Crash-loop detection, pane heuristics, health checks, network probing, tmux and signal handling, command-line and table output: foreign effects or interface.
- `remove_run`, prefix lookups, queue listings and the phase group tables: easy members that no property here needs.
