# Loc.ai:Link agent: a verified model

Loc.ai:Link is an agent that runs on a device. It deploys model files, runs pipelines over them,
updates itself in place, and is driven by commands from a control plane. This project models the
parts of it that carry state across threads, processes, crashes and byte streams, and proves what
they promise. `dafny verify dfyconfig.toml` checks everything.

| module | models | form |
|---|---|---|
| `DeployProtocol`, `DeployOutcome` | deploy workers, cancel, shutdown, commit and the staging files of `AgentRuntime`; how a deploy ends | step relation over threads |
| `LockOrder`, `LockMeaning` | the five locks of the runtime and every operation that takes them; what the steps of a thread mean | programs of `with` blocks, any number of threads |
| `SavedState` | `StateManager`, the persisted state and its session files | class |
| `Lifecycle`, `LifecycleOutcome`, `ModelFiles` | start, stop, serve, commit, update and uninstall, one command at a time; what each leaves behind; the paths of model files | specification functions |
| `Recovery` | recovery after a crash, and whole runs of commands and crashes | specification functions |
| `Runtime` | `AgentRuntime` performing these operations in place, and the start of the program | class |
| `Reconfigure` | hot reconfiguration: validate, apply, revert, restart | methods over specification functions |
| `PendingReports` | the queue file of undelivered uninstall reports | step relation with crashes, class |
| `BundleUpdate`, `BundleOutcome`, `VersionGc` | the A/B update on disk with rollback, how an attempt ends, and its garbage collection | step relation with crashes, loops |
| `ResumableDownload` | the resumable download with its `.partial` sidecar | class over a specification function |
| `EngineStore`, `EngineOutcome` | the on-demand engine install shared by many processes; how a call ends | step relation over processes with crashes |
| `SseStream`, `SseOutcome` | the streaming parser behind the chat telemetry; what it counts and when it raises | class over a specification function |
| `Templates` | placeholder substitution in Python and in Rust | loops and recursion over JSON trees |
| `Calendar`, `SessionNames` | civil dates from day counts, and the names of session files | arithmetic and strings |
| `DetectionEvents`, `DetectionOutcome` | the event debouncer of the two classifier plugins; which detections it emits | class against a batch reading |
| `ChatFraming` | length-prefixed chat frames over a stream that splits anywhere | class, round trip |
| `Search`, `Common` | substring search, splitting, shared types | functions |

Everything outside the program (whether a thread stops, whether components build, what a server
answers, when a process dies) is a parameter or a nondeterministic choice of a step, so each
theorem holds for all of them.

## What turned out to be false, and when it holds

- `START_MODEL` does not compare the id inside its config with the id it addresses (deploy and
  update do), and `new_pipe.start()` may raise after the config is stored and before it is
  persisted. A command leaves memory and disk mirrored if and only if it is safe in both respects
  (`StartMirrorIff`, `HandleMirrorIff`, `RunMirrorIff`); while threads can be created, the one unsafe
  command is a misaddressed `START_MODEL` (`OnlyMisaddressedStartsAreUnsafe`).
  `MisaddressedStartIsForgotten` is a run in which the pipeline runs and no crash ever restarts it.
- A failed start keeps the stored configs unless thread creation raised after a new one was stored:
  `FailedStartKeepsConfigsIff`. The same command again then reports success and nothing runs:
  `RetryAfterRaiseIsNoOp`.
- Uninstall compares paths by spelling. An uninstall for an id without a config names its file
  absolutely, stored configs name theirs relatively, and a file in use is deleted:
  `ExampleNamesDeleteAFileInUse`, with the file names of tests/fixtures/wire under another id. A file
  in use survives if and only if the uninstall is refused, deletes nothing, or no other stored path
  leads to its file under another spelling: `FilesInUseSurviveIff`.
- A stop that reports success does not always outlast a crash: a pipeline that failed to start at
  recovery keeps its active mark, and stopping it is a no-op (`StoppedPipelineComesBack`). It stays
  stopped if and only if it was tracked or not marked active: `StoppedStaysStoppedIff`.
- A pipeline that runs under an id known to neither the old nor the new agent config survives a
  reconfiguration without a config. Exactly then an applied config leaves memory and disk apart:
  `AppliedMirrorIff`, with the run `StartedPipelineIsOrphaned`.
- A pipeline whose thread could not be created stays tracked on its config, and the next start or
  swap to that config skips it. After an apply its thread is dead if and only if it was so before
  (`AppliedRunsIff`); after a revert if and only if the failed apply left it so (`RevertedRunsIff`),
  which can happen on the way (`RevertSkipsTheDeadPipeline`).
- A revert restores the persisted state but rebuilds memory from the old agent config, which later
  commands do not update (`RevertForgetsTheDeployedModel`). The two agree afterwards if and only if
  they agreed before in definitions and in activity: `RevertedMirrorIff`.
- `apply_config` releases its lock before the new config is saved. A command handled in that gap is
  in memory and not on disk (`DeployInTheGapIsNotSaved`), unless it changes no definition or is a
  `START_SERVING`: `ApplyGapIff`. In the same gap of a revert `START_SERVING` is lost too
  (`RevertGapIff`, `ServingInTheRevertGapIsNotSaved`).
- A read of the queue of undelivered reports that raises counts as an empty queue, and the next save
  overwrites the file (`FailedReadLosesTheQueue`). An undelivered id leaves the queue if and only if
  that happens: `UndeliveredLeavesIff`.
- A crash between the last write and the rename of a download leaves a full sidecar
  (`CrashBeforeRenameIsFatal`); every later call then asks for the byte after the end and gives up. A
  call delivers if and only if the sidecar is empty or shorter than the resource:
  `ResumeSucceedsIff`, `StuckIsPermanent`.
- A rollback checks only that the stamped directory exists. It lands on a good version if and only
  if that directory is gone or good (`RollbackSafeIff`). An attempt can lead, by a crash and a
  rollback, to a broken `current` if and only if it installs the stamped version and that is not live:
  `AttemptBreaksIff`, with the run `RollbackCanLandOnTornVersion`.
- The Rust scanner and the Python expression agree on every string, and on every tree, if and only
  if the context agrees on the empty path and at every path a placeholder can name: `AgreementIff`,
  `TreesAgreeIff`. They differ on an empty key (`EmptyPlaceholderAgreesIff`) and on a null leaf
  (`NullLeafDiffers`).
- A second pass changes nothing if and only if no substituted value can open a placeholder:
  `SecondPassIff`. An empty value can (`EmptyValueBreaksSecondPass`).
- An empty chat message ends the client's loop: the round trip is the identity if and only if no
  message is empty (`RoundTripIff`).
- Session names up to a time sort by time if and only if that time is in a four-digit year:
  `SortsByTimeIff`, with the pair of `FiveDigitYearsSortWrong`.

## Model

| member | source | states |
|---|---|---|
| `DeployProtocol.StepKeepsInv` | src/link/app/runtime.py:588-901 | every step of a worker, a deploy (whether or not its thread can be created), a cancel, a shutdown or another lock holder keeps the registry, lock, report and file invariants |
| `DeployProtocol.RunKeepsInv` | src/link/app/runtime.py:588-901 | so does every interleaving of any length |
| `DeployProtocol.OneLiveWorkerPerPipeline` | src/link/app/runtime.py:608-630 | in every reachable state at most one worker of a pipeline is before its cleanup, and the registry names it |
| `DeployProtocol.OneTerminalReport` | src/link/app/runtime.py:639-694 | a deploy has at most one terminal report, exactly one by the time its thread ends or cannot be created, and it says completed iff the config was committed |
| `DeployProtocol.DoomedNeverCommits` | src/link/app/runtime.py:797-823 | a cancelled worker that has not passed its check never commits, in every continuation |
| `DeployProtocol.CancelBeforeCheckPreventsCommit` | src/link/app/runtime.py:812-823 | a cancel set before the commit section reads it prevents the commit, and the report is failed |
| `DeployProtocol.CancelIsLinearised` | src/link/app/runtime.py:846-873 | when CANCEL_DEPLOY signals a worker, that worker has already committed or never will |
| `DeployProtocol.CommitWritesBoth` | src/link/app/runtime.py:813-822 | a worker changes configs only under both locks and past its check, and writes memory and disk alike |
| `DeployProtocol.OneWriterPerFile` | src/link/app/runtime.py:632-637 | at most one worker is downloading any given file |
| `DeployProtocol.TargetAppearsByRename` | src/link/app/runtime.py:717-795 | a model file appears only by the rename of its own staging file, whose size is the declared length when one was declared |
| `DeployProtocol.TargetIsStable` | src/link/app/runtime.py:664-676 | no step rewrites a published file |
| `DeployProtocol.WaitersUseTheCachedFile` | src/link/app/runtime.py:664-676 | once a file is published, and until it is removed, no worker downloads it |
| `DeployProtocol.NamesDoNotClash` | src/link/app/runtime.py:656-657 | staging names are injective and never plain model names |
| `DeployOutcome.DeployFailsIff` | src/link/app/runtime.py:639-823 | in every run from the start, a deploy that has ended reported failure iff its thread could not be created, it read its cancel event after it was set, it raised outside a clean-up, or its body ended short of the declared length, all told from the steps; in every other case it committed, once, and reported success |
| `DeployOutcome.CompletedWasCommitted` | src/link/app/runtime.py:812-823 | a deploy that committed: after that step of the run memory and disk both held its config |
| `DeployOutcome.CompletedHadItsFile` | src/link/app/runtime.py:664-676 | and at an earlier step, under the download lock of the file, the file was there |
| `DeployOutcome.WorkerCanFinish` | src/link/app/runtime.py:639-694 | left alone a worker ends by its own steps, with success if nothing has failed so far |
| `DeployOutcome.DeployCanSucceed` | src/link/app/runtime.py:588-694 | from every reachable state with the locks free and no live worker of the pipeline, a deploy with agreeing ids and a plain name can be taken up and completed |
| `DeployOutcome.DeployDelivers` | src/link/app/runtime.py:664-823 | a deploy of a missing file that nobody disturbs, for any body and any honest or absent length: the whole state after it, with the body as the file, no staging file, the config in memory and on disk, one report and every lock given back |
| `DeployOutcome.FailedDownloadCleansUp` | src/link/app/runtime.py:757-791 | a download that is cancelled or breaks off writes nothing more, removes its staging file and reports failure; one cancelled before it began leaves the files alone |
| `DeployOutcome.EveryActionCanRaise` | src/link/app/runtime.py:717-795 | every action outside the clean-ups can raise and then fails the deploy without touching a file; a raise in a clean-up changes nothing of the outcome |
| `DeployOutcome.ShutdownReachesEveryWorker` | src/link/app/runtime.py:1200-1204 | shutdown can signal every worker that is still alive, and touches nothing else of it |
| `DeployOutcome.RegistryIsGuarded` | src/link/app/runtime.py:609-630 | registrations come and go only when the state lock is free to be taken |
| `DeployOutcome.NamelessNeverDownloads` | src/link/app/runtime.py:656-676 | a deploy without a model name finds the models directory and never downloads |
| `DeployOutcome.EveryWorkerIsProper` | src/link/app/runtime.py:598-607 | every worker of every run came from a command whose ids agree and whose name is empty or one plain component |
| `LockOrder.WaitersHoldLess` | src/link/app/runtime.py:92-108 | a waiting thread waits for a lock above every lock it holds |
| `LockOrder.NoWaitCycle` | src/link/app/runtime.py:92-108 | threads that follow the order never form a wait cycle of any length, in any reachable state |
| `LockOrder.SomeThreadCanMove` | src/link/app/runtime.py:92-108 | while a thread has work left, some thread can take a step |
| `LockOrder.OperationsAreRanked` | src/link/app/runtime.py:438-586 | start, stop, update, reconfigure, deploy, worker, cancel, uninstall, snapshot, recovery, flush and shutdown follow the order, re-entry included |
| `LockOrder.RuntimeNeverDeadlocks` | src/link/app/runtime.py:438-922 | any number of threads running these operations at once never wait in a cycle and never all wait |
| `LockMeaning.StepsAreTheBlocks` | src/link/app/runtime.py:438-586 | a thread that runs a program to its end takes and gives back locks in exactly the ways the nesting of its `with` blocks, branches and loops allows |
| `LockMeaning.OppositeOrdersDeadlock` | src/link/app/runtime.py:92-108 | any two locks taken in opposite orders can deadlock: the order is needed |
| `LockMeaning.ReenteringDeadlocksIff` | src/link/app/runtime.py:92-108 | a thread that takes a lock it holds waits for itself iff it is neither the ops lock nor the state lock |
| `LockMeaning.OnlyTheStateLockIsNested` | src/link/app/runtime.py:438-922 | the locks of each operation; in all of them the one lock taken under another is the state lock, under the ops lock or a worker's download lock |
| `SavedState.LookupUpsert` | src/link/app/state.py:138-165 | an update replaces one definition, keeps its active flag, adds a new one inactive, and touches no other |
| `SavedState.LookupSetActive` | src/link/app/state.py:167-179 | setting a status changes one flag of an existing entry only |
| `SavedState.LookupWithout` | src/link/app/state.py:181-189 | removal removes exactly that id |
| `SavedState.EditsKeepUnique` | src/link/app/state.py:138-189 | every edit keeps ids unique |
| `SavedState.StateManager.LoadState` | src/link/app/state.py:35-79 | a loaded cache is returned as it is; otherwise the session asked for, or else the last in string order, is loaded and bound |
| `SavedState.StateManager.EnsureLoaded` | src/link/app/state.py:199-204 | an edit before any load starts from the latest session, or from a blank unbound state |
| `SavedState.StateManager.Bootstrap` | src/link/app/state.py:81-102 | a new session holds the config, in cache and file, and is listed |
| `SavedState.RestartFindsIff` | src/link/app/state.py:191-197 | the next start without arguments finds an edit iff it was written to the last session in string order, or that one holds the same |
| `SavedState.StateManager.UpdatePipelineConfig` | src/link/app/state.py:138-165 | the loop computes the keyed update, on the loaded, the latest or a blank state, and the file it is bound to follows |
| `SavedState.StateManager.SetPipelineStatus` | src/link/app/state.py:167-179 | the loop computes the flag change, and the file follows |
| `SavedState.StateManager.RemovePipeline` | src/link/app/state.py:181-189 | the id leaves cache and file |
| `SavedState.StateManager.UpdateFullConfig` | src/link/app/state.py:104-122 | the new config is stored with the flags of the pipelines already there |
| `SavedState.StateManager.Restore` | src/link/app/state.py:124-136 | a snapshot comes back exactly, in cache and file; a snapshot of nothing changes nothing |
| `Lifecycle.HandleMirrorIff` | src/link/app/runtime.py:203-305 | every command, whatever the environment answers, leaves the mirror (same definitions in memory and on disk, tracked pipelines stored and marked active, ids unique) iff it is safe: what it starts carries its own id, and a thread that cannot be created was not running and is on disk as it is, marked active |
| `Lifecycle.OnlyMisaddressedStartsAreUnsafe` | src/link/app/runtime.py:209-214 | while threads can be created, a command is unsafe iff it is a START_MODEL that gets as far as launching a config with another id |
| `Lifecycle.TrackedIsStored` | src/link/app/runtime.py:534-545 | every tracked pipeline has a stored config under its own id and is marked active on disk |
| `Lifecycle.StartMirrorIff` | src/link/app/runtime.py:481-547 | a start, from a given or from the stored config, keeps the mirror iff it is safe |
| `Lifecycle.StartMirrorAlwaysIff` | src/link/app/runtime.py:209-214 | a START_MODEL keeps the mirror under every environment in which threads can be created iff the ids agree |
| `Lifecycle.MisaddressedStartIsForgotten` | src/link/app/runtime.py:209-214 | a concrete start with differing ids after which the pipeline runs and nothing on disk is active |
| `Lifecycle.FailedStartKeepsConfigsIff` | src/link/app/runtime.py:481-538 | a failed start leaves persisted definitions and all other pipelines as they were, and the stored configs iff thread creation did not raise after a new config was stored |
| `Lifecycle.FailedStartStopsAtMost` | src/link/app/runtime.py:481-532 | short of that, it leaves its own pipeline as it was, or stopped |
| `Lifecycle.RetryAfterRaiseIsNoOp` | src/link/app/runtime.py:496-498 | after a start whose thread could not be created, the same command reports success under any environment and the pipeline stays dead |
| `Lifecycle.StartedMeans` | src/link/app/runtime.py:481-547 | a successful start ends with the pipeline tracked on its chosen config, which is stored, and persisted under the id it carries; it is marked active iff that is the addressed id or one was saved under that; an identical tracked one is left alone, any other gets a new thread |
| `Lifecycle.DeployedMeans` | src/link/app/runtime.py:812-823 | a commit stores and persists exactly the command's config, keeps the active mark and touches nothing that runs; differing ids change nothing |
| `Lifecycle.UpdatedMeans` | src/link/app/runtime.py:887-927 | a successful update stores and persists its config and keeps the pipeline running or stopped as it was |
| `Lifecycle.ServedMeans` | src/link/app/runtime.py:236-256 | the four serving arguments are stored and persisted even when the start fails, the others are kept, and on success the pipeline runs on them |
| `Lifecycle.CommandsTouchOnlyTheirPipeline` | src/link/app/runtime.py:203-305 | no command changes the thread, stored config or persisted entry of any pipeline but the one it addresses and, for START_MODEL, the one its config names |
| `LifecycleOutcome.StopOutcome` | src/link/app/runtime.py:549-586 | STOP_MODEL fails iff a live thread outlives the join, and then nothing has changed; otherwise the pipeline is untracked and marked inactive, and all else is as before |
| `LifecycleOutcome.StartCommandOutcome` | src/link/app/runtime.py:471-547 | all that a start can come to, with the whole world after it: skipped, refused with nothing changed for a missing config or a thread that does not stop, stopped by a failed build, or tracked, stored, and saved if its thread starts |
| `LifecycleOutcome.DefineOutcome` | src/link/app/runtime.py:887-927 | a commit and an update refuse another id; a commit, and an update of an untracked pipeline, store and save and nothing else; an update of a tracked one is a start |
| `LifecycleOutcome.ServeOutcome` | src/link/app/runtime.py:236-256 | START_SERVING without a stored config changes nothing; otherwise exactly four arguments are rewritten, in the shared object too, and it is a start from there |
| `LifecycleOutcome.UninstallOutcome` | src/link/app/runtime.py:955-1040 | when an uninstall is refused with nothing changed, when after a stop, and else everything of the pipeline and only that is gone |
| `LifecycleOutcome.LiveThreadStaysTracked` | src/link/app/runtime.py:572-576 | whatever the command, a live thread that does not stop is still tracked, and is the same one |
| `LifecycleOutcome.NoLiveThreadIsOrphaned` | src/link/app/runtime.py:572-576 | so over every run of commands |
| `Lifecycle.UninstalledIsGone` | src/link/app/runtime.py:974-1040 | a successful uninstall leaves the pipeline neither running nor stored nor persisted, and its file gone when it can be removed |
| `Lifecycle.FilesInUseSurviveIff` | src/link/app/runtime.py:991-1036 | only uninstall deletes files; every file another stored pipeline points at survives iff the uninstall is refused (unsafe names, still running, or a path spelled alike elsewhere), cannot delete its file, or no other stored path leads to it under another spelling |
| `Lifecycle.RelativePathIsNotSeen` | src/link/app/runtime.py:998-1016 | in any working directory, an uninstall for an id without a config deletes the file a relative stored path leads to |
| `Lifecycle.ExampleNamesDeleteAFileInUse` | tests/fixtures/wire/uninstall_model.json:1-8 | the same with the wire format's example file names under another id, memory and disk still defining the pipeline that uses the file |
| `ModelFiles.ComponentsAreNamed` | src/link/app/runtime.py:994-997 | the components of a path are what is between its slashes, in order, less the empty parts and the dots |
| `ModelFiles.ClimbPlain` | src/link/app/runtime.py:1034-1035 | a path without `..` leads where it says |
| `ModelFiles.ClimbBack` | src/link/app/runtime.py:1034-1035 | going down and up again is staying, anywhere in a path |
| `ModelFiles.ClimbRoot` | src/link/app/runtime.py:1034-1035 | and above the root there is nothing: with the other two this fixes where every path leads |
| `ModelFiles.ModelsPath` | src/link/app/runtime.py:994-997 | a models/ path parses to two components, relative |
| `Recovery.StoredIsLookup` | src/link/app/runtime.py:88-88 | the dictionary built from a list of unique ids is lookup by id |
| `Recovery.ReloadStores` | src/link/app/runtime.py:347-374 | recovery takes in every saved definition as an object of its own, and keeps the other stored configs |
| `Recovery.RecoveryRestartsTracked` | src/link/app/runtime.py:347-374 | after a crash every tracked pipeline is on the list to start, with its definition; recovery completes iff every marked pipeline that builds can be started, and then exactly those run; definitions and marks survive either way |
| `Recovery.StoppedStaysStoppedIff` | src/link/app/runtime.py:549-586 | after a successful stop a crash with a completed recovery does not bring a pipeline that builds back iff it was tracked or not marked active |
| `Recovery.StoppedPipelineComesBack` | src/link/app/runtime.py:563-566 | a concrete run in which a stopped pipeline comes back |
| `Recovery.RunMirrorIff` | src/link/app/runtime.py:203-374 | over every sequence of commands and crashes the mirror holds throughout iff every command is safe when it is handled |
| `Recovery.NothingTrackedIsLost` | src/link/app/runtime.py:347-374 | from a first boot, after any run of safe commands and any crashes, a crash whose recovery completes brings back every tracked pipeline that builds, as it was defined |
| `Runtime.AgentRuntime.StartPipeline` | src/link/app/runtime.py:471-547 | the method makes the transition of the specification, result included, and raises iff the specification does |
| `Runtime.AgentRuntime.StopPipeline` | src/link/app/runtime.py:549-586 | likewise: a thread that does not stop stays tracked and active |
| `Runtime.AgentRuntime.StartServing` | src/link/app/runtime.py:236-256 | likewise, with the stored config rewritten in place and the agent config seeing it when it owns the object |
| `Runtime.AgentRuntime.CommitDeploy` | src/link/app/runtime.py:797-823 | likewise: refused on differing ids, else stored and persisted without touching what runs |
| `Runtime.AgentRuntime.UpdatePipeline` | src/link/app/runtime.py:887-927 | likewise: restart when running, else store |
| `Runtime.AgentRuntime.InUse` | src/link/app/runtime.py:1008-1022 | the scan finds whether another stored config points at the file |
| `Runtime.AgentRuntime.UninstallModel` | src/link/app/runtime.py:974-1040 | likewise, refusals and the forced stop before them included |
| `Runtime.AgentRuntime.RecoverPipelines` | src/link/app/runtime.py:347-374 | the two recovery loops make the specified transition, ending at the first start that raises |
| `Runtime.StartAgent` | src/link/main.py:41-123 | whatever is on disk and on the command line, the program ends, or the runtime is up on the config asked for, saved or fallen back to, with a loaded state manager whose session file holds it |
| `Runtime.StartConfigMeans` | src/link/main.py:41-123 | a session asked for is used only if it loads, and nothing else then; a raw config is used whatever is on disk; otherwise the last session in string order, or the fallback if that does not load |
| `Reconfigure.VerdictIff` | src/link/app/reconfigure.py:59-111 | a request is left untouched, and changes nothing, iff version, shape, device id or transport refuse it; it is applied iff each pipeline it affects can by itself be stopped or placed and the handlers rebuild |
| `Reconfigure.SwapIff` | src/link/app/runtime.py:448-469 | a swap succeeds iff every removed pipeline can be stopped and every target pipeline placed, judged on the state before it |
| `Reconfigure.AppliedRunsIff` | src/link/app/runtime.py:496-498 | after an apply an active pipeline has a started thread iff it was not already tracked on that config without one |
| `Reconfigure.AppliedMeans` | src/link/app/reconfigure.py:92-111 | agent config, configs and persisted definitions are the new ones; among old and new ids exactly the active ones are tracked; all other pipelines keep their threads |
| `Reconfigure.RevertedMeans` | src/link/app/reconfigure.py:113-121 | agent config and persisted state equal those before; among old and new ids exactly those the old config marks active are tracked |
| `Reconfigure.UnloadedRevertMarks` | src/link/app/state.py:124-136 | before any session was loaded a request ends the same way with the same memory, and a revert keeps what its starts and stops saved, so that what runs is marked on disk |
| `Reconfigure.RevertedRunsIff` | src/link/app/runtime.py:496-498 | of these, one has a started thread iff the failed apply did not leave it tracked on that config without one, judged on the state before: it was so and the apply did not get to it, or the new config defines it alike and its thread was dead or could not be created |
| `Reconfigure.RevertSkipsTheDeadPipeline` | src/link/app/runtime.py:496-498 | a concrete run: reverted, tracked, and not running |
| `Reconfigure.RestartComesUpOnTarget` | src/link/app/reconfigure.py:123-138 | when the revert fails too a restart is requested, and the restarted process has the new config's definitions |
| `Reconfigure.AppliedMirrorIff` | src/link/app/runtime.py:438-469 | from a state whose tracked pipelines are marked active, memory and disk mirror each other after an apply iff everything that ran is known to the old or the new config |
| `Reconfigure.StartedPipelineIsOrphaned` | src/link/app/runtime.py:446-459 | a concrete run in which a pipeline outlives its config |
| `Reconfigure.RevertedMirrorIff` | src/link/app/reconfigure.py:116-121 | from such a state they mirror each other after a revert iff the old agent config had the saved definitions and marked active only what was saved active |
| `Reconfigure.RevertForgetsTheDeployedModel` | src/link/app/reconfigure.py:116-121 | a concrete run in which a deployed model is on disk and no longer in memory |
| `Reconfigure.ApplyGapIff` | src/link/app/reconfigure.py:94-96 | a command handled between the apply and the save leaves the same definitions in memory and on disk iff it changes none or is a START_SERVING |
| `Reconfigure.DeployInTheGapIsNotSaved` | src/link/app/reconfigure.py:94-96 | a concrete run: deployed in the gap, in memory and not on disk |
| `Reconfigure.RevertGapIff` | src/link/app/reconfigure.py:118-120 | between the revert and the restore, iff it changes none, START_SERVING included |
| `Reconfigure.ServingInTheRevertGapIsNotSaved` | src/link/app/reconfigure.py:118-120 | a concrete run: served in the gap, with arguments in memory that are not on disk |
| `Reconfigure.PublishedMirrorIff` | src/link/app/runtime.py:438-446 | whatever other threads have stored and saved before, publishing and saving a config leaves memory and disk mirrored iff nothing but its pipelines is tracked |
| `Reconfigure.SwapMatchesTarget` | src/link/app/runtime.py:448-469 | after a full swap exactly the target's active pipelines are tracked among old and new ids, and no other id is touched even when it fails |
| `Reconfigure.UnchangedPipelineIsKept` | src/link/app/runtime.py:496-498 | a running pipeline whose stored config equals the target's is not restarted by a swap, successful or not |
| `Reconfigure.UnchangedPipelineSurvives` | src/link/app/reconfigure.py:92-138 | through the whole transaction, whatever the outcome, it keeps its thread when both configs define it so |
| `Reconfigure.SwapConfig` | src/link/app/runtime.py:428-469 | the loops over removed and target pipelines make the specified transition, stopping at the first failure |
| `Reconfigure.Reconfigure` | src/link/app/reconfigure.py:40-138 | the whole call, with its snapshot and restore, makes the specified transition and verdict; before any session was loaded a revert restores nothing |
| `PendingReports.StepKeepsInv` | src/link/app/runtime.py:1101-1147 | each file operation, the read included, and each failure or crash keeps the queue free of duplicates and in order of entry |
| `PendingReports.RunKeepsInv` | src/link/app/runtime.py:1101-1147 | so does every run |
| `PendingReports.StepLeavesIff` | src/link/app/runtime.py:1123-1147 | an id the operation has not delivered leaves the file in a step iff that step overwrites it after a failed read |
| `PendingReports.UndeliveredLeavesIff` | src/link/app/runtime.py:1101-1147 | over any run with crashes and failures, an id for which no attempt succeeds leaves the queue iff a queue operation failed to read the file while the id was in it and its save went through |
| `PendingReports.FailedReadLosesTheQueue` | src/link/app/runtime.py:1107-1109 | a concrete run in which a queued id is gone though nothing was sent |
| `PendingReports.QueueIsReliable` | src/link/app/runtime.py:1063-1147 | from an empty queue: no duplicates, order of entry, and a queued id stays unless it is delivered or lost to a failed read |
| `PendingReports.UndeliveredIsInOrder` | src/link/app/runtime.py:1142-1142 | what remains after a flush is a subsequence of the queue |
| `PendingReports.UndeliveredIsWhatFailed` | src/link/app/runtime.py:1142-1142 | what remains is exactly the ids whose attempt failed |
| `PendingReports.FlushLeavesUndelivered` | src/link/app/runtime.py:1131-1147 | the steps of an undisturbed flush leave exactly those in the file |
| `PendingReports.FlushedFile` | src/link/app/runtime.py:1111-1145 | on disk: the old file if nothing was delivered, none if everything was, else the rest |
| `PendingReports.QueueAdds` | src/link/app/runtime.py:1123-1128 | an undisturbed queue operation adds its id at the end, once |
| `PendingReports.FailureEndsTheOperation` | src/link/app/runtime.py:1111-1128 | a file operation that fails, and a crash, end the operation and leave the file; until then the lock keeps others out |
| `PendingReports.LoadDump` | src/link/app/runtime.py:1101-1121 | a saved queue loads back unchanged |
| `PendingReports.ReportQueue.QueuePending` | src/link/app/runtime.py:1123-1129 | a new id is appended once to what was read; a known id or a failed save changes nothing; after a failed read it replaces the queue |
| `PendingReports.ReportQueue.FlushPending` | src/link/app/runtime.py:1131-1147 | the file holds the undelivered ids, or the old queue when the read or the save fails |
| `BundleUpdate.StepKeepsInv` | src/link/app/updater.py:1494-1561 | every step and crash of an attempt, and every safe rollback, keeps `current` at a good version and the attempt's own promises |
| `BundleUpdate.CurrentAlwaysGood` | src/link/app/updater.py:571-678 | over all runs of attempts and crashes `current` resolves to a complete version that is the first install or passed its check |
| `BundleUpdate.FinishedAttempt` | src/link/app/updater.py:1494-1561 | an attempt that returns True leaves `current` new, `previous` and the stamp naming the version that was live, both directories intact after collection |
| `BundleOutcome.CurrentHasPassed` | src/link/app/updater.py:1526-1541 | in every run of attempts and crashes `current` leads to the version it led to at the start, never moved since, or to one whose self-check answered yes in the run, after the last time it was put in place |
| `BundleOutcome.PassedIff` | src/link/app/updater.py:1526-1537 | the versions that count as passed are exactly those |
| `BundleOutcome.FailedCheckLeavesNothing` | src/link/app/updater.py:1533-1535 | from every sane install an attempt whose self-check fails ends idle with the release gone and everything else as before |
| `BundleOutcome.AttemptCanFinish` | src/link/app/updater.py:1482-1561 | from every sane install an attempt left alone returns, with the whole disk after it: the release current, the live version previous and stamped, the shape of the pointers kept, no other version left |
| `BundleOutcome.CrashCanTear` | src/link/app/updater.py:1528-1534 | wherever a version is removed a crash can leave it half removed |
| `BundleUpdate.AttemptRemembersLive` | src/link/app/updater.py:1494-1530 | the version an attempt calls live is the one `current` resolved to when it began |
| `BundleUpdate.RollbackSafeIff` | crates/link/src-tauri/src/supervisor/mod.rs:439-479 | a rollback keeps `current` good iff the stamped directory is gone or good |
| `BundleUpdate.StepKeepsStamp` | src/link/app/updater.py:1564-1577 | a stamp names a good version as long as no attempt reinstalls it |
| `BundleUpdate.RollbackAlwaysSafe` | crates/link/src-tauri/src/supervisor/mod.rs:439-545 | with rollbacks at any time `current` stays good, provided no attempt reinstalls the stamped version |
| `BundleOutcome.RolledBackHasPassed` | crates/link/src-tauri/src/supervisor/mod.rs:439-545 | with rollbacks too, as long as no attempt reinstalls the stamped version, `current` leads to a version that passed, or to the first one or the stamped one, never moved |
| `BundleOutcome.RollbackCanFinish` | crates/link/src-tauri/src/supervisor/mod.rs:439-545 | a rollback left alone, with the whole disk after it; one to a version that is gone drops the stamp only |
| `BundleOutcome.ExpiredStampIsGone` | crates/link/src-tauri/src/supervisor/mod.rs:439-480 | past the window the stamp is dropped, and no rollback is possible |
| `BundleUpdate.ReinstallCanTear` | crates/link/src-tauri/src/supervisor/mod.rs:439-479 | from every sane state whose stamped version is in place and not live, a run that begins to install it ends with `current` on it, half removed |
| `BundleUpdate.AttemptBreaksIff` | crates/link/src-tauri/src/supervisor/mod.rs:439-545 | beginning an attempt can lead to a broken `current`, with no further reinstall of a stamped version, iff its release is the stamped version and not live |
| `BundleUpdate.RollbackCanLandOnTornVersion` | crates/link/src-tauri/src/supervisor/mod.rs:439-479 | a concrete run that breaks the proviso and ends with `current` on a half-removed version |
| `VersionGc.SortIsCorrect` | src/link/app/updater.py:735-740 | the candidates are an ordered permutation of the directory |
| `VersionGc.KeepersBounded` | src/link/app/updater.py:742-746 | at most max(keep, pinned) names are kept |
| `VersionGc.KeepersTakeAPrefix` | src/link/app/updater.py:742-746 | a name left out means everything added came before it |
| `VersionGc.KeepersFillTheRoom` | src/link/app/updater.py:721-757 | a candidate is left out only when there is no room for it |
| `VersionGc.CollectOldVersions` | src/link/app/updater.py:720-757 | pinned versions never go, the bound holds when removals succeed, retained unpinned versions are at least as new as removed ones, each goes once, and exactly the rest goes |
| `VersionGc.RemoveOthers` | src/link/app/updater.py:748-757 | every candidate outside the keepers that can be removed is, and nothing else |
| `ResumableDownload.Sidecar.Download` | src/link/app/updater.py:325-371 | the retry and chunk loops compute the specified sidecar, file and result |
| `ResumableDownload.AttemptStaysSound` | src/link/app/updater.py:338-371 | one attempt against an honest server keeps the sidecar a prefix, and completes it when the body arrives in full |
| `ResumableDownload.FetchIsSound` | src/link/app/updater.py:338-371 | a whole call publishes a prefix, the whole resource if the last body arrived in full |
| `ResumableDownload.DeliversIff` | src/link/app/updater.py:338-371 | a call asks until the first body that arrives to its end and publishes the sidecar as it is then; it raises iff none of its attempts gets one, and keeps the sidecar |
| `ResumableDownload.SidecarAlwaysPrefix` | src/link/app/updater.py:338-371 | across all attempts, restarts and crashes the sidecar is a prefix of the resource |
| `ResumableDownload.ResumeSucceedsIff` | src/link/app/updater.py:338-371 | against a server that always delivers, a call succeeds iff the sidecar is not already complete |
| `ResumableDownload.StuckIsPermanent` | src/link/app/updater.py:338-371 | a complete sidecar stays and fails on every later call |
| `ResumableDownload.CrashBeforeRenameIsFatal` | src/link/app/updater.py:338-371 | a concrete history that ends there: the whole body arrives and the process dies before the rename |
| `EngineStore.StepKeepsInv` | src/link/infra/artifact_store.py:341-472 | every step and crash of every process keeps the engine directory genuine and the section exclusive |
| `EngineStore.EngineAlwaysGenuine` | src/link/infra/artifact_store.py:418-472 | in every run the engine directory is absent or the extraction of one archive whose hash is its marker |
| `EngineStore.OneInstaller` | src/link/infra/artifact_store.py:371-416 | at most one process is inside the locked section |
| `EngineStore.ReturnMeansInstalled` | src/link/infra/artifact_store.py:429-472 | a call returns only from a state with the requested hash in place |
| `EngineStore.InstallPutsInPlace` | src/link/infra/artifact_store.py:418-427 | an install puts its hash in place |
| `EngineOutcome.CallFailsIff` | src/link/infra/artifact_store.py:341-472 | in every run a call that has ended raised iff one of its own actions raised where that is fatal, its retiring rename met a leftover old directory, or the data it received has another hash or size than declared, all told from the steps |
| `EngineOutcome.ProcessCanFinish` | src/link/infra/artifact_store.py:429-472 | left alone, with an archive of the declared size and hash to be had, a process that has not failed returns by its own steps with its engine in place |
| `EngineOutcome.CallCanSucceed` | src/link/infra/artifact_store.py:429-472 | from every reachable state with the lock free a new call can succeed, and an install leaves neither archive nor staging nor old directory behind |
| `EngineOutcome.InstalledReturnsAtOnce` | src/link/infra/artifact_store.py:452-456 | with the engine in place a call returns without the lock |
| `EngineOutcome.RaiseEndsTheCall` | src/link/infra/artifact_store.py:459-470 | an exception reports an error, lets go of the lock and leaves the engine, the old directory and the archive as they were |
| `EngineOutcome.CrashCanTear` | src/link/infra/artifact_store.py:418-427 | a crash in a removal, an extraction or the marker write leaves that half done, frees the lock and spares the engine |
| `EngineOutcome.DirectoryActions` | src/link/infra/artifact_store.py:418-427 | staging is empty before the extraction; an old directory that cannot be removed is passed over, and then an engine in place cannot be retired and stays; otherwise it is moved aside |
| `EngineOutcome.LockIsAlwaysUsed` | src/link/infra/artifact_store.py:371-416 | in every run the lock is held only by a process inside the section |
| `EngineOutcome.OnlyMissingArchivesAreFetched` | src/link/infra/artifact_store.py:348-353 | in every run a process downloads only while the cache has no archive of its hash |
| `EngineOutcome.WrongDataIsRemoved` | src/link/infra/artifact_store.py:354-363 | data that fails the checks does not stay in the cache |
| `EngineOutcome.FetchedCounts` | src/link/infra/artifact_store.py:351-353 | the history of fetches counts the archives that came over the network |
| `EngineStore.StepKeepsEngineIff` | src/link/infra/artifact_store.py:418-472 | with an engine in place, a step keeps it iff it is not the replacement by a process of another version |
| `EngineStore.EngineStaysIff` | src/link/infra/artifact_store.py:418-472 | over any run of any processes for any versions an engine in place stays iff no process of another version gets as far as replacing it |
| `EngineStore.WaitersDoNotFetch` | src/link/infra/artifact_store.py:452-472 | until then nobody fetches that version again and everyone asking for it is waiting, done or leaving, whatever other versions are being fetched |
| `EngineStore.OneVersionIsFetchedOnce` | src/link/infra/artifact_store.py:452-472 | in particular while only one version is asked for |
| `SseStream.NextSepIsFirst` | src/link/infra/serving_proxy.py:108-129 | the chosen delimiter is one of the two and starts before every other |
| `SseStream.NextSepStable` | src/link/infra/serving_proxy.py:108-129 | the earliest delimiter to start is the earliest to complete: more bytes never change it |
| `SseStream.DrainIsIncremental` | src/link/infra/serving_proxy.py:108-129 | draining in two parts is draining the whole |
| `SseStream.DrainIsExact` | src/link/infra/serving_proxy.py:108-129 | events, delimiters and leftover concatenate to the input, and no event or leftover contains a delimiter |
| `SseStream.StreamStep` | src/link/infra/serving_proxy.py:108-149 | consuming a prefix and then the rest is consuming the whole, exceptions included |
| `SseStream.StreamAccounts` | src/link/infra/serving_proxy.py:131-181 | over a whole stream the tally counts the content choices of all its documents and holds the last usage object |
| `SseStream.ChatTelemetry.ConsumeEvent` | src/link/infra/serving_proxy.py:131-149 | the line loop computes the specified tally |
| `SseStream.ChatTelemetry.IngestChunk` | src/link/infra/serving_proxy.py:108-129 | one chunk consumes exactly the complete events and leaves the rest |
| `SseStream.ChatTelemetry.IngestStream` | src/link/infra/serving_proxy.py:430-441 | any chunking gives the tally and leftover of the bytes alone |
| `SseStream.RecordMeans` | src/link/infra/serving_proxy.py:183-197 | the record gives the last usage object if there is a non-empty one, else the number of content choices |
| `SseOutcome.StripMeans` | src/link/infra/serving_proxy.py:132-136 | stripping takes all white space off both ends and nothing else |
| `SseOutcome.StreamIsItsLines` | src/link/infra/serving_proxy.py:131-149 | a stream is consumed as the lines of its events, split at line feeds, one after the other |
| `SseOutcome.StreamRaisesIff` | src/link/infra/serving_proxy.py:131-177 | consuming a stream raises iff a line carries a payload that does not decode, or an object whose choices are true or a number other than zero |
| `SseOutcome.StreamObjects` | src/link/infra/serving_proxy.py:131-149 | the documents that are counted are the JSON objects of those lines, in order |
| `SseOutcome.CountMeans` | src/link/infra/serving_proxy.py:172-177 | the count of a list of choices is the number of its places that hold an object with an object delta with content |
| `SseOutcome.RecordRaisesIff` | src/link/infra/serving_proxy.py:183-197 | building the record raises iff a non-empty usage block has a value that is neither false, a number, true nor a string that reads as a number; otherwise the numbers are those |
| `SseOutcome.RecordIsMissingIff` | src/link/infra/serving_proxy.py:131-207 | over the whole stream the record is missing iff a line raises or the last usage block has such a value |
| `SseStream.SameBytesSameRecord` | src/link/infra/serving_proxy.py:183-207 | two recorders that saw the same bytes report the same counts, or both raise |
| `Templates.BodyLengthSound` | src/link/config/templating.py:19-19 | the computed match satisfies the regular expression |
| `Templates.BodyLengthComplete` | src/link/config/templating.py:19-19 | and it is the only one at its position |
| `Templates.ResolveTemplateString` | crates/link/src-tauri/src/setup.rs:873-898 | the scanning loop computes the recursive scan |
| `Templates.ScanIsSub` | crates/link/src-tauri/src/setup.rs:873-898 | the scan is the regular-expression substitution whenever an empty path is left alone |
| `Templates.WalkContext` | src/link/config/templating.py:44-51 | the lookup loop is the walk along the dotted path |
| `Search.SplitMeans` | src/link/config/templating.py:44-51 | the parts of a dotted path contain no dot, and joined with dots give the path back |
| `Search.SplitJoin` | src/link/config/templating.py:44-51 | they are the only such parts |
| `Templates.WalkIff` | src/link/config/templating.py:44-51 | a walk finds a value iff a chain of objects, one per part, leads from the context to it |
| `Templates.PlaceholderMeans` | crates/link/src-tauri/src/setup.rs:900-912 | in both languages a placeholder whose dotted names lead down objects to a string becomes that string, and without such a chain it stays |
| `Templates.AgreementIff` | crates/link/src-tauri/src/setup.rs:873-912 | both languages agree on every string iff the context agrees: the empty key is absent, null or spells the placeholder, and every leaf is absent, a string, a null printed as its placeholder, or printed alike |
| `Templates.ScannerAgreesWithRegex` | crates/link/src-tauri/src/setup.rs:873-912 | on one string they agree when its placeholders are strings or unknown and there is no empty key |
| `Templates.EmptyPlaceholderAgreesIff` | crates/link/src-tauri/src/setup.rs:873-912 | on an empty placeholder they agree iff the empty key is absent, null, or spells the placeholder |
| `Templates.NullLeafDiffers` | crates/link/src-tauri/src/setup.rs:900-912 | a null leaf is kept by Rust and printed by Python |
| `Templates.SecondPassIsIdentity` | src/link/config/templating.py:22-42 | a second pass changes nothing when no substituted value can open a placeholder |
| `Templates.PlainIsInert` | src/link/config/templating.py:22-42 | non-empty text without $ and { is such a value |
| `Templates.SecondPassIff` | src/link/config/templating.py:22-42 | a value leaves the second pass harmless in every text under all names iff it is such a value |
| `Templates.EmptyValueBreaksSecondPass` | src/link/config/templating.py:22-42 | with an empty value it can |
| `Templates.TreesAgree` | crates/link/src-tauri/src/setup.rs:849-871 | on a JSON tree whose strings meet that condition both give the same tree |
| `Templates.TreesAgreeIff` | crates/link/src-tauri/src/setup.rs:849-871 | on every tree both give the same tree iff the context agrees |
| `Templates.ResolvingTwice` | src/link/app/reconfigure.py:57-57 | resolving a tree twice is resolving it once |
| `Templates.StructureKept` | src/link/config/templating.py:22-42 | keys, structure and everything that is not a string are kept |
| `Templates.UnknownPlaceholdersKept` | src/link/config/templating.py:22-42 | a string with only unknown placeholders is unchanged |
| `Calendar.YearOfEraInverts` | crates/link/src-tauri/src/setup.rs:1346-1349 | the nested division gives back the year of every day of every year of the era |
| `Calendar.IntermediateRanges` | crates/link/src-tauri/src/setup.rs:1346-1350 | year of era, day of year and month index stay in range |
| `Calendar.CivilStep` | crates/link/src-tauri/src/setup.rs:1336-1353 | the next day count gives the calendar's next day under the 4/100/400 rule |
| `Calendar.Epoch` | crates/link/src-tauri/src/setup.rs:1336-1353 | day 0 is 1970-01-01 |
| `Calendar.CivilIsGregorian` | crates/link/src-tauri/src/setup.rs:1336-1353 | for every day count the result is that many calendar days after the epoch |
| `SessionNames.PadDecOrder` | crates/link/src-tauri/src/setup.rs:1355-1363 | padded decimals of one width sort as numbers |
| `SessionNames.FormatOrder` | crates/link/src-tauri/src/setup.rs:1336-1364 | up to the year 9999 later seconds have strictly greater names |
| `SessionNames.SessionOrder` | crates/link/src-tauri/src/setup.rs:593-598 | the same for whole session file names |
| `SessionNames.LastSortedIsLatest` | src/link/app/state.py:191-197 | the last name in sorted order is the latest session |
| `SessionNames.SortsByTimeIff` | crates/link/src-tauri/src/setup.rs:1336-1364 | all names up to a time sort by time iff that time is in a four-digit year |
| `SessionNames.FiveDigitYearsSortWrong` | crates/link/src-tauri/src/setup.rs:1336-1364 | the first second of the year 10000 sorts before the last of 9999 |
| `DetectionEvents.RunsAreTheMaximalRuns` | plugins/image_classifier/adapter.py:335-367 | the batch reading lists exactly the maximal runs of one label above the threshold |
| `DetectionEvents.RunsAreOrdered` | plugins/image_classifier/adapter.py:335-367 | in order and without overlap, each once |
| `DetectionEvents.MaxScore` | plugins/image_classifier/adapter.py:335-367 | the score of a run is attained in it and bounds it |
| `DetectionEvents.StepMatches` | plugins/audio_classifier/adapter.py:275-318 | one frame of the machine is one step along the batch reading |
| `DetectionEvents.LastRunStaysOpen` | plugins/image_classifier/adapter.py:335-393 | a run that no frame has ended is not emitted |
| `DetectionEvents.Classifier.FinaliseEvent` | plugins/image_classifier/adapter.py:369-393 | an event is emitted iff it is long enough and long enough after the last emission |
| `DetectionEvents.Classifier.ProcessEventState` | plugins/image_classifier/adapter.py:335-367 | the branches extend, close or open the event as specified and keep label and event together |
| `DetectionEvents.Classifier.ProcessStream` | plugins/image_classifier/adapter.py:335-393 | for every stream the emissions equal the greedy batch reading |
| `DetectionOutcome.MaximalRunIff` | plugins/image_classifier/adapter.py:349-367 | a maximal run is a stretch of frames at or above the threshold with one label, whose neighbours are not |
| `DetectionOutcome.EmissionsMean` | plugins/image_classifier/adapter.py:369-393 | the emissions are the events of ended maximal runs, in order; each lasts at least the minimum duration and comes at least the minimum interval after the mark of the one before; every ended maximal run that is not emitted fails one of the two |
| `ChatFraming.LengthRoundTrip` | plugins/language_model/adapter.py:411-414 | the four length bytes decode to the length |
| `ChatFraming.DecodeFrame` | plugins/language_model/client.py:26-37 | a frame decodes to its message and the rest of the stream |
| `ChatFraming.RoundTrip` | plugins/language_model/client.py:15-37 | whatever is sent comes back in order, up to the first empty message |
| `ChatFraming.RoundTripIff` | plugins/language_model/client.py:26-37 | it all comes back iff no message is empty |
| `ChatFraming.CutStreamYieldsPrefix` | plugins/language_model/client.py:15-37 | a stream cut anywhere yields a prefix of the messages |
| `ChatFraming.Connection.RecvAll` | plugins/language_model/client.py:15-24 | exactly the next n bytes, or nothing when the stream ends first, however it splits |
| `ChatFraming.Connection.ReceiveLoop` | plugins/language_model/client.py:26-37 | the loop prints what the stream decodes to |
| `ChatFraming.Deliver` | plugins/language_model/adapter.py:411-414 | end to end, non-empty messages arrive in order and unchanged |

## Left out

Assumptions of the model:

- Model names do not end in `.partial`; otherwise one model's file is another's staging file.
- Pipeline ids are unique in a saved list and in an agent config, as the schema describes them.
- Status reporters do not raise, and writes of the session file succeed and are not interrupted: `_flush` truncates the file first, so `Lifecycle` lets a crash fall between commands only.
- A release version is a plain non-empty name, its directory name is the version in its manifest, `current` is neither a real directory nor a dangling link in front of a file, and removing staging directories completes.
- The cross-process engine lock is exclusive and dies with its holder.
- Paths are POSIX paths without symbolic links, and a leading double slash counts as one.
- Names of session files are ordered only among those the Rust formatter writes: `StateManager.bootstrap` uses local time, although a comment in setup.rs calls the two formats the same.
- Thread creation is the only thing that can raise between the tracking of a pipeline and its persistence.
- `Recovery` takes a crashed process to come up on what it saved: it was bound to the session that sorts last (`SavedState.RestartFindsIff`).

Not modelled:

- HTTP, Zenoh, subprocesses, service managers, signals, metrics, logging, menus and windows: effects or plumbing.
- SHA-256, code signatures, archive formats and version comparison: uninterpreted, a hash is any function of the bytes.
- Interleavings of commands inside one another's sections, uninstall with a concurrent start or deploy above all, since it does not take the ops lock: `Lifecycle` handles a command as one step, `Reconfigure` lets one fall into the gaps of a reconfiguration, `LockOrder` and `DeployProtocol` (as the removal of a file) let them interleave.
- `SwapManager` and the plugins' own locks: construction and teardown of components are opaque to the lock order.
- `_net_recv` of the chat adapter: it does not loop on short reads, so framing covers the agent-to-client direction.
- The UTF-8 decoding and JSON parsing inside the telemetry parser: an arbitrary parser is a parameter, which may reject or raise; JSON numbers are integers, and the reading of a numeral in a usage count is a parameter.
- Schema validation of commands and configs: a config is a value, and its rejection is a parameter of `Reconfigure.Reconfigure`.
- Rounding, ISO timestamps and backoff: reals, and no formatting.
- Platform tables, asset naming, installers and signing scripts: easy lookups.
- The time window of the supervisor's rollback: whether an exit falls inside it is a choice of the step.
