# Web builder: spending, sandboxes, checkpoints, runs and their client

A Dafny 4.11 model of the parts of the web builder that keep promises over time:

- **Spending** (`Calendar`, `Ledger`, `LedgerRuns`, `ModelBudget`, `SandboxBudget`, `Spending`): nano-dollar reservations against UTC
  days and months. Time is microseconds since the first day the calendar knows; each transaction under the user row lock
  is one step and reads a clock that does not go back.
- **Sandbox ownership** (`SandboxRuntime`, `SandboxSafety`, `SandboxRuns`, `SandboxFaults`, `SandboxOutcomes`, `SandboxCode`, `Capacity`): one
  durable row and at most one remote sandbox per project. Every `await` that changes the database or the provider is a
  step; it may be refused, or take effect unseen, and the process may crash or the caller be cancelled between any two.
  A create or a connect may land late or never; a list may answer with nothing; sandboxes may sleep or vanish.
  `SandboxOutcomes` says what each operation leads to when it is answered, `SandboxCode` writes the methods of
  `SandboxRuntimes` as the code does and proves that they take only steps of that machine.
- **Checkpoints** (`Persistence`, `PersistenceSafety`, `PersistenceRuns`, `PersistenceOutcomes`, `PersistenceCode`, `Maintenance`, `Checkpoints`): a
  pending row, an immutable object, a compare-and-set on the parent; recovery, expiry, collection, and deletion that
  drains uploads. Any number of saves may be in progress at once, beside a run and while the project is deleted, and a
  put may arrive after its client has given up.
- **Archives** (`Paths`, `Archive`, `Restore`): the manifest checks, packing and restoring over an abstract file system.
- **Runs** (`RunLog`, `Editor`): the durable event log with one outcome, and the editing conversation with its budgets.
- **Client** (`RunReplay`, `RunShown`, `RunSession`, `FileTree`, `ContentCache`): the event reducer, the file tree and the file cache.

Code that works on objects step by step is modelled by classes whose methods are proved against specification functions,
protocols whose calls can be cut short anywhere by step machines. Each module keeps its supporting lemmas beside its theorems.

## Where the code does less than it promises

- `SandboxFaults.StaleCreateIsReachable`: when the caller of a removal is cancelled after the row's deletion is committed
  and before the handle is forgotten, the handle stays. A later build records its create over it; if that reply is lost,
  the next `retire` kills only the old sandbox and deletes the row of the living one. `CreateIsSafeWithoutAHandle` shows
  that recording a create is safe exactly when no handle is held. `Capacity.OrphansExceedEveryLimit`: such a sandbox
  holds no slot, so that one too many can run under every limit.
- `SandboxFaults.LateConnectIsReachable`: when a connect is given up, a later status query may still be told that the
  sandbox is paused. The row is then marked paused and its entry settled, and if the connect lands after that, the sandbox
  runs unpaid under a row that does not count. `PausedIsTrueWithoutAConnect` shows that believing "paused" is safe exactly
  when no connect is outstanding. `SandboxRuns.EverySteadyRunIsSafe` shows that nothing but these two breaks the protocol.
- `PersistenceRuns.DeletedObjectsReturnOnlyAdrift`: an object can come back after the deletion intent is gone if and only
  if a put for it, timed out for its client, was still on its way. Uploads that the process waits for never do that.
- `RunLog.SnapshotCanOverwriteSuccess`: `snapshot` reads a run and writes its status back without a lock, so a run that
  finishes in between loses its outcome. `TerminalIsAbsorbingUnlessStale` says exactly when a step changes a terminal status.
- `Restore.DotIsAcceptedButNotRestored`: `safe_path` accepts `"."`. A manifest that names it is accepted, and cannot be
  extracted; every other accepted archive can (`RestoredWorkspaceIsTheManifest`). `pack` never produces it.
- `FileTree.AncestorsAreMisplaced`: the tree builder misplaces or loses a file that lies below another listed one. It shows
  its input if and only if there is none, which `manifest` guarantees (`CheckpointsMakeATree`).

## Model

| member | source | states |
|---|---|---|
| Calendar.WindowsDenote | agent/budget.py:30-37 | the two windows of an instant are the UTC day and the UTC month that contain it |
| Calendar.FourDaysAfterThe28th | agent/budget.py:33 | four days after the 28th is always in the next month, in leap years too |
| Calendar.TouchedByAShortInterval | agent/budget.py:92-94 | an interval shorter than a day reaches exactly the days and months that contain one of its ends |
| Calendar.TouchingIsMeeting | agent/budget.py:40-45 | reaching into a day or a month is sharing an instant with it |
| Calendar.CivilCalendar | agent/budget.py:30-37 | months begin where the civil calendar has them begin, in every year, leap years included |
| Ledger.RoundedCostIsCeiling | agent/budget.py:69-72 | the runtime cost is the least whole number of nano-dollars not below rate times time |
| Ledger.ChargedWhereItMeets | agent/budget.py:40-45 | an entry counts in full for its own user in every day and month that its interval meets, and nowhere else |
| Ledger.WindowSum | agent/budget.py:90-99 | the sum compared with a limit is the window's total in the ledger the reservation would produce |
| Ledger.FitsInEveryWindow | agent/budget.py:94-102 | checking the windows of both ends is checking every day and month the interval reaches |
| Ledger.AdmissionWindows | agent/budget.py:94 | room in the computed windows is equivalent to room in every period reached |
| Ledger.SpendLedger.Reserve | agent/budget.py:75-110 | a reservation succeeds exactly when it is admissible, holds the amount from now on, closes the replaced lease at its running time in the same step, and leaves the ledger alone otherwise |
| Ledger.SpendLedger.FullWindow | agent/budget.py:95-102 | the loop finds a window without room exactly when there is one |
| Ledger.SpendLedger.Settle | agent/budget.py:113-127 | only a reserved entry is settled: at the given amount, or at the least amount that pays for its running time; the others stay, and repeated settlement changes nothing |
| Ledger.SpendLedger.Confirm | agent/sandbox_budget.py:50-68 | the hold becomes the least amount that pays for the confirmed rate and deadline, even when the caller is told that it was exceeded |
| LedgerRuns.NeverOverspends | agent/budget.py:75-127 | over any interleaving of reserve, replace, confirm and settle, no UTC day or month of a limited user exceeds its limit |
| LedgerRuns.SettledIsFinal | agent/budget.py:121-122 | no call changes a settled entry |
| LedgerRuns.LeasesRollForward | agent/budget.py:103-108 | over any run, a lease rolled forward is settled interval by interval, each for exactly its running time |
| LedgerRuns.SettledLeasesAreDisjoint | agent/budget.py:103-108 | settled intervals of one lease never overlap |
| LedgerRuns.RoundingIsBounded | agent/budget.py:69-72 | the total charged is at least the exact cost and less than one nano-dollar per lease above it |
| LedgerRuns.RolledLeasesAreChargedExactly | agent/budget.py:90-127 | over any run, the leases rolled from a first one do not overlap, cost at most their holds and exactly their time, and in all their exact cost to within a nano-dollar a lease |
| LedgerRuns.WholeLeasesAreChargedExactly | agent/budget.py:90-127 | the same for all leases of a sandbox once a pause or a removal has settled the last one, and so it stays over any run |
| LedgerRuns.RollChargesAtMostTheHold | agent/budget.py:90-105 | rolling a lease charges at most what it held |
| ModelBudget.BoundCoversUsage | agent/model_budget.py:27-38 | the reserved amount bounds the cost of any usage within the bounds, on both sides of the long-context step |
| ModelBudget.ModelCostIsThePrice | agent/model_budget.py:27-38 | the cost is the price of the prompt token by token, each at the rate of its kind, doubled for a long prompt and half as much again for its answer, rounded up once |
| ModelBudget.BoundIsAttained | agent/model_budget.py:62-63 | the reserved bound is the price of a prompt that can occur, so that it is not too high either |
| ModelBudget.UsableReportsDescribeAPrompt | agent/model_budget.py:92-101 | every report that can be used describes a prompt, so that its charge is fixed |
| ModelBudget.ReportedUsageIsCovered | agent/model_budget.py:92-101 | whatever the report leaves unknown, its charge stays within the reservation for that many tokens |
| ModelBudget.SpendScope.ReserveRequest | agent/model_budget.py:41-75 | a request is admitted exactly when it is supported and its bound fits the allowance, and then holds that bound; a failure, with or without a commit, blocks every later request |
| ModelBudget.SpendScope.SettleResponse | agent/model_budget.py:78-117 | a rejection is charged nothing, a usable report the price of the prompt it describes, anything else keeps its hold; within the bounds there is no overage, and what could not be recorded is unconfirmed |
| SandboxBudget.LeaseOutlivesDeadline | agent/sandbox_budget.py:40-42 | a lease outlasts every deadline the provider can set within a minute of it |
| SandboxBudget.LeaseIsNoLongerThanNeeded | agent/sandbox_budget.py:40-42 | apart from the spare minute a lease is as short as whole seconds allow |
| SandboxBudget.SandboxRateIsCeiling | agent/sandbox_budget.py:12-18 | the rate is the least whole amount that covers processors and memory |
| SandboxBudget.SandboxRateAscends | agent/sandbox_budget.py:12-18 | a larger sandbox never costs less per second |
| SandboxBudget.Lessor.ReserveRuntime | agent/sandbox_budget.py:21-47 | a lease holds exactly its rate for every second of its length, never above the ceiling's rate; sizes and prices without a cost are refused |
| SandboxBudget.Lessor.ConfirmRuntime | agent/sandbox_budget.py:50-68 | the hold becomes that of the reported size and deadline; a size without a cost changes nothing |
| Spending.HonestIsTame | agent/sandbox_budget.py:40-68 | with a provider within the bounds, the calls of both hooks and of the leases settle and confirm at most what is held |
| Spending.BuilderNeverOverspends | agent/model_budget.py:41-117 | over any run of model requests, leases, confirmations and settlements with such a provider, no UTC day or month of a limited user exceeds its limit |
| Spending.NoOverage | agent/model_budget.py:108-110 | with such a provider no response costs more than was reserved |
| Spending.ConfirmationHolds | agent/sandbox_budget.py:50-68 | over the entries of a run, a confirmation holds the reported size and deadline |
| Spending.EndingsCharge | agent/model_budget.py:85-107 | over the entries of a run, an answer is charged the price of its prompt, a rejection nothing, and a sandbox its running time |
| SandboxSafety.NextKeepsInv | agent/sandbox_runtime.py:42-217 | every step, with replies lost or late, keeps the ownership invariant, except a create over a held handle and a pause believed over an outstanding connect |
| SandboxRuns.EverySteadyRunIsSafe | agent/sandbox_runtime.py:56-217 | over any run without a cut removal and without believing "paused" over an outstanding connect: one sandbox, tagged by its row; what may run is reserved; a paused row's sandbox does not run; a reusable row names its files; skipping the restore is sound |
| SandboxRuns.CleanRunsAreSafe | agent/sandbox_runtime.py:116-198 | the same over any run in which no create is recorded over a held handle and "paused" is believed only without an outstanding connect |
| SandboxFaults.CreateIsSafeWithoutAHandle | agent/sandbox_runtime.py:157-180 | recording a create can be followed by an ownerless sandbox exactly when a handle is still held |
| SandboxFaults.StaleCreateIsReachable | agent/sandbox_runtime.py:56-63 | a cancelled removal followed by a lost create reply leaves a running sandbox without a row or a handle |
| SandboxFaults.PausedIsTrueWithoutAConnect | agent/sandbox_runtime.py:107-113 | noting a pause can be followed by a sandbox that runs under a paused row exactly when a connect is outstanding, and then also without a reserved entry if the row's was the newest |
| SandboxFaults.LateConnectIsReachable | agent/sandbox_runtime.py:134-153 | from a new project: a connect that is given up, a status query, and a sandbox that wakes unpaid |
| SandboxOutcomes.StartKeepsUpToDate | agent/sandbox_runtime.py:123-149 | a sandbox that is reusable, running or paused, of the latest revision and the current template and generation is kept: the same one is in hand under a new lease, without a restore |
| SandboxOutcomes.OutdatedIsNeverHandedOut | agent/sandbox_runtime.py:123-156 | a sandbox of another revision, template or generation, or one not reusable, is never handed out, whatever the answers; it is gone before another is in hand |
| SandboxOutcomes.OutdatedIsReplaced | agent/sandbox_runtime.py:154-180 | it is removed and exactly one other is created, to be restored |
| SandboxOutcomes.GoneIsReplaced | agent/sandbox_runtime.py:140-145 | a kept sandbox found to be gone is replaced; a new one found to be gone ends the acquisition |
| SandboxOutcomes.SettledLeasesEndTheAcquisition | agent/sandbox_runtime.py:135 | an entry settled meanwhile is not rolled, and nothing is connected |
| SandboxOutcomes.CreationMakesOne | agent/sandbox_runtime.py:157-180 | without a row: one lease, one row, one request under its tag, and one sandbox in hand, to be restored |
| SandboxOutcomes.RemovedProjectsGetNone | agent/sandbox_runtime.py:161-164 | for a removed project no sandbox is requested |
| SandboxOutcomes.RejectionUndoes | agent/sandbox_runtime.py:171-175 | an explicit rejection takes back the row and the lease |
| SandboxOutcomes.RetirementRemoves | agent/sandbox_runtime.py:65-96 | a retirement leaves no row, handle, sandbox or lease |
| SandboxOutcomes.ListedAreKilled | agent/sandbox_runtime.py:74-84 | without an id, what is killed is what is listed under the row's tag |
| SandboxOutcomes.PauseReleases | agent/sandbox_runtime.py:203-209 | a pause stops the sandbox, settles its entry, forgets the handle and keeps the row reusable |
| SandboxOutcomes.PausedIsResumable | agent/sandbox_runtime.py:123-149 | a paused sandbox is kept by the next acquisition if nothing was saved meanwhile |
| SandboxOutcomes.MissingIsRemoved | agent/sandbox_runtime.py:102-106 | a sandbox the provider does not know loses its row and its entry |
| SandboxOutcomes.RestoreFills | agent/service.py:212-230 | a restore leaves the files of the revision asked for |
| SandboxOutcomes.OpeningPublishes | agent/service.py:280-287 | an opened preview is published for the revision it was opened for if that is still the latest, and only then |
| SandboxOutcomes.BuildInvalidatesFirst | agent/service.py:333-334 | a build first makes its sandbox one that is not handed out again |
| SandboxOutcomes.BuildSavesAndPublishes | agent/service.py:341 | the files a build leaves are saved as the latest revision, and its sandbox is published for it |
| SandboxOutcomes.UneditedBuildKeepsTheRevision | agent/persistence.py:131-133 | a build without edits publishes the revision it began with |
| SandboxOutcomes.RecoveredIsTheLatest | agent/persistence.py:103-118 | a recovered or imported revision is the latest, and a sandbox of an older one no longer up to date |
| SandboxOutcomes.CrashForgets | agent/sandbox_runtime.py:29-31 | a crash forgets the handle and nothing durable |
| SandboxCode.Runtimes.Retire | agent/sandbox_runtime.py:65-96 | with or without a row, only machine steps are taken; true means that the row, the handle and the sandboxes they named are gone |
| SandboxCode.Runtimes.RetireRow | agent/sandbox_runtime.py:68-96 | the same for a row that a replacement may follow; the row goes only once its entry is settled |
| SandboxCode.Runtimes.Acquire | agent/sandbox_runtime.py:116-180 | only machine steps are taken; success is a handle to the sandbox that the row names, its entry still reserved; it is the old sandbox, without a restore, only if that was up to date, and always if it was and every call is answered |
| SandboxCode.Runtimes.Look | agent/sandbox_runtime.py:118-125 | the sandbox counts as compatible exactly when it is up to date |
| SandboxCode.Runtimes.Keep | agent/sandbox_runtime.py:126-145 | a compatible sandbox that is there is kept whenever every call is answered |
| SandboxCode.Runtimes.Reuse | agent/sandbox_runtime.py:134-153 | the new lease is in the row and reserved, whether the sandbox is reused or to be replaced |
| SandboxCode.Runtimes.Create | agent/sandbox_runtime.py:157-180 | the new row names the new sandbox and its reserved lease; any error ends the attempt |
| SandboxCode.Runtimes.AwaitReply | agent/sandbox_runtime.py:166-176 | an explicit rejection settles and removes the row, anything else keeps it |
| SandboxCode.Runtimes.Query | agent/sandbox_runtime.py:98-114 | the row follows the provider; a paused sandbox's entry is settled, and its handle forgotten; an unknown state changes nothing |
| SandboxCode.Runtimes.Pause | agent/sandbox_runtime.py:200-217 | a row that is not reusable is retired; true only when the pause is confirmed or the sandbox gone, and nothing is held for it any more |
| SandboxCode.Runtimes.Invalidate | agent/sandbox_runtime.py:182-186 | the row is not reusable before the first change |
| SandboxCode.Runtimes.Publish | agent/sandbox_runtime.py:188-198 | only the running sandbox in hand is marked, and for the saved revision |
| SandboxCode.Runtimes.Mark | agent/sandbox_runtime.py:66-73 | the row is retiring, and no longer reusable, before anything is killed |
| SandboxCode.Runtimes.List | agent/sandbox_runtime.py:74-84 | an empty or failed listing ends the attempt and keeps the row |
| SandboxCode.Runtimes.KillAll | agent/sandbox_runtime.py:85-91 | the loop kills every id or keeps the rest for another attempt |
| SandboxCode.Runtimes.Remove | agent/sandbox_runtime.py:56-63 | the row goes only once its entry is settled, and the handle only with a commit that was heard of |
| SandboxCode.CodeIsSafe | agent/sandbox_runtime.py:56-217 | the states of that code are states of the machine, hence safe |
| Capacity.EverySteadyHostRunStaysWithinTheLimit | agent/service.py:66-73 | over any run of all projects without a cut removal and without believing "paused" over an outstanding connect, the running sandboxes never exceed the limit |
| Capacity.RunningNeverExceedsTheLimit | agent/service.py:131-173 | the same over any run in which no create is recorded over a held handle and "paused" is believed only without an outstanding connect |
| Capacity.OrphansExceedEveryLimit | agent/service.py:66-73 | under every limit, the sandbox that a cut removal orphans and as many admitted projects run one sandbox too many |
| Capacity.RetiringAPausedRowReserves | agent/service.py:66-73 | the reserved set grows when a paused row starts retiring, while the running set does not |
| Capacity.AdmissionIsExact | agent/service.py:66-73 | a start is admitted exactly when the row is neither being created nor retired and the project counts already or a slot is free; a refusal changes nothing |
| Capacity.TheAskerStays | agent/service.py:66-70 | a project counts as busy from the start of an open or a build to its end |
| Capacity.StartingTakesASlot | agent/service.py:66-73 | with a free slot a paused or new project starts, and takes it |
| PersistenceSafety.InitialInv | agent/persistence.py:103-152 | a new project satisfies the checkpoint invariant |
| PersistenceRuns.NextKeepsInv | agent/persistence.py:49-152 | every step of concurrent saves, uploads, late puts, crash, recovery, collection and deletion keeps the invariant |
| PersistenceRuns.PointersAlwaysHold | agent/persistence.py:103-152 | over any run both pointers are null or name a ready revision stored with its recorded bytes |
| PersistenceOutcomes.VerifiedMovesWithASuccess | agent/service.py:312-316 | the verified pointer moves only when a run ends in success, to what that run published last, and when the project is deleted |
| PersistenceOutcomes.PublishedByTheRun | agent/service.py:238-252 | what a run has published changes only with a save of its own, and is forgotten at its end |
| PersistenceOutcomes.VerifiedWasSavedByASuccess | agent/service.py:312-316 | over any run of steps, a verified revision was published by a run that then ended in success |
| PersistenceOutcomes.SavingAnEditPublishesIt | agent/persistence.py:121-152 | a save of edited files ends with exactly one more revision, ready, stored and current |
| PersistenceOutcomes.AVerifiedRun | agent/service.py:335-341 | a run that saves an edit verifies it exactly if it ends in success, and keeps the save either way |
| PersistenceOutcomes.LosingSavesChangeNothing | agent/persistence.py:111-112 | the loser of two saves with one parent moves no pointer |
| PersistenceOutcomes.LateUploadsAreRefused | agent/persistence.py:50-55 | an upload that starts after the deletion never reaches the store |
| PersistenceOutcomes.UnseenPutsEndTheSave | agent/persistence.py:49-77 | a put whose end is not seen, or that fails, ends the save with its row pending; in the first case the object is there |
| PersistenceOutcomes.RecoveryCompletesASave | agent/maintenance.py:61-68 | a stored save is completed after a crash if its parent is current and no run owns the project, and is otherwise left alone |
| PersistenceOutcomes.CrashForgets | agent/service.py:103-117 | a crash ends saves, runs and cleanups; rows, objects, pointers and intents stay |
| PersistenceOutcomes.UnstoredSavesExpire | agent/maintenance.py:69-75 | a save without its object can only be given up |
| PersistenceOutcomes.CollectionRemoves | agent/maintenance.py:104-114 | a collected revision loses its row and its object, and nothing else changes |
| PersistenceOutcomes.DeletionErases | agent/maintenance.py:30-47 | a deleted project's object and its intent are both gone after the cleanup |
| PersistenceOutcomes.CleaningWaits | agent/persistence.py:74-77 | no object is erased while an upload that was under way for it is unfinished |
| PersistenceRuns.NoSharedParent | agent/persistence.py:111-116 | over any run, of the saves recorded with one parent at most one is ever promoted |
| PersistenceRuns.ChainOnlyGrows | agent/persistence.py:111-116 | promoted revisions are only appended, and the pointer never returns to an earlier one |
| PersistenceRuns.OutdatedIsNeverPromoted | agent/persistence.py:111-112 | a revision whose parent is no longer current is never promoted, over any run |
| PersistenceRuns.PendingWithOldParentIsOutdated | agent/persistence.py:111-112 | a pending revision with another parent than the pointer is outdated for good |
| PersistenceRuns.SavingTheSameAddsNothing | agent/persistence.py:131-133 | saving unchanged content adds no row and names the current revision, in a run or outside it and beside other saves |
| PersistenceRuns.DeletionQueuesEverything | main.py:321-331 | deletion queues the key of every revision and every run, also while saves are in progress |
| PersistenceRuns.DeletedObjectsReturnOnlyAdrift | agent/persistence.py:49-77 | once the intent for a deleted key is gone, an object is stored under it in some later state exactly when a put without a client has arrived or is on its way |
| PersistenceRuns.DeletedObjectsNeverReturn | agent/persistence.py:49-77 | without such a put no object is or ever will be stored under the key, whatever callers were cancelled and saves in progress |
| Checkpoints.CheckpointWithoutEditsAddsNothing | agent/persistence.py:121-133 | a workspace packed, saved, restored anywhere, packed again and saved again adds no row |
| PersistenceCode.Chat.Promote | agent/persistence.py:103-118 | succeeds exactly for a ready revision or a pending child of the pointer, and then moves the pointer to it |
| PersistenceCode.Chat.Record | agent/persistence.py:125-147 | the pending row's parent is the current revision; there is none exactly when the content is the same; a removed project is refused |
| PersistenceCode.Chat.Delete | main.py:316-331 | a missing project and an active one are refused; otherwise every key is queued before the rows go, and saves in progress go on |
| PersistenceCode.Tracker.Register | agent/persistence.py:59-61 | an upload is in the table from its creation |
| PersistenceCode.Tracker.Finished | agent/persistence.py:63-70 | a finished upload leaves the table, with its key when it was the last |
| PersistenceCode.Tracker.Pending | agent/persistence.py:74-77 | what is waited for is every unfinished upload of the key |
| Maintenance.Keepers | agent/maintenance.py:102-103 | exactly the five newest ready revisions and the two pointers are kept |
| Maintenance.MarkForCollection | agent/maintenance.py:104-109 | exactly the rows neither kept, pending nor recent are marked and collected: past the newest five ready ones, older than an hour, not pointed to |
| Maintenance.FiveReadySurvive | agent/maintenance.py:100-109 | a collection leaves five ready revisions, or all there were |
| Maintenance.CollectedIsAllowed | agent/maintenance.py:100-109 | what is collected is neither pending nor pointed to |
| Maintenance.Cleanup.CleanupProjectStorage | agent/maintenance.py:30-47 | each object or folder is deleted, after the uploads under way for it, and forgotten, or kept with its intent, independently of the others |
| Paths.SplitJoin | frontend/lib/files/tree.ts:7 | splitting undoes joining, so that a path has one list of parts |
| Paths.JoinSplit | frontend/lib/files/tree.ts:12 | joining undoes splitting |
| Paths.StrFixed | agent/archive.py:27 | `str` leaves a relative path alone exactly when it is `"."` or has no empty or dot part |
| Archive.SafePathMeans | agent/archive.py:23-29 | apart from `"."`, a name is safe exactly when its parts are plain and not excluded, and its length and characters are allowed |
| Archive.SafeNames | agent/archive.py:19-29 | the same written out, limits, characters and excluded names included |
| Archive.AncestorsAreSafe | agent/archive.py:72-76 | the directories above a safe path are safe |
| Archive.CollectWorkspaceFiles | agent/archive.py:67-90 | the walk, in any order, returns the allowed regular files within the limits, or fails |
| Archive.WorkspaceFilesMeans | agent/archive.py:67-90 | the walk succeeds exactly when every visible node is a directory or file with a safe name and the limits hold |
| Archive.SourceFilesMean | agent/archive.py:67-90 | and then returns each visible file under its own name with its bytes |
| Restore.CheckManifest | agent/archive.py:32-59 | the entries are returned exactly when every item is admitted, within the limits, and no file lies below another |
| Restore.ManifestIsSound | agent/archive.py:32-59 | an accepted manifest has only safe names, no conflicts, and stays within the limits |
| Restore.ManifestMeans | agent/archive.py:32-59 | an archive is accepted exactly when its items are safe, regular, not encrypted, distinct and within the limits and no name runs through another; the result is each name with its data |
| Restore.Clear | agent/archive.py:111-117 | only a real top-level `node_modules` directory survives |
| Restore.RestoreInto | agent/archive.py:107-119 | clears, then lays the members out one by one, or fails |
| Restore.ExtractLays | agent/archive.py:118-119 | a new file and its directories leave what is laid out already as it was |
| Restore.RestoredWorkspaceIsTheManifest | agent/archive.py:107-119 | on any root, the files of the restored workspace are the manifest; it fails if and only if the manifest names `"."` |
| Restore.RestoredIsExactly | agent/archive.py:107-119 | node by node: the archive's files, the directories above them, and what was below a real `node_modules`, unchanged |
| Restore.RestoredIsAFileSystem | agent/archive.py:107-119 | the result is again a file system, so that it can be packed |
| Restore.Pack | agent/archive.py:93-104 | succeeds exactly when the archive and a second walk agree with the first walk |
| Restore.PackedWorkspaceComesBack | agent/archive.py:93-119 | what was packed comes back on any root, and packing it again gives the same content |
| Restore.DotIsAcceptedButNotRestored | agent/archive.py:23-29 | an archive with a file `"."` is accepted and cannot be restored |
| RunLog.LogsAreWellNumbered | agent/service.py:185-252 | from a new run, over any steps with unseen commits: events 1..n, at most one terminal one and it is last, n at most 201, all on the first page |
| RunLog.NextKeepsInv | agent/service.py:296-322 | every step keeps the log invariant |
| RunLog.StatusMoves | agent/service.py:301-310 | a status changes by the first finish that commits, to its outcome; by a restart; and by a snapshot that finds no task |
| RunLog.LogMoves | agent/service.py:190-197 | the log grows by one event, by an emission that commits within the first 200 or by the finish |
| RunLog.PagesContinue | agent/events.py:33-36 | a page after any number holds the next events in order, up to 201 |
| RunLog.TerminalIsAbsorbingUnlessStale | agent/service.py:413-425 | a step keeps a terminal status exactly unless it writes back an earlier read |
| RunLog.TerminalIsFinalWithAtomicSnapshots | agent/service.py:301-310 | with a snapshot in one step, an outcome is final over any run |
| RunLog.SnapshotCanOverwriteSuccess | agent/service.py:413-425 | as written, a snapshot can turn a success into an interruption |
| RunLog.LiveRun.Emit | agent/service.py:190-197 | the event is committed with the next number, or nothing is; an unseen commit ends the emitting |
| RunLog.LiveRun.Finish | agent/service.py:296-319 | the outcome is recorded once, numbered from the durable log |
| RunLog.LiveRun.HighestSequence | agent/service.py:307-308 | the maximum of the durable sequence numbers |
| Editor.ProjectPathIsCanonical | agent/tools.py:20-28 | a returned project path is its own project path |
| Editor.ProjectPathMeans | agent/tools.py:20-28 | a project path leads downwards through no reserved part; what is returned has the same parts |
| Editor.WrittenMeans | agent/tools.py:75-94 | a batch writes under each project path its content and nothing else |
| Editor.Workspace.Read | agent/tools.py:44-61 | what is read, cached or not, is what the sandbox holds |
| Editor.Workspace.ReadTool | agent/tools.py:66-73 | every file of a batch is what the sandbox holds |
| Editor.Workspace.WriteTool | agent/tools.py:75-94 | a batch is written whole, refused whole, or ends the run with the cache empty |
| Editor.Workspace.ExecuteTool | agent/tools.py:96-110 | a command that was started always empties the cache and raises the revision |
| Editor.Workspace.EnsurePreviewCurrent | agent/browser.py:25-30 | the preview serves the current files when this succeeds; the revision moves only then |
| Editor.Workspace.InspectTool | agent/browser.py:33-66 | no file changes, and at most two screenshots are taken |
| Editor.Editing.Verify | agent/runner.py:66-73 | a pass is of a build and a browser check on the files that the preview serves, which is restarted only after a passing build |
| Editor.Editing.Announce | agent/runner.py:183-205 | a call runs between its two events; a failing event ends the conversation in its own error, even after a lost command |
| Editor.Editing.ExecuteAll | agent/runner.py:172-210 | no more than the allowed calls; a read or an inspection at most twice at one revision, any other call at most twice at all; no change without a new revision |
| Editor.Editing.Ask | agent/runner.py:128-155 | the answer is limited to what the budget leaves, at most 8192 and at least 1024 tokens; the budget is kept whenever the estimate bounds the input |
| Editor.Editing.Apply | agent/runner.py:171-211 | whatever a batch changed is saved before the next turn, and nothing is saved once a command or an upload is lost |
| Editor.Editing.RunEditor | agent/runner.py:76-212 | turns, calls, verifications and tokens stay within their limits; success means that build and browser passed on the files that are served and saved, or never touched; every other end has its cause; after a lost command or upload nothing is saved |
| Editor.Editing.RunAndSave | agent/service.py:335-341 | a run that succeeds has checked, served and saved the same files |
| RunReplay.LaterWriteWins | frontend/socket/handleChatEvent.ts:3-81 | an event before a settled one makes no difference if it comes again after it |
| RunReplay.ReplayingChangesNothing | frontend/socket/handleChatEvent.ts:3-81 | replaying a log whose finish is last changes nothing |
| RunReplay.OverlapChangesNothing | frontend/socket/handleChatEvent.ts:3-81 | overlapping pieces of a log make the message that the log makes |
| RunReplay.ApplyAllIs | frontend/socket/handleChatEvent.ts:3-81 | a run's events touch only its own message |
| RunReplay.ResyncConverges | frontend/socket/handleChatEvent.ts:3-81 | a prefix up to k and then everything from any j up to k gives the messages of the log applied once, over any messages |
| RunReplay.FinishMustBeLast | frontend/socket/handleChatEvent.ts:71-79 | with an event after the finish, replaying can change the messages |
| RunShown.CompletedCallsShowTheirCompletion | frontend/socket/handleChatEvent.ts:43-62 | a completed call shows its last completion: success or error as it says, with its output, details and duration |
| RunShown.OpenCallsShowTheirStart | frontend/socket/handleChatEvent.ts:43-79 | a call that was only started is in progress until the finish, and then failed with the fixed text |
| RunShown.UnmentionedCallsAreNotShown | frontend/socket/handleChatEvent.ts:43-62 | no other call is shown |
| RunShown.CallsAreInOrder | frontend/socket/handleChatEvent.ts:59-61 | the calls stand in the order of their first mention, each once |
| RunShown.TheLastTextIsShown | frontend/socket/handleChatEvent.ts:71-73 | the text is the last one an event other than a call or an activity brought |
| RunShown.TheFinishIsShown | frontend/socket/handleChatEvent.ts:74-76 | the status is running before the finish, and after it the one it names, or interrupted |
| RunShown.ActivityIsShown | frontend/socket/handleChatEvent.ts:62-70 | the activity is the first event of each name, in order |
| RunShown.TheMessageIsTheRuns | frontend/socket/handleChatEvent.ts:31-41 | the message is the run's, dated by the first event that shows anything |
| RunShown.OthersAreUntouched | frontend/socket/handleChatEvent.ts:80 | at most one message is added, at the end, and no other run's changes |
| RunSession.RestoreRuns | frontend/socket/handleChatEvent.ts:83-102 | every event of every snapshot is applied, and a missing finish is replaced |
| RunSession.EndedRunsShowNothingOpen | frontend/socket/handleChatEvent.ts:87-101 | an ended run leaves no call and no message running, with or without its last event |
| RunSession.EveryRunIsShown | frontend/socket/handleChatEvent.ts:83-102 | after a history each run shows its own log, whatever the others are |
| RunSession.ClosedRunsShowTheirStatus | frontend/socket/handleChatEvent.ts:87-101 | a run that ended without its last event shows the snapshot's status and reason, no time, and its open calls failed |
| RunSession.LegacyHistoryIsKept | frontend/socket/handleChatEvent.ts:113-118 | of the history only the summaries of runs that come with it are left out |
| RunSession.Session.OnHistory | frontend/socket/handleChatEvent.ts:109-127 | the view is replaced, the ended runs are added, the first running one is active, and the banner is cleared |
| RunSession.Session.OnUnreadable | frontend/socket/handleChatEvent.ts:143-145 | a message that cannot be read changes nothing but the banner |
| RunSession.Session.OnEvent | frontend/socket/handleChatEvent.ts:128-142 | a live event of a run that is not over is applied; it opens the run or, as a finish, ends it with the address of a success; nothing else changes |
| RunSession.LateEventsChangeNothing | frontend/socket/handleChatEvent.ts:129 | no event of a run that is over changes the view |
| RunSession.LiveEventsAreApplied | frontend/socket/handleChatEvent.ts:128-142 | the live events of a run are all applied up to its finish, which ends the building |
| RunSession.LiveLogIsShown | frontend/socket/handleChatEvent.ts:128-142 | the live events of a new run show its log and touch no other message |
| RunSession.LiveShowsWhatAReloadShows | frontend/socket/handleChatEvent.ts:106-142 | after any earlier runs, a snapshot and overlapping live events show exactly what a reload after the last of them shows, address included |
| FileTree.BuildFileTree | frontend/lib/files/tree.ts:3-34 | the tree shows the files if and only if none is an ancestor of another |
| FileTree.ShowsExactlyWhenNoFileIsAnAncestor | frontend/lib/files/tree.ts:3-34 | leaves are the input paths, sibling names are distinct and paths are joins of names, exactly then |
| FileTree.InsertAddsALeaf | frontend/lib/files/tree.ts:11-30 | one path apart from the others becomes one more leaf and moves none |
| FileTree.InsertMovesNothing | frontend/lib/files/tree.ts:11-30 | no node moves; siblings stand in the order in which they are first named |
| FileTree.LeavesAreApart | frontend/lib/files/tree.ts:11-30 | no well-formed tree can show a file below another |
| FileTree.CheckpointsMakeATree | agent/archive.py:56-58 | the files of any accepted archive make a tree that shows them |
| FileTree.AncestorsAreMisplaced | frontend/lib/files/tree.ts:15-29 | both orders of a file and one below it, and what becomes of them |
| ContentCache.FileCache.CacheFile | frontend/lib/files/contentCache.ts:20-35 | the counter is the sum of the entry sizes, both limits hold, and the entries are the stored ones |
| ContentCache.FileCache.MakeRoom | frontend/lib/files/contentCache.ts:28-32 | the eviction loop ends without reading from an empty map |
| ContentCache.FileCache.GetCachedFile | frontend/lib/files/contentCache.ts:16-18 | a lookup returns the stored entry or nothing |
| ContentCache.FileCache.ClearFileContentCache | frontend/lib/files/contentCache.ts:11-14 | nothing is left |
| ContentCache.EvictsNoMoreThanItMust | frontend/lib/files/contentCache.ts:28-32 | the shortest run of oldest entries goes |
| ContentCache.OldestGoFirst | frontend/lib/files/contentCache.ts:20-35 | over any operations the cache is the end of the list of latest values in the order they were given |
| ContentCache.SizeIsTwoBytesAUnit | frontend/lib/files/contentCache.ts:8-9 | the bytes are two for each unit of the keys and contents |
| ContentCache.LookupsAreLatest | frontend/lib/files/contentCache.ts:11-35 | over any operations the limits hold and a lookup returns nothing or the latest value since the last clear |
| ContentCache.JustStoredIsFound | frontend/lib/files/contentCache.ts:20-35 | what was just stored is found unless it is too large alone |

## Left out

- Transactions are atomic and row locks exclusive; their own failure is a step without effect or an unseen commit.
- Amounts are unbounded integers and the calendar has no last year; the column widths and Python's year 9999 are not modelled.
- `require_allowance`, the credit counter, e-mail verification beyond the flag, and `MAX_CONCURRENT_RUNS` only refuse more requests.
- SpendLedger.Reserve: which of several full windows is reported is not fixed, because the order of a set of windows with equal starts is not.
- SandboxCode.Runtimes.Acquire: the provider's own events come before the calls whose answers depend on them, not inside the loop that kills.
- The loop of `maintain` over sandbox rows is the choice of `StartRetire`, `StartStatus` or `StartPause` for each project; `last_used` only decides when.
- `admit`, `open_preview`, `execute` and the recovery loop of `maintain` are events and steps of `Capacity`, `SandboxRuntime`, `RunLog` and `Persistence`; the `active` and `opening` tables are their stages.
- RunLog.LiveRun.Finish: the pointers, the reusable mark and the summary message that are committed with the outcome are steps of `Persistence` and `SandboxRuntime` and not of the log.
- PersistenceCode.Chat.Delete: the key of the legacy folder is an intent of `Maintenance` only.
- The comparison of operation ids in `change` always succeeds, since the calls of one project are serialized.
- Storage quotas, transfer limits, reading the legacy files directory, log archiving and the expiry of log details change no revision.
- `promote` reads the revision just before it locks the project; the two are one step.
- Restore.Pack: the archive's length and what the writer captured are given, because compression is not part of this model.
- Archive.CollectWorkspaceFiles: a digest stands for its bytes, and which of several violations is reported is not fixed.
- Build outputs and background writers change excluded directories or make `pack` fail; nothing else writes the workspace.
- Editor.Workspace.Read: text and bytes differ only in length here; files that are not valid UTF-8 are not modelled.
- Editor.Workspace.ExecuteTool: which command texts are refused is arbitrary, and so is everything a command does.
- Editor.Editing.RunEditor: context building, the first reads and the prompt are not modelled; the checks' verdicts, the estimates and the replies are arbitrary, and a cancelled conversation simply returns nothing.
- RunSession.RestoreRuns: the final sort by creation time, and messages merged by `consolidateMessages`, are not modelled; an undefined list is an empty one.
- FileTree.BuildFileTree: the nested arrays are values, rebuilt along the path that the code walks and pushes into.
- `redact`, prompts, summaries, skills, transport, authentication and the React components hold no state of these protocols.
