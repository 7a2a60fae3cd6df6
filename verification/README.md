# mergetrain, modelled and proved in Dafny

mergetrain is a local merge queue. It assembles queued branches into a train, runs the gates
over the exact combined commit, isolates the branch to blame when a gate fails, pushes the
result atomically behind a durable marker, and recovers from a crash by asking the remote.
This project models the parts of it that must not be wrong and proves what they promise.
`dafny verify dfyconfig.toml` checks all of it.

## What is modelled

| File | Part of mergetrain | Main result |
|---|---|---|
| `Bisect.dfy` | the bisect of a failed train | `IsolateTrain` |
| `JobTable.dfy` | queue rows and the writes made to them; commits by content | `FoldInjective` |
| `TrainLog.dfy` | what a train runner does that others can see, and what is promised of it | `LogOkMeans`, `ShipsMoreExactlyWhenStrayed` |
| `TrainEngine.dfy` | one claimed batch, from the claim to the end, with all error paths | `RunBatch` |
| `DeployProtocol.dfy`, `DeploySafety.dfy` | the deploy protocol as a transition system, and its safety over every run | `ExactlyOnce`, `ReconcileRespectsLanding` |
| `TrainsOfOneClaim.dfy` | runs in which one claim ships several trains | `HeldJobShipsAlone`, `OneClaimShipsTwoTrains` |
| `OvertakenReconcile.dfy` | a run of 24 steps that ends in a requeued, landed job | `OvertakenReconcileRequeuesALandedJob` |
| `UnexpectedFailure.dfy` | a run of 9 steps that ends in a landed job recorded as failed | `UnexpectedErrorLosesALandedJob` |
| `Reconcile.dfy` | one `reconcile` command | `ReconcileOnce` |
| `ForceUnlock.dfy` | one `unlock --force` command among other processes | `UnlockOnce` |
| `ShellLexer.dfy` | how a POSIX shell reads a command (the reference) | `RunConcat` |
| `ShellValues.dfy`, `ShellTemplate.dfy`, `ShellQuoting.dfy` | the expansion of path placeholders in shell commands | `ExpandPathPlaceholders` |
| `GateScheduler.dfy` | the gate plan checks and the gate waves | `RunConfiguredPlan` |
| `ValidationReuse.dfy` | reuse of validated gates: decision, preview, execution | `Decide`, `PreviewThenRun` |
| `PathGates.dfy` | path patterns and changed-path records | `PathMatchesExactlyWhenItSplits`, `ParseNameStatusZ` |
| `Notify.dfy` | webhook notifications over any sequence of sweeps | `EventsAreDeliveredOnceInOrder` |
| `HubSweep.dfy` | which registered repositories get a turn in a hub sweep | `Turns` |
| `ImportCycles.dfy` | import-cycle detection of the architecture script | `CycleViolations` |

Objects whose methods change them are classes here too (`Bisect.Search`, `TrainEngine.TrainRun`
and `Runner`, `ShellQuoting.Scanner`, `Reconcile.Table`, `ForceUnlock.Queue`,
`ImportCycles.Search`). How the world's part of a step ends is an input: how each merge, gate run
and push of a train ends (`TrainLog.Outside`), what a bisect's probes find, how each gate of a
plan ends and what its monitor sees, whether a webhook takes a message, whether a remote answers.
Everything else outside the program is nondeterministic: what other processes do to the queue
rows between any two steps (`TrainEngine.Rely`), which step raises, and what the clock shows.
Exceptions are values that a step returns, and every handler is modelled. What the runner did is
a log of events
(`TrainLog.Event`): each merge with its outcome, each reset and gate run, how a bisect ends, who
has a turn in an isolation, the markers, pins, lock and lease check of a push, how the push
ends, and each row write. Its promises are about that log, `TrainLog.Replayed` gives the tip that
the logged commands leave the worktree at, and `TrainLog.EventOk` says what may happen next: an
answer is the world's, and a failed gate run, an unclear push and an accepted one are each
followed at once by what they call for.

The deploy protocol is a transition system, because its promise is about every interleaving of
queue users, runners, push processes that outlive their runners, crashes, forced unlocks and
reconciles. A runner ships its claim in trains: each train marks any part of the jobs it still
holds, the others may be finished or requeued before and after, and the next train follows under
the same lease. `DeployProtocol` says when each step may happen (`May...`) and what it does
(`After...`); `DeploySafety` proves an invariant of all of them.

Assumed of the world, as the repository states it: a push lands all its refs and its audit ref
at once or none of them; a push the remote refused landed nothing; an audit ref is never
rewritten; a push whose processes have all exited cannot land later; a lease token is never
issued twice; and a commit contains itself.

## Where the code does not do what is promised

Each of these is stated as a lemma or a clause with the exact condition.

- **Exactly once, when a reconcile is overtaken.** `_apply` writes a decision by a
  compare-and-swap on the job's status alone (`recovery.py:236-290`). A reconcile whose lease
  expired while no job was in progress can be overtaken: another reconcile settles the job, a
  runner ships it and dies, the job is parked again, and the first reconcile then writes its old
  decision. `OvertakenReconcile` is such a run; the landed job ends up queued. The guard is
  `Fenced`: a reconcile writes only while it holds its lease. `ApplyKeepsCoverageExactlyWhen`
  says of any single write, in any state, when it is harmless.
- **Exactly once, when an unexpected error is raised.** The handler of last resort records the
  train as failed (`git_runner.py:1045-1048`), also while its push is in flight or after it has
  landed unseen. The marker stays on the failed row, but reconcile takes up only parked and
  blocked jobs, and a dismiss drops the marker. `UnexpectedFailure` is such a run; the landed job
  is lost. The guard is `Calm`: no unexpected error while a push of the runner may still land or
  has landed. `UnexpectedErrorIsHarmlessExactlyWhen` says that this is exactly when the row still
  tells of the push. `ExactlyOnce` holds of every run whose steps are `Guarded` by both.
- **Only merged jobs ride.** A `git merge` that reports a failure after it has committed (for
  example because it was stopped in a hook) is not undone: the code runs `git merge --abort` and
  goes on with the moved HEAD (`git_runner.py:1169-1187`). A pushed commit that was not reused is
  the base with exactly the riding jobs' commits if and only if the log has no such merge of its
  train (`SoundPush`, in the contract of `RunBatch`, and `ShipsMoreExactlyWhenStrayed`).
  `StrayMergeShips` is a log in which a blocked job ships. A merge that leaves the worktree dirty
  is undone correctly.
- **A placeholder is exactly its value.** In `$${worktree}`, `$NAME${worktree}` and
  `"$NAME${worktree}"` a relative path, or one that starts with a name character, runs into the
  parameter name before it (`RelativePathIsMisread`). The expanded command is read as the
  template with its values if and only if no value joins in this way, and no absolute path does.
- **One queue gets one turn.** At most one entry of a queue gets a turn, but a queue can get
  none: its first entry may itself be skipped as a duplicate of an entry of another queue
  (`ChainLosesATurn`). A queue gets a turn exactly when its first entry does.
- **Forced unlock.** Timestamps are whole seconds, so a renewal in the very second of the
  inspected heartbeat looks like none. Forced clears are of leases not renewed since the
  inspection if and only if the inspected heartbeat was written in an earlier second
  (`ForcedClearsAreUnrenewedExactlyWhen`); `RenewedLeaseIsCleared` is a lease that was renewed
  and is cleared. In every case the cleared lease had expired when the watch began and inside
  the clearing transaction, at least a heartbeat interval and five seconds lie between the two,
  and it was not renewed from then to then.
- **A reuse preview without a decision.** What it lists as a rerun is rerun by every reused run if
  and only if the gate names no paths: a run that finds no matching path skips it
  (`OpenPreviewForetells`). The preview of an eligible train is exact (`PreviewThenRun`).
- **A gate named `diff-check`.** A configured gate may take the name of the built-in check.
  `needs: diff-check` then means the built-in check, which has always run. The order of the
  waves, and what a wave leaves out, is stated of the gates and not of their names (`Left`), so
  it holds of such a gate too.

The number of gate probes of a bisect is at most 4n - 2 for a train of n jobs, slightly better
than the 4n one expects. The bound covers both modes.

## Model

Member names are as declared. Paths are of the repository.

| member | source | states |
|---|---|---|
| Bisect.IsolateTrain | src/mergetrain/git_runner.py:643-806 | A completed bisect blames soundly (a job alone only if it fails alone, a conflict set only if it fails together and each of its two or more members passes alone), every conflict set is minimal, the blamed jobs and the survivors partition the train with the survivors in train order and strictly fewer, and at most 4n - 2 probes are made; it explains every failure that a probe found, follows the failure of a train of more than three jobs into each half that fails, and blames in a smaller one the first job that fails alone if there is one; an aborted bisect has a probe that conflicted or a whole train that passed, and one that stops has a probe that raised |
| Bisect.ProperSubsetsDoNotFail | src/mergetrain/git_runner.py:704-735 | If failure is monotone, no proper subset of a conflict set fails |
| Bisect.ProperSubsetsPass | src/mergetrain/git_runner.py:704-735 | If passing is inherited by subsets, every proper subset of a conflict set passes |
| Bisect.Search.Probe | src/mergetrain/git_runner.py:643-700 | A subset is probed at most once, in train order; the answer is the world's verdict, a conflicting merge aborts, and only an uncached probe counts |
| Bisect.Search.Shrink | src/mergetrain/git_runner.py:718-724 | The greedy loop leaves a failing subset in which each member was needed, with one probe per job |
| Bisect.Search.MinimizeJointFailure | src/mergetrain/git_runner.py:704-735 | Blames a non-empty part of the subset, soundly, and aborts only when the failure did not reproduce or a merge conflicted |
| Bisect.Search.FirstSoloFailure | src/mergetrain/git_runner.py:743-751 | The small-train mode blames exactly the first job that fails alone, or has found that every job passes alone |
| Bisect.Search.Descend | src/mergetrain/git_runner.py:737-763 | From a failing subset the search blames a non-empty part of it, keeps all earlier blame, blames a member of every subset it finds failing, goes into each half that fails, and stays within 4 probes per job less 2 |
| TrainEngine.RunBatch | src/mergetrain/git_runner.py:877-1054 | Over every answer of the world and every choice of the environment: a batch that returns normally leaves no job in progress under its lease; every merge, gate run and push ended as the world says; every pushed commit and every validated tip passed the last gate run over it, as the world says, which left it and a clean tree; a failed gate run is answered at once: it fails a validated train whole, fails a train of one job, and has any other train bisected; a push that ends unclear or finds its lock taken stops its train as open, and nothing else does; a push that ends well is recorded as landed; every pushed commit carries jobs of this batch in claim order at their recorded commits, a validated train whole; a reused commit is the one that all these jobs were validated as and whose reuse was accepted, and any other is exactly the merges of its jobs on the base if and only if no merge of the train reported a failure after it had committed; right before a push exactly its jobs were marked and pinned with its commit, its push lock was taken and the lease was seen to be held; a job is recorded deployed exactly when a push of it was seen to land, which is the last push started and had just ended well; a job is recorded failed, blocked, parked, validated, canceled or queued again only with a reason, and a cancel request on its row is honored unless a push landed or may have; what a bisect blames is sound, minimal and followed into each half that fails, and it gives up only with a reason; isolated jobs have their turns in order, and the rest goes back to the queue in order; nothing is pushed once a job is parked; a validate run never pushes and leaves validated jobs of at most one train |
| TrainLog.LogOkMeans | src/mergetrain/git_runner.py:877-1054 | If every event was in order when it happened, then answers are the world's, what ships or is validated passed its gates as the world says, every failed gate run, unclear push and accepted push was followed by what it calls for, every push is sound and armed right before, only the last push lands, after it ended well and with exactly its jobs, writes are honest, every verdict has a reason, a train is stopped as open only by such a push, blame is sound, isolations keep their order, and nothing is pushed after a park or by a validate run |
| TrainLog.GatedIsPassed | src/mergetrain/git_runner.py:1310-1358 | When the replayed worktree counts as gated, the last gate run was over its tip, the world says that it passed and left the tip and a clean tree, and nothing moved the worktree since |
| TrainLog.StraysAreFailedMerges | src/mergetrain/git_runner.py:1169-1187 | What the replayed worktree counts as strays are the merges of the last train that reported a failure after they had committed |
| TrainLog.ShipsMoreExactlyWhenStrayed | src/mergetrain/git_runner.py:1169-1187 | A push that is not a reuse ships something else than its jobs' merges on the base if and only if such a merge is in the log of its train |
| TrainLog.StrayMergeShips | src/mergetrain/git_runner.py:1169-1187 | A log that keeps all promises, in which a job blocked during assembly ships with another |
| TrainEngine.Runner.ProcessBatch | src/mergetrain/git_runner.py:877-1054 | For one train inside the recursion: no job is stranded, every event was in order when it happened and nothing that was called for is left open, an isolation around it stands where it stood, at most one validated train or one open push is left; and it ends, because a nested train is strictly smaller and one-job trains do not bisect |
| TrainEngine.Runner.HandleError | src/mergetrain/git_runner.py:1008-1048 | Which status each exception gives the jobs it stopped; a busy queue writes nothing unless this frame saw its push land; a landed push is recorded deployed whatever was raised |
| TrainEngine.Runner.FinishActiveAfterError | src/mergetrain/git_runner.py:1429-1480 | The affected jobs get the error's status, or deployed once the push landed, and the claimed jobs the train never reached go back to the queue; none stays in progress |
| TrainEngine.Runner.OnlyReachedJobsAreAffected | src/mergetrain/git_runner.py:1429-1480 | An error settles exactly the merged jobs, or all of a train that is validated or has merged none |
| TrainEngine.Runner.FinishActiveJobs | src/mergetrain/git_runner.py:1415-1427 | Only jobs still held are finished, each with the given status or canceled, and none stays in progress |
| TrainEngine.Runner.Assemble | src/mergetrain/git_runner.py:1126-1228 | After assembly every job is merged or no longer held, merged jobs are in train order at their recorded commits, a validated train lost none, and HEAD is the base with the merged commits unless a failed merge moved it |
| TrainEngine.Runner.MergeOne | src/mergetrain/git_runner.py:1160-1216 | One job is merged, or blocked and left out; a validated train stops whole instead; the worktree is where the logged merges and resets leave it |
| TrainEngine.Runner.AfterFailedMerge | src/mergetrain/git_runner.py:1181-1211 | A blocked job contributes nothing: after a merge that left the worktree dirty, the tip is again the one that the clean merges made |
| TrainEngine.Runner.MergeShaForJob | src/mergetrain/git_runner.py:498-523 | A job may be merged exactly when its branch exists and is at the commit it was recorded with, if it was, and then at that commit; otherwise it is refused |
| TrainEngine.Runner.RestoreValidated | src/mergetrain/git_runner.py:1056-1124 | A validated train's commits are its recorded ones; a reuse restores, in a clean worktree and with every job of the train, exactly the commit the jobs were validated as |
| TrainEngine.Runner.RunTrainGates | src/mergetrain/git_runner.py:1310-1358 | The gates run over the tip and end as the world says: they count as passed only if the world's answer is a pass that leaves HEAD at the gated commit and a clean tree; a failed command is raised, and what it calls for stays open |
| TrainEngine.Runner.AssertTreeUnchanged | src/mergetrain/atomic_push.py:64-86 | Passes exactly when HEAD and the tree can be read, HEAD is the gated commit and the tree is clean |
| TrainEngine.Runner.GateTrain | src/mergetrain/git_runner.py:1230-1308 | When the train goes on, its exact deploy commit passed the gates and no push is open; when it stops, no job is stranded |
| TrainEngine.Runner.GatesFailed | src/mergetrain/git_runner.py:1256-1307 | A validated train fails whole and in order, the failure of one job is raised for it, and any other train is bisected: nobody is judged before the bisect has told how it ended, and whatever is raised instead is logged as raised by it; no job is left in progress, and at most one validated train or one open push |
| TrainEngine.Runner.FinishClassified | src/mergetrain/git_runner.py:808-845 | Each job that fails alone is finished failed, then each member of a conflict set blocked, in order, unless a cancel request stands in the way |
| TrainEngine.Runner.RunSurvivors | src/mergetrain/git_runner.py:803-875 | The survivors run as a fresh, strictly smaller train, and no job of the bisected train stays in progress |
| TrainEngine.KeepInOrder | src/mergetrain/git_runner.py:806 | The survivors handed on are in train order |
| TrainEngine.Runner.ProcessIsolatedJobs | src/mergetrain/git_runner.py:525-598 | The jobs have their turns in train order; the jobs that had none go back to the queue, in order and each at most once, right before the isolation ends; no job stays in progress, and at most one validated train or one open push is left |
| TrainEngine.Runner.TakeTurns | src/mergetrain/git_runner.py:547-575 | One-job trains run in train order, and they stop early only when one has parked its job or, in a validate run, validated it |
| TrainEngine.Runner.StopIsolation | src/mergetrain/git_runner.py:576-597 | The untouched suffix returns to the queue, each job at most once and in order, and then the isolation ends |
| TrainEngine.Runner.RecordPendingPush | src/mergetrain/persistence/recovery.py:47-123 | After a success every claimed job is still held and carries the marker; after a failure this runner has written nothing |
| TrainEngine.Runner.ClearRejectedPush | src/mergetrain/persistence/recovery.py:126-159 | After a success every job of the refused push is still held and none carries the marker; after a failure nothing was written |
| TrainEngine.Runner.BeforePush | src/mergetrain/atomic_push.py:269-306 | A push starts only while the lease is held, with its jobs marked, pinned and locked in that order and with the marker on every job it still holds; a cancel that comes first leaves the push not run |
| TrainEngine.Runner.PushAndVerify | src/mergetrain/git_runner.py:364-466 | A push is started only when it was armed; its status is succeeded exactly when the push ended well and was seen to land, and then exactly the merged jobs are to be recorded; an unclear end is raised as one; jobs found already on the branch were not landed by this push |
| TrainEngine.Runner.AfterPush | src/mergetrain/atomic_push.py:303-358 | A refused push has lost the marker of all its jobs, an unclear one is still pending and lands nothing, and a push that ended well is seen to land and stays succeeded whatever its verification does |
| TrainEngine.Runner.RecordTrain | src/mergetrain/git_runner.py:1360-1413 | The validated jobs of a validate run share one new train, a deploy run leaves none validated, and none stays in progress |
| TrainEngine.Runner.MarkJob | src/mergetrain/persistence/jobs.py:863-992 | A write under a claim succeeds only if the claim held the row, and against a cancel request only for canceled, deployed and parked |
| TrainEngine.Runner.FinishJob | src/mergetrain/git_runner.py:207-260 | A job is finished with its status, or canceled when a cancel request stands in the way |
| DeploySafety.ExactlyOnce | src/mergetrain/atomic_push.py:176-230 | After every guarded run, in which claims ship in any number of trains and each train carries any part of what is still held: once a push has landed, each of its jobs is recorded deployed as that commit or still carries its marker where reconcile looks; no job ships by two pushes; every push ref of a deployed job has held its commit |
| DeploySafety.StepKeeps | src/mergetrain/recovery.py:412-540 | Every guarded step of every process keeps the protocol's invariant: partial and repeated trains of one claim, unexpected errors and claims beside parked jobs included |
| DeploySafety.RunKeeps | src/mergetrain/recovery.py:412-540 | So does every run of any length |
| DeploySafety.ReconcileRespectsLanding | src/mergetrain/recovery.py:162-216 | Reconcile never requeues or cancels a job whose push has landed; it records it deployed exactly when every recorded ref is seen to contain the commit, and blocks it otherwise |
| DeploySafety.DecisionIsSound | src/mergetrain/recovery.py:471-482 | Nothing is decided while a push of the job may still land; queued and canceled mean that none landed or will; deployed means that each recorded ref has held the commit |
| DeploySafety.ApplyKeepsCoverageExactlyWhen | src/mergetrain/recovery.py:236-290 | A decision of any reconcile, in any state, keeps a landed push covered if and only if the job left the status it was read in, or the decision is blocked, or it is deployed as the landed commit |
| OvertakenReconcile.OvertakenReconcileRequeuesALandedJob | src/mergetrain/recovery.py:236-290 | A reachable state in which an overtaken reconcile may write, and its write queues a landed job again |
| DeploySafety.SeeUnexpectedKeeps | src/mergetrain/git_runner.py:1045-1048 | An unexpected error that finds no push in flight keeps the invariant, although it leaves markers on failed jobs |
| DeploySafety.UnexpectedErrorIsHarmlessExactlyWhen | src/mergetrain/git_runner.py:1045-1048 | After an unexpected error a job's row tells of its push, now and should it land later, if and only if none was in flight |
| UnexpectedFailure.UnexpectedErrorLosesALandedJob | src/mergetrain/git_runner.py:1045-1048 | A reachable state in which a landed job is recorded as failed, no reconcile takes it up, and a dismiss drops its marker |
| DeploySafety.ClaimKeeps | src/mergetrain/persistence/leases.py:294-325 | A claim of any queued or validated jobs, with its takeover of the lock and orphan split, keeps the invariant, whether or not other jobs are parked |
| DeploySafety.SplitFrames | src/mergetrain/persistence/leases.py:162-225 | The orphan split parks every claim that carries a marker, cancels one without a marker whose cancel was asked for, queues any other again as a new job, and disturbs no other row, runner, push or reconcile |
| DeploySafety.TakeoverRecoversClaims | src/mergetrain/persistence/leases.py:162-225 | After a claim, an acquisition or a forced unlock, each row of a stopped runner's claim is parked if it carries a marker, else canceled if a cancel was asked for, else queued without token, train or cancel; the other rows are as they were |
| JobTable.MarkRowKeepsWhatIsStillOpen | src/mergetrain/persistence/jobs.py:863-992 | What a recorded status leaves in the row: a parked or conflicting job keeps its marker and its cancel request, a settled one keeps no marker, and a job that is queued again has no train |
| DeploySafety.RecordMarkerKeeps | src/mergetrain/persistence/recovery.py:47-123 | Writing the marker for any part of the jobs still held keeps the invariant: no open push has these jobs, although earlier trains of the claim may have pushed others |
| DeploySafety.NextTrainKeeps | src/mergetrain/git_runner.py:525-598 | Going on with the rest of the claim under the same lease, once all jobs of a train are recorded, keeps the invariant: no job that is still held carries a marker or is in an open push |
| TrainsOfOneClaim.HeldJobShipsAlone | src/mergetrain/git_runner.py:525-598 | In every reachable state a runner can ship any job it still holds alone: its push lands and is recorded, and the rest of the claim stays as it was |
| TrainsOfOneClaim.OneClaimShipsTwoTrains | src/mergetrain/git_runner.py:525-598 | And then another one under the same lease: two landed pushes of one claim, each with exactly one of the jobs |
| TrainsOfOneClaim.CrashedJobShipsAgain | src/mergetrain/persistence/leases.py:162-225 | A job whose runner stopped before its marker, and whose cancel nobody asked for, can be claimed and shipped again |
| DeploySafety.CheckLeaseKeeps | src/mergetrain/push_liveness.py:103-140 | A push that starts behind the push lock and the lease check is the only open one with its jobs; a runner that lost its lease starts none |
| DeploySafety.SeeRejectionKeeps | src/mergetrain/atomic_push.py:307-326 | Dropping the marker after a refusal keeps the invariant |
| DeploySafety.CloseKeeps | src/mergetrain/git_runner.py:1360-1413 | Recording the outcome of a push, job by job and under the claim, keeps the invariant |
| DeploySafety.LandKeeps | src/mergetrain/push_liveness.py:1-26 | A push that lands at any time after its runner is gone keeps the invariant |
| DeploySafety.ForceUnlockKeeps | src/mergetrain/persistence/leases.py:391-420 | A forced unlock at any time keeps the invariant |
| DeploySafety.AcquireKeeps | src/mergetrain/persistence/leases.py:269-325 | Taking the lock for a reconcile keeps the invariant |
| DeploySafety.ApplyKeeps | src/mergetrain/recovery.py:236-290 | A decision that is written while the lease is held keeps the invariant |
| DeploySafety.WithdrawKeeps | src/mergetrain/persistence/jobs.py:1105-1166 | Cancel and dismiss, which refuse a reconcile conflict, keep the invariant |
| Reconcile.ClassifyJob | src/mergetrain/recovery.py:162-216 | The loop over the push refs computes the decision table of `Classify` |
| Reconcile.DecisionsAreSafe | src/mergetrain/recovery.py:186-216 | Deployed is decided exactly when every ref contains the commit and the audit ref agrees; queued or canceled exactly when no ref can and there is no audit ref; canceled only on request |
| Reconcile.ReconcileOnce | src/mergetrain/recovery.py:412-540 | Every parked job and every checkable conflict is taken up, each once; nothing is written while a push may land, a marker is of an old version, or a target of a parked job is silent; every write is the compare-and-swap of one decision and leaves the row of that decision (`Decided`), decisions follow the answers, and the summary counts exactly what took effect; a queue that turns busy midway stops it with the writes of the first decisions; a preview writes nothing |
| Reconcile.Table.Apply | src/mergetrain/recovery.py:236-290 | Writes exactly one row, from the status it was read in to the row that the decision calls for, or nothing when the job was moved, the queue is busy, or a conflict stays one |
| Reconcile.Table.ClassifyAll | src/mergetrain/recovery.py:488-520 | Classification writes nothing, fails exactly when a target of a parked job is silent, and keeps a conflict blocked when its target is |
| Reconcile.Table.Run | src/mergetrain/recovery.py:463-537 | In which of the three refusals, the contention or the result a reconcile ends, and what it wrote, also when the queue turns busy midway |
| Reconcile.SummaryCountsWhatTookEffect | src/mergetrain/recovery.py:316-322 | The summary counts the applied decisions of each kind |
| Reconcile.PreviewSeesWhatTheRunSees | src/mergetrain/recovery.py:454-462 | A preview of a stopped runner's queue takes up the jobs that the applied run finds parked after the split |
| ForceUnlock.UnlockOnce | src/mergetrain/recovery.py:639-765 | A clear and its audit event come together or not at all, and there is one exactly when the event can be written and either the owner was dead and the inspected lease still holds the lock, or it was forced, the inspected lease had expired when the watch began, showed no renewal when it ended, and the remote answered and the lease was still unrenewed and expired after that; a heartbeat interval and the margin lie between the watch and the clear, and the lease was not renewed from then to then; no lock, nothing to clear |
| ForceUnlock.Queue.ForceUnlock | src/mergetrain/recovery.py:639-765 | When the result is a clear, an audit failure or an unreachable remote, exactly, by how the lease stood at the inspection, at the begin and the end of the watch, and in the clearing transaction; the lock of an owner that is not dead is cleared only by force and only as the inspected lease, under any interleaving of renewals, releases and acquisitions |
| ForceUnlock.Queue.ClearAndAudit | src/mergetrain/persistence/leases.py:391-420 | Clears exactly when the named lease still holds the lock, unrenewed when asked, and the event can be written; then every claim of the stopped runner is parked, canceled or queued again by its row and the event is recorded; otherwise nothing changes |
| ForceUnlock.Queue.LockAfterHeartbeat | src/mergetrain/recovery.py:602-628 | The watch returns the lease as it then stands if it was renewed, replaced or released, and the inspected lease otherwise, after no less than a heartbeat interval and the margin, under any steps of other processes |
| ForceUnlock.ExpiredAndUnchangedIsUnrenewed | src/mergetrain/recovery.py:717-758 | A lease seen expired that later shows the same token and heartbeat was not renewed in between |
| ForceUnlock.ForcedClearsAreUnrenewedExactlyWhen | src/mergetrain/recovery.py:717-758 | Every forced clear is of a lease not renewed since the inspection if and only if the inspected heartbeat is of an earlier second |
| ForceUnlock.RenewalInTheInspectedSecondIsMissed | src/mergetrain/recovery.py:717-758 | From every inspection in the second of the heartbeat, a renewal and a wait lead to a forced clear of a renewed lease |
| ForceUnlock.RenewedLeaseIsCleared | src/mergetrain/recovery.py:717-758 | A concrete lease that is renewed in the second of its inspection and cleared |
| ShellValues.EscapeDoubleIsPerCharacter | src/mergetrain/shell_quoting.py:54-60 | The four replacements in sequence escape each character on its own: none touches the output of another |
| ShellValues.SingleBodyIsLiteral | src/mergetrain/shell_quoting.py:109-110 | A value spliced into single quotes is read back as exactly its characters |
| ShellValues.QuoteIsLiteral | src/mergetrain/shell_quoting.py:107-108 | A quoted value in unquoted code is read back as exactly its characters, in one word |
| ShellValues.EscapeDoubleIsLiteral | src/mergetrain/shell_quoting.py:111-112 | An escaped value in double quotes is read back as exactly its characters, unless it joins a name |
| ShellValues.CommentHides | src/mergetrain/shell_quoting.py:113-117 | Text without a newline leaves a comment a comment |
| ShellValues.ContextFreeIsLiteral | src/mergetrain/shell_quoting.py:102-104 | A context-free value stands for itself in every state of the reading, unless it joins a name |
| ShellValues.InsertedTextIsLiteralExactlyWhen | src/mergetrain/shell_quoting.py:102-118 | Wherever the command is read, rendered text is read as exactly the value if and only if it does not run into a parameter name |
| ShellTemplate.LegalSpells | src/mergetrain/shell_quoting.py:81-100 | A scan changes nothing but the placeholders: with them put back it spells the command |
| ShellTemplate.ExpandedIsReadAsTemplate | src/mergetrain/shell_quoting.py:131-291 | The expanded command is read as the template with each placeholder standing for its value, when none joins |
| ShellTemplate.ExpansionKeepsMeaningExactlyWhenNoneJoins | src/mergetrain/shell_quoting.py:131-291 | For values that are not empty, a shell reads the expanded command as the template with its values if and only if none joins a parameter name |
| ShellTemplate.AbsolutePathsNeverJoin | src/mergetrain/shell_quoting.py:28-39 | An absolute path joins nowhere |
| ShellTemplate.RelativePathIsMisread | src/mergetrain/shell_quoting.py:102-104 | In `$A${worktree}` a relative path is read as part of the parameter name |
| ShellQuoting.ExpandPathPlaceholders | src/mergetrain/shell_quoting.py:397-404 | For every command and all values: the scan comes to doubt at exactly the first character that raises one (`RaisesDoubt`: a construct of the command whose extent shells disagree on, in the context in which a shell reads it), and never in a simple command; before it an expansion replaces every placeholder that is not quoted by a backslash, after it no value that needs quoting is inserted; nothing else is changed, and the result is read as the template with its values if and only if none joins; a refusal is at a placeholder whose value needs quoting, after the doubt or where no quoting is known |
| ShellQuoting.DoubtStartsHere | src/mergetrain/shell_quoting.py:88-90 | A doubt that is raised where the scan stands, with none before, is the first one of the whole scan |
| ShellQuoting.Scanner.Render | src/mergetrain/shell_quoting.py:102-118 | Which values are rendered in which context, and that all others are refused |
| ShellQuoting.Scanner.Placeholder | src/mergetrain/shell_quoting.py:92-100 | A placeholder at the cursor is replaced by its rendering or refused for cause |
| ShellQuoting.Scanner.ShellCode | src/mergetrain/shell_quoting.py:131-213 | While no doubt was raised, the scanner is in the context in which a shell reads the text and has the word that is being read, through nested substitutions, no character it passed raises a doubt, and it stops at the closing parenthesis |
| ShellQuoting.Scanner.Comment | src/mergetrain/shell_quoting.py:215-225 | A comment is scanned up to its newline, as a shell reads it |
| ShellQuoting.Scanner.SingleQuoted | src/mergetrain/shell_quoting.py:227-235 | A single-quoted string is passed over as a shell reads it |
| ShellQuoting.Scanner.DoubleQuoted | src/mergetrain/shell_quoting.py:237-257 | A double-quoted string with its expansions is passed over as a shell reads it |
| ShellQuoting.Scanner.Expansion | src/mergetrain/shell_quoting.py:259-291 | An expansion is passed over, or its `$` starts nothing |
| ShellQuoting.Scanner.Backquoted | src/mergetrain/shell_quoting.py:295-312 | A backquoted command is passed over or raises a doubt |
| ShellQuoting.Scanner.ParameterExpansion | src/mergetrain/shell_quoting.py:314-340 | A parameter expansion is passed over or raises a doubt |
| ShellQuoting.Scanner.ArithmeticExpansion | src/mergetrain/shell_quoting.py:342-378 | An arithmetic expansion is passed over or raises a doubt |
| ShellQuoting.Scanner.AnsiCQuoted | src/mergetrain/shell_quoting.py:380-394 | A `$'...'` string is passed over or raises a doubt |
| GateScheduler.CheckPlan | src/mergetrain/config.py:890-913 | The loop of plan checks accepts exactly the plans whose names are unique, whose needs point back, whose groups are contiguous, and whose gates fit the worker ceiling |
| GateScheduler.EffectivePlanIsAccepted | src/mergetrain/config.py:207-247 | Removing the redundant built-in check leaves an accepted plan |
| GateScheduler.GateDependencies | src/mergetrain/gate_runner.py:38-54 | Every gate waits for its needs or, without any, for the names of the stage before |
| GateScheduler.DependsOnEarlier | src/mergetrain/gate_runner.py:38-54 | Everything a gate waits for is the built-in check or an earlier gate |
| GateScheduler.EarliestIsReady | src/mergetrain/gate_runner.py:126-131 | Between two waves, the earliest pending gate has all its dependencies settled |
| GateScheduler.GroupIsOneStage | src/mergetrain/config.py:897-904 | In an accepted plan the gates of a group are one stage |
| GateScheduler.ReadyIsComplete | src/mergetrain/gate_runner.py:127 | Every pending gate whose dependencies are settled is ready, and the earliest is first |
| GateScheduler.FittingPassesOver | src/mergetrain/gate_runner.py:140-146 | A candidate that the selection passes over does not fit beside the selected gates |
| GateScheduler.NextWave | src/mergetrain/gate_runner.py:126-148 | Neither internal error can fire; the next wave starts with the earliest pending gate, is of one stage, fits the ceiling, and leaves out no ready gate of its group that would fit |
| GateScheduler.RunWave | src/mergetrain/gate_runner.py:148-285 | A wave stops the plan exactly when its monitor saw something or some gate did not pass, with the error named below |
| GateScheduler.RunConfiguredPlan | src/mergetrain/gate_runner.py:91-285 | For every accepted plan, however its gates end and whatever its monitors see: no internal error; every wave is as above and starts after all it waits for and after every gate of the earlier stages, whatever the gates are called; no gate runs twice; a wave has passed exactly when its monitor saw nothing and each of its gates passed; a finished plan has settled every gate, and every gate that ran passed; a stopped one ran no wave after the one that stopped it, with the monitor's error, else that of the first gate of the wave that failed, else a cancel when none failed and one was canceled |
| GateReuse.PathSelection | src/mergetrain/gate_runner.py:326-349 | A gate is skipped exactly when it names paths, the changed paths are known, and none matches |
| GateReuse.UntouchedExactlyWhenNoneSplits | src/mergetrain/path_gates.py:55-88 | A gate is left out exactly when it names paths, the changed paths are known, and no changed path splits as one of its patterns asks |
| GateReuse.ReusedStates | src/mergetrain/gate_runner.py:444-473 | The reused run treats each gate as planned |
| GateReuse.PreviewPlan | src/mergetrain/reuse.py:164-249 | The preview lists the built-in check and then every effective gate, each with the action of its branch: of an eligible, an open or a declined decision |
| GateReuse.OpenPreviewForetells | src/mergetrain/reuse.py:214-231 | Without a decision, a potential reuse is foretold exactly when every reused run reuses the gate; a rerun is certain if and only if the gate names no paths; a conditional reuse may be skipped and may be run |
| GateReuse.DeclinedPreviewForetells | src/mergetrain/reuse.py:232-234 | When reuse is declined, exactly the gates that every ordinary run runs are listed as reruns |
| GateReuse.ConfiguredAndEffectiveAskAlike | src/mergetrain/validation_reuse.py:331-339 | The decision, which looks at the configured gates, and the run, which looks at the effective ones, ask for changed paths in the same cases |
| GateReuse.RunReusedGates | src/mergetrain/gate_runner.py:444-473 | Every gate is treated as planned: only gates to rerun run, and a finished run ran all of them and each passed |
| GateReuse.PreviewThenRun | src/mergetrain/reuse.py:194-212 | In preview and execution of one eligible train over the same changed paths, known or not, every gate is skipped, reused or run exactly as listed |
| ValidationReuse.RecordAgrees | src/mergetrain/validation_reuse.py:101-128 | The conditional blocking rules keep the agreement between reasons and mismatches |
| ValidationReuse.CheckTrain | src/mergetrain/validation_reuse.py:130-173 | The set comparisons of train, size, commit and base hold exactly when all jobs share the one value |
| ValidationReuse.SameIdentityExactlyWhenSameMembers | src/mergetrain/reuse.py:79-111 | Two trains have the same identity exactly when they agree in train id, size, and the job, task, branch and validated head of each member in order |
| ValidationReuse.CheckRecorded | src/mergetrain/validation_reuse.py:175-235 | No reason is added exactly when identity, policy, age and the four shared fields hold |
| ValidationReuse.Decide | src/mergetrain/validation_reuse.py:77-349 | Reuse is eligible exactly when every recorded check is a match, exactly when there is no reason, and exactly when the identity holds and the environment is reproduced at the restored commit; the environment is left out exactly when that commit was not restored; a decision leaves the worktree at the integration base unless the commit could not be restored, and a worktree that could not be put back, or a busy queue, is raised instead of a decision |
| ValidationReuse.CheckEnvironment | src/mergetrain/validation_reuse.py:267-297 | A busy queue is raised; otherwise the environment matches exactly when its fingerprint is reproduced, and is always recorded |
| PathGates.PathMatchesExactlyWhenItSplits | src/mergetrain/path_gates.py:55-77 | A path matches exactly when its segments split so that each `**` takes any number of whole segments and every other part one that fits |
| PathGates.ParseNameStatusZ | src/mergetrain/path_gates.py:91-117 | Output is accepted exactly when it is what `git` prints for some records; the result is their paths, both ends of a rename, each once and in order |
| PathGates.PrintedParses | src/mergetrain/path_gates.py:91-117 | Printing and parsing records is a round trip |
| PathGates.MalformedIsNeverPrinted | src/mergetrain/path_gates.py:94-112 | Refused output is printed for no records |
| PathGates.FirstOccurrencesAreAllAndDistinct | src/mergetrain/path_gates.py:117 | Deduplication keeps every path once |
| PathGates.FirstOccurrencesKeepOrder | src/mergetrain/path_gates.py:117 | Deduplication keeps the order of first occurrences |
| PathGates.SplitIsExact | src/mergetrain/path_gates.py:58-59 | Splitting on a separator loses nothing |
| Notify.SweepNotifications | src/mergetrain/notify.py:120-184 | The loop computes the messages and settled keys of a sweep |
| Notify.WhatIsSent | src/mergetrain/notify.py:22-45 | Which outcome is sent, by name: a landing under `landed`, jobs that did not land under `blocked`, a pause under its own category, and a lasting state only when it has changed; what is not sent is settled, except an unknown outcome that no configured category shuts out |
| Notify.DeliverNotifications | src/mergetrain/notify.py:217-264 | A message is delivered exactly when the webhook takes it and nothing of its path failed before in the sweep, and the sweep leads to the state that `After` defines |
| Notify.DeliveredThenUnsent | src/mergetrain/notify.py:239-261 | For each path, what a sweep delivers comes before what it keeps, and together they are the kept and new events |
| Notify.LandingIsDeliveredOrKept | src/mergetrain/notify.py:217-264 | A landing, or jobs that did not land, is delivered or kept, and settled in either case; a pause that is not delivered is neither kept nor settled, so the next sweep sends it again |
| Notify.SweepAccounts | src/mergetrain/notify.py:217-264 | One sweep loses, doubles and reorders no event, keeps at most 20, and drops only when 20 are kept |
| Notify.EventsAreDeliveredOnceInOrder | src/mergetrain/notify.py:217-264 | Over any sequence of sweeps and failures, the events produced for a path are those delivered or dropped, then those kept, in order |
| Notify.StateIsSentUntilSettled | src/mergetrain/notify.py:152-154 | A sweep sends a state's message exactly when its key is not settled, and settles it exactly when it was settled or is delivered |
| Notify.StateIsDeliveredOnce | src/mergetrain/notify.py:217-264 | While a state lasts, its message is tried in every sweep until one delivers it, and in none after that |
| HubSweep.Turns | src/mergetrain/hub_daemon.py:83-152 | An entry gets a turn exactly when no opted-out entry reaches its directory or queue and no earlier entry shares a key; a skipped entry names the earliest entry that shares one |
| HubSweep.FindDuplicates | src/mergetrain/hub_daemon.py:116-123 | An entry is a duplicate exactly when an earlier one shares a key, and it is recorded with the earliest such entry |
| HubSweep.OneTurnPerQueue | src/mergetrain/hub_daemon.py:83-152 | For every queue key at most one entry gets a turn, and no entry that shares a key with an opted-out entry does, however key sets overlap |
| HubSweep.QueueGetsATurnExactlyWhenItsFirstEntryDoes | src/mergetrain/hub_daemon.py:116-123 | A key gets a turn if and only if its first entry is neither opted out nor a duplicate |
| HubSweep.ChainLosesATurn | src/mergetrain/hub_daemon.py:144-152 | Three entries in a chain of which the last queue gets no turn |
| ImportCycles.LeastRotation | scripts/check_architecture.py:246-247 | The reported rotation is the least of all |
| ImportCycles.Search.Visit | scripts/check_architecture.py:238-249 | A visit finishes its module and all it reaches, keeps the stack a path of the gray modules, reports only real cycles, and leaves no import of a finished module that leads to one not finished before, unless a reported cycle takes it |
| ImportCycles.Search.Report | scripts/check_architecture.py:244-247 | An import of a gray module closes a cycle on the stack, and the cycle that is reported takes this import |
| ImportCycles.RankedIsAcyclic | scripts/check_architecture.py:234-253 | If every module was finished after all it imports, but for the imports of reported cycles, every cycle takes one of these |
| ImportCycles.FindCycles | scripts/check_architecture.py:234-253 | Something is reported exactly when the graph has a cycle; everything reported is a cycle of distinct modules in least rotation; and without the imports of the reported cycles no cycle is left |
| ImportCycles.GraphHasExactlyTheImports | scripts/check_architecture.py:226-232 | When every importing module is known, the graph has an edge exactly for the imports between two different modules |
| ImportCycles.CycleViolations | scripts/check_architecture.py:223-263 | An import of a known module by an unknown one is an exception, the first of them; otherwise violations exist exactly when there is a cycle, without the imports of their cycles none is left, and each has the line of an import from its last module to its first: the lookup never fails |

## Left out

Weaker than the source, or stated in other terms:

- Bisect.IsolateTrain: one answer per subset; that is what the probe cache makes the code see, and the train's own first gate run is not one of these answers. A set of jobs stands for a probe, not its log.
- TrainEngine.RunBatch: event writes raise only a busy queue, and handlers only a lost lease or a busy queue; unexpected database errors inside a handler are not modelled. A merge that is already up to date counts as a merge. The owner and lease token are always given. Which steps raise, whether a push lock is free and where a branch stands are the environment's choice.
- TrainEngine.Runner.TryReuse: whether the reuse decision is eligible is the world's choice here, for a commit that the jobs were validated as; `ValidationReuse.Decide` is its model. A declined reuse leaves the worktree at the base, as `Decide` proves, except when the validation commit could not be restored: where HEAD is then is not followed here.
- DeploySafety.ExactlyOnce: holds for runs in which a reconcile writes only under its lease and no unexpected error is raised while a push is in flight; see above. The operator's `--force` on a conflict, markers of an old version, and a configuration whose endpoints differ between processes are not part of the protocol. Retry is a withdrawal and a new enqueue; superseding a validated train is not modelled.
- DeploySafety.LandKeeps: a server that applies a push after every process of it has exited is assumed away, as `push_liveness.py` says it cannot be detected.
- ShellTemplate.ExpandedIsReadAsTemplate: the reference covers quoting and token recognition (sections 2.2 and 2.3 of the Shell Command Language, IEEE Std 1003.1-2017) with nested substitutions. Backquotes, `${...}`, `$((...))` and `$'...'` are opaque; `case` patterns, array subscripts and `((` are read as ordinary words and operators; reserved words, assignments and here-documents are not read. From `<<` on, and where shells disagree, the reading says nothing.
- ShellQuoting.ExpandPathPlaceholders: the keys are `${repo}` and `${worktree}`, which are the ones the program passes.
- GateScheduler.GateDependencies: the two passes of the source are one loop.
- GateScheduler.RunConfiguredPlan: threads, timeouts and pulses are how the gates of a wave end and what its monitor sees; progress callbacks and gate logs are left out.
- ValidationReuse.Decide: hashing is injective, and the format checks of hashes are left out; the age, the fingerprint and how the two resets and the cleaning end are inputs.
- Notify.SweepNotifications: outcomes are a datatype where the source parses prefixes of strings.
- Notify.DeliverNotifications: the state file, its JSON and the webhook call are left out.
- PathGates.PathMatchesExactlyWhenItSplits: whether one segment fits one pattern part (`fnmatch`) is a parameter, and the validation of patterns is left out.
- HubSweep.Turns: queue keys and whether two paths are one directory are inputs; the tick itself is left out.
- ImportCycles.CycleViolations: modules are numbered in the order of their names; the other architecture rules are left out.
- Reconcile.ReconcileOnce: the answers of a target are an input, and what other processes do to the rows is arbitrary. Exit codes and the JSON report are left out.
- ForceUnlock.UnlockOnce: one clock that does not run backwards, and leases of at least a minute; how live the owner looked at the inspection, whether the remote answers and whether the event can be written are inputs.

Not modelled at all:

- Subprocess control, threads, signals and Windows Job Objects: a command is its outcome.
- Git plumbing, worktree management and cleanup: commits are what was merged onto what.
- SQLite, beyond the row writes in `JobTable.dfy` and the transactions that the steps are.
- YAML, URLs, redaction and most of the configuration.
- The command line, the MCP server, snapshots, statistics, the registry, and release tooling.
