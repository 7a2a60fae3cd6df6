/**
  How reconcile settles one interrupted push (`recovery._ancestor_state`, `_classify`).
 */
module Classification {

  /** Whether a ref's history contains the commit. */
  datatype Ancestor = Yes | No | Unknown

  /** What the remote's audit ref for the commit holds. */
  datatype AuditView = Absent | Matches | Other

  datatype Decision = DecideDeployed | DecideQueued | DecideCanceled | DecideBlocked

  /** The decision, from whether the commit is still an object, the answers of the push
      refs, the audit ref, and a pending cancel request. */
  function Classify(resolvable: bool, answers: set<Ancestor>, audit: AuditView, cancelRequested: bool): Decision {
    if !resolvable || Unknown in answers || audit == Other then DecideBlocked
    else if answers == {Yes} then DecideDeployed
    else if Yes in answers || audit == Matches then DecideBlocked
    else if cancelRequested then DecideCanceled
    else DecideQueued
  }
}

/**
  The crash-safe deploy protocol (`atomic_push.py`, `push_liveness.py`, `recovery.py`,
  `persistence/leases.py`, `persistence/recovery.py`) as a transition system over the queue
  rows, the runner lock, the recovery pins, the remote refs, the runners, the reconciles,
  and the push processes, which outlive their runners.

  Assumed of the world, as the repository states it: a push lands all its refs and its
  audit ref at once or none of them; a refused push landed nothing; an audit ref is never
  rewritten; a push whose processes have all exited cannot land later.
 */
module DeployProtocol {
  import opened Git
  import opened JobTable
  import opened Classification

  type Ref = string

  /** Where a runner is with its train. `Locked` holds the push lock but has not checked the
      lease behind it; from the check on it is `Pushing`. `Closing` writes the outcome. */
  datatype Pc = Working | Marked | Locked | Pushing | Closing(outcome: Status)

  /** A runner works on its claim one train after the other: `serial` counts them. From the
      marker on, `riders` are the jobs of the train that it ships; the claim may hold others. */
  datatype Runner = Runner(riders: set<JobId>, sha: Commit, refs: set<Ref>, pc: Pc, serial: nat)

  /** A push attempt is one of a lease and of one of the trains under it. */
  datatype PushId = PushId(token: Token, serial: nat)

  /** One push attempt, from the lease check behind its push lock on. `running` says that a
      process of it may still land it. */
  datatype Push = Push(sha: Commit, jobs: set<JobId>, refs: set<Ref>, running: bool, landed: bool) {
    predicate Open() { running || landed }
  }

  datatype Tip = NoTip | Tip(commit: Commit)

  /** A job as reconcile read it. */
  datatype Snap = Snap(status: Status, sha: Commit, refs: set<Ref>, cancelRequested: bool)

  datatype Reconcile = Reconcile(
    selected: bool,
    jobs: map<JobId, Snap>,
    checked: set<JobId>,
    seen: map<Ref, Tip>,
    audits: map<Commit, bool>)

  type Rows = map<JobId, Row>
  type Targets = map<JobId, set<Ref>>
  type Runners = map<Token, Runner>
  type Reconciles = map<Token, Reconcile>
  type Pushes = map<PushId, Push>
  type History = set<(Ref, Commit)>

  datatype State = State(
    rows: Rows,
    targets: Targets,                  // the refs recorded with the marker
    deployedAs: map<JobId, Commit>,    // deploy_sha of deployed rows
    pins: map<JobId, Commit>,
    lock: Token,
    used: set<Token>,                  // every lease token ever issued
    runners: Runners,                  // live runner processes
    reconciles: Reconciles,            // live reconcile processes
    pushes: Pushes,                    // every push attempt ever made
    tips: map<Ref, Commit>,            // the remote
    audit: set<Commit>,
    history: History)                  // every commit a ref ever pointed to

  datatype Step =
    // the queue's users
    | Enqueue(job: JobId)
    | RequestCancel(token: Token)
    | Withdraw(job: JobId)
    // a runner
    | Claim(token: Token, jobs: set<JobId>, expired: bool)
    | FinishWork(token: Token, job: JobId, status: Status)
    | RecordMarker(token: Token, riders: set<JobId>, sha: Commit, refs: set<Ref>)
    | Pin(token: Token, job: JobId)
    | PinFailed(token: Token)
    | TakePushLock(token: Token)
    | PushLockBusy(token: Token)
    | CheckLease(token: Token)
    | SeeSuccess(token: Token)
    | SeeRejection(token: Token, outcome: Status)
    | SeeUnclear(token: Token)
    | SeeUnexpected(token: Token)
    | Close(token: Token, job: JobId)
    | NextTrain(token: Token)
    | Leave(token: Token)
    | Crash(token: Token)
    // a push process and the remote
    | Land(push: PushId)
    | PushExits(push: PushId)
    | OthersPush(ref: Ref, tip: Tip)
    | DropPin(job: JobId)
    // recovery
    | ForceUnlock
    | Acquire(token: Token, expired: bool)
    | Select(token: Token)
    | CheckFlight(token: Token, job: JobId)
    | ReadRef(token: Token, ref: Ref)
    | ReadAudit(token: Token, sha: Commit)
    | Apply(token: Token, job: JobId, resolvable: bool, unknown: set<Ref>)
    | EndReconcile(token: Token)

  // ------------------------------------------------------------------ the lock

  predicate Alive(s: State, t: Token) { t in s.runners || t in s.reconciles }

  predicate NoneInProgress(rows: Rows) { forall j <- rows :: rows[j].status != InProgress }

  /** `lock_takeover`: nobody holds the lock, its owner is dead, or its lease expired and no
      job is in progress. */
  predicate CanTake(s: State, expired: bool) {
    s.lock == "" || !Alive(s, s.lock) || (expired && NoneInProgress(s.rows))
  }

  /** The orphan split of every claim. */
  function Split(rows: Rows): Rows {
    map j <- rows :: SplitRow(rows[j])
  }

  predicate Holds(rows: Rows, t: Token, j: JobId) {
    j in rows && rows[j].status == InProgress && rows[j].token == t
  }

  /** Some process still holds the push lock of this commit. */
  predicate PushLockHeld(s: State, sha: Commit) {
    || (exists id <- s.pushes :: s.pushes[id].sha == sha && s.pushes[id].running)
    || (exists t <- s.runners :: s.runners[t].sha == sha && s.runners[t].pc in {Locked, Pushing})
  }

  // ------------------------------------------------------------------ writes to the queue

  function WriteStatus(s: State, j: JobId, status: Status, sha: Commit): State
    requires j in s.rows
  {
    s.(rows := s.rows[j := MarkRow(s.rows[j], status, NoTrain)],
       deployedAs := if status == Deployed then s.deployedAs[j := sha] else s.deployedAs)
  }

  /** The status that a write under a claim ends in when a cancel was requested. */
  function Honoring(row: Row, status: Status): Status {
    if row.cancelRequested && !IgnoresCancel(status) then Canceled else status
  }

  function AfterEnqueue(s: State, j: JobId): State {
    s.(rows := s.rows[j := Row(Queued, "", false, NoCommit, NoTrain)])
  }

  function AfterRequestCancel(s: State, t: Token): State {
    s.(rows := map j <- s.rows :: if Holds(s.rows, t, j) then s.rows[j].(cancelRequested := true) else s.rows[j])
  }

  /** Cancel and dismiss, without recovery authority: they refuse in-progress, parked and
      terminal jobs, and conflicts. */
  predicate MayWithdraw(s: State, j: JobId) {
    && j in s.rows && s.rows[j].status in {Queued, Validated, Failed, Blocked}
    && !IsReconcileConflict(s.rows[j])
  }

  // ------------------------------------------------------------------ a runner

  predicate AtPc(s: State, t: Token, pc: Pc) { t in s.runners && s.runners[t].pc == pc }

  function WithPc(s: State, t: Token, pc: Pc): State
    requires t in s.runners
  {
    s.(runners := s.runners[t := s.runners[t].(pc := pc)])
  }

  /** Which jobs are claimed, and whether some are parked meanwhile, is left open. */
  predicate MayClaim(s: State, t: Token, jobs: set<JobId>, expired: bool) {
    && t != "" && t !in s.used && CanTake(s, expired)
    && forall j <- jobs :: j in s.rows && SplitRow(s.rows[j]).status in {Queued, Validated}
  }

  function ClaimedRows(rows: Rows, t: Token, jobs: set<JobId>): Rows {
    map j <- rows ::
      if j in jobs then Row(InProgress, t, false, rows[j].marker, rows[j].train) else rows[j]
  }

  function AfterClaim(s: State, t: Token, jobs: set<JobId>): State {
    s.(rows := ClaimedRows(Split(s.rows), t, jobs), lock := t, used := s.used + {t},
       runners := s.runners[t := IDLE])
  }

  const IDLE := Runner({}, NoCommit, {}, Working, 0)

  /** A claimed job that does not ride may be finished at any time: during assembly, by a bisect,
      or when its train has ended. */
  predicate MayFinishWork(s: State, t: Token, j: JobId, status: Status) {
    && t in s.runners && j !in s.runners[t].riders && Holds(s.rows, t, j)
    && status in {Blocked, Failed, Queued, Canceled, Validated}
  }

  function AfterFinishWork(s: State, j: JobId, status: Status): State
    requires j in s.rows
  {
    WriteStatus(s, j, Honoring(s.rows[j], status), NoCommit)
  }

  /** Any part of the claim that is still held may be shipped. */
  predicate MayRecordMarker(s: State, t: Token, riders: set<JobId>, sha: Commit) {
    && AtPc(s, t, Working) && sha != NoCommit
    && forall j <- riders :: Holds(s.rows, t, j) && !s.rows[j].cancelRequested
  }

  function WithMarker(rows: Rows, jobs: set<JobId>, sha: Commit): Rows {
    map j <- rows :: if j in jobs then rows[j].(marker := sha) else rows[j]
  }

  function AfterRecordMarker(s: State, t: Token, riders: set<JobId>, sha: Commit, refs: set<Ref>): State
    requires t in s.runners
  {
    s.(rows := WithMarker(s.rows, riders, sha),
       targets := s.targets + (map j <- riders :: refs),
       runners := s.runners[t := Runner(riders, sha, refs, Marked, s.runners[t].serial)])
  }

  predicate MayTakePushLock(s: State, t: Token) {
    && AtPc(s, t, Marked) && s.runners[t].refs != {}
    && (forall j <- s.runners[t].riders :: j in s.pins && s.pins[j] == s.runners[t].sha)
    && !PushLockHeld(s, s.runners[t].sha)
  }

  /** The push of the train that the runner is at. */
  function CurrentPush(s: State, t: Token): PushId
    requires t in s.runners
  {
    PushId(t, s.runners[t].serial)
  }

  /** The lease check that `run_command` makes before it spawns the push. */
  function AfterCheckLease(s: State, t: Token): State
    requires t in s.runners
  {
    var r := s.runners[t];
    if s.lock != t then s.(runners := s.runners - {t})
    else WithPc(s, t, Pushing).(pushes := s.pushes[CurrentPush(s, t) := Push(r.sha, r.riders, r.refs, true, false)])
  }

  /** The push succeeded: its process has exited and everything landed. */
  predicate MaySeeSuccess(s: State, t: Token) {
    && AtPc(s, t, Pushing) && CurrentPush(s, t) in s.pushes
    && !s.pushes[CurrentPush(s, t)].running && s.pushes[CurrentPush(s, t)].landed
  }

  /** The remote refused the push: nothing landed and nothing can. */
  predicate MaySeeRejection(s: State, t: Token, outcome: Status) {
    && AtPc(s, t, Pushing) && CurrentPush(s, t) in s.pushes && !s.pushes[CurrentPush(s, t)].Open()
    && outcome in {Blocked, Queued}
    && forall j <- s.runners[t].riders :: Holds(s.rows, t, j)
  }

  function AfterRejection(s: State, t: Token, outcome: Status): State
    requires t in s.runners
  {
    WithPc(s, t, Closing(outcome)).(rows := WithMarker(s.rows, s.runners[t].riders, NoCommit))
  }

  /** An error that no handler expects may be raised at any time; it ends the train as failed,
      and the jobs keep their marker. */
  predicate MaySeeUnexpected(s: State, t: Token) {
    t in s.runners && s.runners[t].pc in {Marked, Locked, Pushing}
  }

  predicate MayClose(s: State, t: Token, j: JobId) {
    t in s.runners && s.runners[t].pc.Closing? && j in s.runners[t].riders && Holds(s.rows, t, j)
  }

  /** With every rider released, the runner goes on with what else it holds: survivors of a
      bisect, or the next isolated job. */
  predicate MayTakeNextTrain(s: State, t: Token) {
    t in s.runners && s.runners[t].pc.Closing? && forall j <- s.runners[t].riders :: !Holds(s.rows, t, j)
  }

  function AfterNextTrain(s: State, t: Token): State
    requires t in s.runners
  {
    s.(runners := s.runners[t := IDLE.(serial := s.runners[t].serial + 1)])
  }

  function AfterClose(s: State, t: Token, j: JobId): State
    requires MayClose(s, t, j)
  {
    WriteStatus(s, j, Honoring(s.rows[j], s.runners[t].pc.outcome), s.runners[t].sha)
  }

  function Released(s: State, t: Token): State {
    s.(lock := if s.lock == t then "" else s.lock)
  }

  function AfterPin(s: State, t: Token, j: JobId): State
    requires t in s.runners
  {
    s.(pins := s.pins[j := s.runners[t].sha])
  }

  function AfterLeave(s: State, t: Token): State {
    Released(s, t).(runners := s.runners - {t})
  }

  function AfterCrash(s: State, t: Token): State {
    s.(runners := s.runners - {t}, reconciles := s.reconciles - {t})
  }

  // ------------------------------------------------------------------ the push and the remote

  function AfterPushExits(s: State, id: PushId): State
    requires id in s.pushes
  {
    s.(pushes := s.pushes[id := s.pushes[id].(running := false)])
  }

  function AfterLand(s: State, id: PushId): State
    requires id in s.pushes
  {
    var p := s.pushes[id];
    s.(tips := s.tips + (map ref <- p.refs :: p.sha),
       history := s.history + (set ref <- p.refs :: (ref, p.sha)),
       audit := s.audit + {p.sha},
       pushes := s.pushes[id := p.(landed := true)])
  }

  /** Anyone else moves or deletes a branch. */
  function AfterOthersPush(s: State, ref: Ref, tip: Tip): State {
    match tip
    case NoTip => s.(tips := s.tips - {ref})
    case Tip(c) => s.(tips := s.tips[ref := c], history := s.history + {(ref, c)})
  }

  /** The pin of a job that was settled or never marked is swept. */
  predicate MayDropPin(s: State, j: JobId) {
    j !in s.rows || s.rows[j].marker == NoCommit || s.rows[j].status in {Deployed, Canceled, Failed}
  }

  function AfterDropPin(s: State, j: JobId): State {
    s.(pins := s.pins - {j})
  }

  // ------------------------------------------------------------------ recovery

  function AfterForceUnlock(s: State): State {
    s.(lock := "", rows := Split(s.rows))
  }

  function AfterAcquire(s: State, t: Token): State {
    s.(rows := Split(s.rows), lock := t, used := s.used + {t},
       reconciles := s.reconciles[t := Reconcile(false, map[], {}, map[], map[])])
  }

  function WithReconcile(s: State, t: Token, r: Reconcile): State {
    s.(reconciles := s.reconciles[t := r])
  }

  /** Reconcile takes up every parked job and every conflict with a recorded target. */
  function Selected(s: State): map<JobId, Snap> {
    map j | j in s.rows && s.rows[j].marker != NoCommit
            && s.rows[j].status in {NeedsReconcile, Blocked} && j in s.targets
      :: Snap(s.rows[j].status, s.rows[j].marker, s.targets[j], s.rows[j].cancelRequested)
  }

  function AfterSelect(s: State, t: Token): State
    requires t in s.reconciles
  {
    WithReconcile(s, t, s.reconciles[t].(selected := true, jobs := Selected(s)))
  }

  predicate MayCheckFlight(s: State, t: Token, j: JobId) {
    && t in s.reconciles && s.reconciles[t].selected && j in s.reconciles[t].jobs
    && !PushLockHeld(s, s.reconciles[t].jobs[j].sha)
  }

  function AfterCheckFlight(s: State, t: Token, j: JobId): State
    requires t in s.reconciles
  {
    WithReconcile(s, t, s.reconciles[t].(checked := s.reconciles[t].checked + {j}))
  }

  /** No push of any selected job is still running: the remote may be read. */
  predicate MayRead(s: State, t: Token) {
    && t in s.reconciles && s.reconciles[t].selected
    && s.reconciles[t].jobs.Keys <= s.reconciles[t].checked
  }

  function TipOf(s: State, ref: Ref): Tip {
    if ref in s.tips then Tip(s.tips[ref]) else NoTip
  }

  function AfterReadRef(s: State, t: Token, ref: Ref): State
    requires t in s.reconciles
  {
    WithReconcile(s, t, s.reconciles[t].(seen := s.reconciles[t].seen[ref := TipOf(s, ref)]))
  }

  function AfterReadAudit(s: State, t: Token, sha: Commit): State
    requires t in s.reconciles
  {
    WithReconcile(s, t, s.reconciles[t].(audits := s.reconciles[t].audits[sha := sha in s.audit]))
  }

  function AnswerOf(contains: (Commit, Commit) -> bool, tip: Tip, sha: Commit, unknown: bool): Ancestor {
    if tip.NoTip? then No
    else if unknown then Unknown
    else if contains(tip.commit, sha) then Yes
    else No
  }

  predicate ReadFor(r: Reconcile, snap: Snap) { snap.refs <= r.seen.Keys && snap.sha in r.audits }

  /** Every parked job was read before anything is written; a conflict whose target no longer
      answers is reported as it stands, without a write. */
  predicate AllRead(r: Reconcile) {
    r.selected && forall j <- r.jobs :: r.jobs[j].status == NeedsReconcile ==> ReadFor(r, r.jobs[j])
  }

  function DecisionFor(contains: (Commit, Commit) -> bool, r: Reconcile, snap: Snap, resolvable: bool,
                       unknown: set<Ref>): Decision
    requires ReadFor(r, snap)
  {
    Classify(resolvable,
             set ref <- snap.refs :: AnswerOf(contains, r.seen[ref], snap.sha, ref in unknown),
             if r.audits[snap.sha] then Matches else Absent,
             snap.cancelRequested)
  }

  predicate MayApply(s: State, t: Token, j: JobId, resolvable: bool) {
    && t in s.reconciles && j in s.reconciles[t].jobs
    && AllRead(s.reconciles[t]) && ReadFor(s.reconciles[t], s.reconciles[t].jobs[j])
    // a pin keeps the commit an object of the store
    && (j in s.pins ==> resolvable)
  }

  /** `_apply`: a compare-and-swap on the status alone. */
  function ApplyDecision(s: State, j: JobId, snap: Snap, decision: Decision): State {
    if j !in s.rows || s.rows[j].status != snap.status then s
    else match decision
      case DecideDeployed => WriteStatus(s, j, Deployed, snap.sha)
      case DecideQueued => WriteStatus(s, j, Queued, NoCommit)
      case DecideCanceled => WriteStatus(s, j, Canceled, NoCommit)
      case DecideBlocked => if snap.status == Blocked then s else WriteStatus(s, j, Blocked, NoCommit)
  }

  function DecisionAt(contains: (Commit, Commit) -> bool, s: State, t: Token, j: JobId, resolvable: bool,
                      unknown: set<Ref>): Decision
    requires MayApply(s, t, j, resolvable)
  {
    DecisionFor(contains, s.reconciles[t], s.reconciles[t].jobs[j], resolvable, unknown)
  }

  function AfterApply(contains: (Commit, Commit) -> bool, s: State, t: Token, j: JobId, resolvable: bool,
                      unknown: set<Ref>): State
    requires MayApply(s, t, j, resolvable)
  {
    var r := s.reconciles[t];
    ApplyDecision(WithReconcile(s, t, r.(jobs := r.jobs - {j})), j, r.jobs[j],
                  DecisionAt(contains, s, t, j, resolvable, unknown))
  }

  function AfterEndReconcile(s: State, t: Token): State {
    Released(s, t).(reconciles := s.reconciles - {t})
  }

  // ------------------------------------------------------------------ the transition relation

  /** A step of a queue user, a dying process, a push process, or the world. */
  predicate IsWorldStep(step: Step) {
    step.Enqueue? || step.RequestCancel? || step.Withdraw? || step.Leave? || step.Crash? || step.Land? ||
    step.PushExits? || step.OthersPush? || step.DropPin? || step.ForceUnlock?
  }

  /** A step of a runner taking a train up to its push. */
  predicate IsTrainStep(step: Step) {
    step.Claim? || step.FinishWork? || step.RecordMarker? || step.Pin?
  }

  /** A step of a runner that starts its push, or cannot. */
  predicate IsPushStep(step: Step) {
    step.PinFailed? || step.TakePushLock? || step.PushLockBusy? || step.CheckLease?
  }

  /** A step of a runner that has seen how its train ends. */
  predicate IsOutcomeStep(step: Step) {
    step.SeeSuccess? || step.SeeRejection? || step.SeeUnclear? || step.SeeUnexpected?
  }

  /** A step of a runner that records the end of its train. */
  predicate IsEndStep(step: Step) { step.Close? || step.NextTrain? }

  /** A step of a reconcile. */
  predicate IsRecoveryStep(step: Step) {
    step.Acquire? || step.Select? || step.CheckFlight? || step.ReadRef? || step.ReadAudit? || step.Apply? ||
    step.EndReconcile?
  }

  predicate WorldEnabled(s: State, step: Step)
    requires IsWorldStep(step)
  {
    match step
    case Enqueue(j) => j !in s.rows
    case RequestCancel(t) => true
    case Withdraw(j) => MayWithdraw(s, j)
    case Leave(t) => t in s.runners
    case Crash(t) => Alive(s, t)
    case Land(id) => id in s.pushes && s.pushes[id].running && !s.pushes[id].landed
    case PushExits(id) => id in s.pushes && s.pushes[id].running
    case OthersPush(ref, tip) => true
    case DropPin(j) => MayDropPin(s, j)
    case ForceUnlock => s.lock != ""
  }

  predicate TrainEnabled(s: State, step: Step)
    requires IsTrainStep(step)
  {
    match step
    case Claim(t, jobs, expired) => MayClaim(s, t, jobs, expired)
    case FinishWork(t, j, status) => MayFinishWork(s, t, j, status)
    case RecordMarker(t, riders, sha, refs) => MayRecordMarker(s, t, riders, sha)
    case Pin(t, j) => AtPc(s, t, Marked) && j in s.runners[t].riders
  }

  predicate PushEnabled(s: State, step: Step)
    requires IsPushStep(step)
  {
    match step
    case PinFailed(t) => AtPc(s, t, Marked)
    case TakePushLock(t) => MayTakePushLock(s, t)
    case PushLockBusy(t) => AtPc(s, t, Marked) && PushLockHeld(s, s.runners[t].sha)
    case CheckLease(t) => AtPc(s, t, Locked)
  }

  predicate OutcomeEnabled(s: State, step: Step)
    requires IsOutcomeStep(step)
  {
    match step
    case SeeSuccess(t) => MaySeeSuccess(s, t)
    case SeeRejection(t, outcome) => MaySeeRejection(s, t, outcome)
    case SeeUnclear(t) => AtPc(s, t, Pushing)
    case SeeUnexpected(t) => MaySeeUnexpected(s, t)
  }

  predicate EndEnabled(s: State, step: Step)
    requires IsEndStep(step)
  {
    match step
    case Close(t, j) => MayClose(s, t, j)
    case NextTrain(t) => MayTakeNextTrain(s, t)
  }

  predicate RecoveryEnabled(s: State, step: Step)
    requires IsRecoveryStep(step)
  {
    match step
    case Acquire(t, expired) => t != "" && t !in s.used && CanTake(s, expired)
    case Select(t) => t in s.reconciles && !s.reconciles[t].selected
    case CheckFlight(t, j) => MayCheckFlight(s, t, j)
    case ReadRef(t, ref) => MayRead(s, t)
    case ReadAudit(t, sha) => MayRead(s, t)
    case Apply(t, j, resolvable, unknown) => MayApply(s, t, j, resolvable)
    case EndReconcile(t) => t in s.reconciles
  }

  predicate Enabled(s: State, step: Step) {
    if IsWorldStep(step) then WorldEnabled(s, step)
    else if IsTrainStep(step) then TrainEnabled(s, step)
    else if IsPushStep(step) then PushEnabled(s, step)
    else if IsOutcomeStep(step) then OutcomeEnabled(s, step)
    else if IsEndStep(step) then EndEnabled(s, step)
    else RecoveryEnabled(s, step)
  }

  function WorldNext(s: State, step: Step): State
    requires IsWorldStep(step) && WorldEnabled(s, step)
  {
    match step
    case Enqueue(j) => AfterEnqueue(s, j)
    case RequestCancel(t) => AfterRequestCancel(s, t)
    case Withdraw(j) => WriteStatus(s, j, Canceled, NoCommit)
    case Leave(t) => AfterLeave(s, t)
    case Crash(t) => AfterCrash(s, t)
    case Land(id) => AfterLand(s, id)
    case PushExits(id) => AfterPushExits(s, id)
    case OthersPush(ref, tip) => AfterOthersPush(s, ref, tip)
    case DropPin(j) => AfterDropPin(s, j)
    case ForceUnlock => AfterForceUnlock(s)
  }

  function TrainNext(s: State, step: Step): State
    requires IsTrainStep(step) && TrainEnabled(s, step)
  {
    match step
    case Claim(t, jobs, expired) => AfterClaim(s, t, jobs)
    case FinishWork(t, j, status) => AfterFinishWork(s, j, status)
    case RecordMarker(t, riders, sha, refs) => AfterRecordMarker(s, t, riders, sha, refs)
    case Pin(t, j) => AfterPin(s, t, j)
  }

  function PushNext(s: State, step: Step): State
    requires IsPushStep(step) && PushEnabled(s, step)
  {
    match step
    case PinFailed(t) => WithPc(s, t, Closing(Blocked))
    case TakePushLock(t) => WithPc(s, t, Locked)
    case PushLockBusy(t) => WithPc(s, t, Closing(NeedsReconcile))
    case CheckLease(t) => AfterCheckLease(s, t)
  }

  function OutcomeNext(s: State, step: Step): State
    requires IsOutcomeStep(step) && OutcomeEnabled(s, step)
  {
    match step
    case SeeSuccess(t) => WithPc(s, t, Closing(Deployed))
    case SeeRejection(t, outcome) => AfterRejection(s, t, outcome)
    case SeeUnclear(t) => WithPc(s, t, Closing(NeedsReconcile))
    case SeeUnexpected(t) => WithPc(s, t, Closing(Failed))
  }

  function EndNext(s: State, step: Step): State
    requires IsEndStep(step) && EndEnabled(s, step)
  {
    match step
    case Close(t, j) => AfterClose(s, t, j)
    case NextTrain(t) => AfterNextTrain(s, t)
  }

  function RecoveryNext(contains: (Commit, Commit) -> bool, s: State, step: Step): State
    requires IsRecoveryStep(step) && RecoveryEnabled(s, step)
  {
    match step
    case Acquire(t, expired) => AfterAcquire(s, t)
    case Select(t) => AfterSelect(s, t)
    case CheckFlight(t, j) => AfterCheckFlight(s, t, j)
    case ReadRef(t, ref) => AfterReadRef(s, t, ref)
    case ReadAudit(t, sha) => AfterReadAudit(s, t, sha)
    case Apply(t, j, resolvable, unknown) => AfterApply(contains, s, t, j, resolvable, unknown)
    case EndReconcile(t) => AfterEndReconcile(s, t)
  }

  function Next(contains: (Commit, Commit) -> bool, s: State, step: Step): State
    requires Enabled(s, step)
  {
    if IsWorldStep(step) then WorldNext(s, step)
    else if IsTrainStep(step) then TrainNext(s, step)
    else if IsPushStep(step) then PushNext(s, step)
    else if IsOutcomeStep(step) then OutcomeNext(s, step)
    else if IsEndStep(step) then EndNext(s, step)
    else RecoveryNext(contains, s, step)
  }
}
