/**
  Exactly-once delivery over every run of the deploy protocol.

  The runs are arbitrary interleavings of queue users, runners, push processes that outlive
  them, crashes, forced unlocks and reconciles. Two steps have to be kept out, and the
  repository does not keep them out. A reconcile that lost its lease still writes its
  decisions, because `_apply` compares only the job's status; an unexpected error records a
  train as failed although its push is in flight or has landed. `Fenced` and `Calm` name the
  guards. `OvertakenReconcileRequeuesALandedJob` and `UnexpectedErrorLosesALandedJob` show
  runs that break without them, and `ApplyKeepsCoverageExactlyWhen` and
  `UnexpectedErrorIsHarmlessExactlyWhen` say for any state when such a step is harmless.
 */
module DeploySafety {
  import opened Git
  import opened JobTable
  import opened Classification
  import opened DeployProtocol

  /** Reconcile writes a decision only while it still holds the lease it acquired. */
  predicate Fenced(s: State, step: Step) {
    step.Apply? ==> s.lock == step.token
  }

  /** The push of the train that the runner is at has not landed and cannot. */
  predicate NothingInFlight(s: State, t: Token) {
    t in s.runners && CurrentPush(s, t) in s.pushes ==> !s.pushes[CurrentPush(s, t)].Open()
  }

  /** No unexpected error is raised while a push is in flight. */
  predicate Calm(s: State, step: Step) {
    step.SeeUnexpected? ==> NothingInFlight(s, step.token)
  }

  predicate Guarded(s: State, step: Step) { Fenced(s, step) && Calm(s, step) }

  ghost predicate Init(s: State) {
    && s.rows == map[] && s.targets == map[] && s.deployedAs == map[] && s.pins == map[]
    && s.lock == "" && s.used == {} && s.runners == map[] && s.reconciles == map[] && s.pushes == map[]
    && (forall ref <- s.tips :: (ref, s.tips[ref]) in s.history)
  }

  /** The steps lead from one state to the other. */
  ghost predicate Runs(contains: (Commit, Commit) -> bool, s: State, steps: seq<Step>, end: State)
    decreases |steps|
  {
    if steps == [] then s == end
    else Enabled(s, steps[0]) && Runs(contains, Next(contains, s, steps[0]), steps[1..], end)
  }

  /** Every step of the run is guarded. */
  ghost predicate AllGuarded(contains: (Commit, Commit) -> bool, s: State, steps: seq<Step>, end: State)
    requires Runs(contains, s, steps, end)
    decreases |steps|
  {
    steps != [] ==> Guarded(s, steps[0]) && AllGuarded(contains, Next(contains, s, steps[0]), steps[1..], end)
  }

  // ------------------------------------------------------------------ what is promised

  /** Once a push has landed, each of its jobs is recorded deployed as that commit, or still
      carries the push's marker. */
  ghost predicate Covered(s: State) {
    forall id <- s.pushes, j <- s.pushes[id].jobs :: s.pushes[id].landed ==> CoveredBy(s, j, s.pushes[id].sha)
  }

  predicate CoveredBy(s: State, j: JobId, sha: Commit) {
    && j in s.rows
    && ((CarriesOpenPush(s.rows[j]) && s.rows[j].marker == sha)
        || (s.rows[j].status == Deployed && j in s.deployedAs && s.deployedAs[j] == sha))
  }

  /** No job has been shipped by two pushes. */
  ghost predicate ShippedOnce(s: State) {
    forall a <- s.pushes, b <- s.pushes, j <- s.pushes[a].jobs ::
      a != b && s.pushes[a].landed && s.pushes[b].landed ==> j !in s.pushes[b].jobs
  }

  /** Every push ref of a deployed job has held a commit that contains its deploy commit. */
  ghost predicate DeployedContained(contains: (Commit, Commit) -> bool, rows: Rows, targets: Targets,
                                    deployedAs: map<JobId, Commit>, history: History) {
    forall j <- rows :: rows[j].status == Deployed ==>
      && j in targets && j in deployedAs && targets[j] != {}
      && forall ref <- targets[j] :: HasHeld(contains, history, ref, deployedAs[j])
  }

  ghost predicate HasHeld(contains: (Commit, Commit) -> bool, history: History, ref: Ref, sha: Commit) {
    exists c :: (ref, c) in history && contains(c, sha)
  }

  // ------------------------------------------------------------------ the invariant

  predicate TokensOk(lock: Token, used: set<Token>, runners: set<Token>, reconciles: set<Token>, pushes: set<PushId>) {
    && "" !in used && (lock == "" || lock in used)
    && runners <= used && reconciles <= used && (forall id <- pushes :: id.token in used)
    && runners !! reconciles
  }

  predicate RowOk(row: Row, lock: Token, used: set<Token>) {
    && (row.status == InProgress ==> row.token in used && (lock == "" || lock == row.token))
    && (row.marker != NoCommit ==> CarriesOpenPush(row) || row.status == Failed)
  }

  ghost predicate RowsOk(rows: Rows, lock: Token, used: set<Token>) {
    forall j <- rows :: RowOk(rows[j], lock, used)
  }

  /** What a runner past its marker knows of a job it still holds. */
  predicate HeldMarked(rows: Rows, targets: Targets, t: Token, r: Runner, j: JobId) {
    Holds(rows, t, j) && rows[j].marker == r.sha && j in targets && targets[j] == r.refs
  }

  /** No other open push of the lease has a job of the train that the runner is at. */
  ghost predicate SerialsOk(pushes: Pushes, t: Token, r: Runner) {
    forall id <- pushes :: id.token == t ==>
      id.serial <= r.serial && (id.serial < r.serial && pushes[id].Open() ==> pushes[id].jobs !! r.riders)
  }

  ghost predicate RunnerOk(rows: Rows, targets: Targets, pins: set<JobId>, lock: Token, pushes: Pushes, t: Token,
                           r: Runner) {
    && SerialsOk(pushes, t, r)
    && (forall j <- rows :: Holds(rows, t, j) && j !in r.riders ==> rows[j].marker == NoCommit)
    && TrainOk(rows, targets, pins, lock, pushes, t, r)
  }

  ghost predicate TrainOk(rows: Rows, targets: Targets, pins: set<JobId>, lock: Token, pushes: Pushes, t: Token,
                          r: Runner) {
    var id := PushId(t, r.serial);
    match r.pc
    case Working => id !in pushes && r.riders == {}
    case Marked =>
      id !in pushes && r.sha != NoCommit && (lock == t ==> forall j <- r.riders :: HeldMarked(rows, targets, t, r, j))
    case Locked =>
      && id !in pushes && r.sha != NoCommit && r.refs != {}
      && (lock == t ==> forall j <- r.riders :: HeldMarked(rows, targets, t, r, j) && j in pins)
    case Pushing =>
      && id in pushes && PushOf(pushes[id], r)
      && forall j <- r.riders :: Holds(rows, t, j) ==> HeldMarked(rows, targets, t, r, j)
    case Closing(outcome) =>
      && outcome in {Blocked, Failed, Queued, NeedsReconcile, Deployed}
      && (outcome in {Blocked, Failed, Queued} ==> id !in pushes || !pushes[id].Open())
      && (outcome == Deployed ==>
          && id in pushes && PushOf(pushes[id], r) && pushes[id].landed && !pushes[id].running
          && forall j <- r.riders :: Holds(rows, t, j) ==> HeldMarked(rows, targets, t, r, j))
  }

  predicate PushOf(p: Push, r: Runner) { p.sha == r.sha && p.jobs == r.riders && p.refs == r.refs }

  ghost predicate RunnersOk(rows: Rows, targets: Targets, pins: set<JobId>, lock: Token, pushes: Pushes,
                            runners: Runners) {
    forall t <- runners :: RunnerOk(rows, targets, pins, lock, pushes, t, runners[t])
  }

  /** A job of a push that has landed or may still land. */
  predicate OpenJobOk(rows: Rows, deployedAs: map<JobId, Commit>, pins: set<JobId>, t: Token, p: Push, j: JobId) {
    && j in rows
    && (|| (CarriesOpenPush(rows[j]) && rows[j].marker == p.sha && j in pins
            && (rows[j].status == InProgress ==> rows[j].token == t))
        || (!p.running && rows[j].status == Deployed && j in deployedAs && deployedAs[j] == p.sha))
  }

  ghost predicate PushOk(rows: Rows, deployedAs: map<JobId, Commit>, pins: set<JobId>, id: PushId, p: Push) {
    && p.sha != NoCommit && p.refs != {}
    && (p.Open() ==> forall j <- p.jobs :: OpenJobOk(rows, deployedAs, pins, id.token, p, j))
  }

  ghost predicate PushesOk(rows: Rows, deployedAs: map<JobId, Commit>, pins: set<JobId>, pushes: Pushes) {
    forall id <- pushes :: PushOk(rows, deployedAs, pins, id, pushes[id])
  }

  ghost predicate Disjoint(pushes: Pushes) {
    forall a <- pushes, b <- pushes, j <- pushes[a].jobs ::
      a != b && pushes[a].Open() && pushes[b].Open() ==> j !in pushes[b].jobs
  }

  ghost predicate RemoteOk(tips: map<Ref, Commit>, audit: set<Commit>, history: History, pushes: Pushes) {
    && (forall ref <- tips :: (ref, tips[ref]) in history)
    && forall id <- pushes :: pushes[id].landed ==>
      && pushes[id].sha in audit
      && forall ref <- pushes[id].refs :: (ref, pushes[id].sha) in history
  }

  /** Nothing can land this commit any more. */
  ghost predicate Quiet(pushes: Pushes, sha: Commit) {
    forall id <- pushes :: pushes[id].sha == sha ==> !pushes[id].running
  }

  /** The commit has not landed and cannot. */
  ghost predicate NeverLands(pushes: Pushes, sha: Commit) {
    forall id <- pushes :: pushes[id].sha == sha ==> !pushes[id].Open()
  }

  predicate SnapOk(rows: Rows, targets: Targets, j: JobId, snap: Snap) {
    && j in rows && rows[j].status == snap.status && snap.status in {NeedsReconcile, Blocked}
    && snap.sha != NoCommit && rows[j].marker == snap.sha && j in targets && targets[j] == snap.refs
  }

  ghost predicate ReconcileOk(rows: Rows, targets: Targets, pushes: Pushes, history: History, r: Reconcile) {
    && (!r.selected ==> r.jobs == map[] && r.checked == {} && r.seen == map[] && r.audits == map[])
    && (forall j <- r.jobs :: SnapOk(rows, targets, j, r.jobs[j]))
    && (forall j <- r.jobs :: j in r.checked ==> Quiet(pushes, r.jobs[j].sha))
    && (r.seen != map[] || r.audits != map[] ==> r.jobs.Keys <= r.checked)
    && (forall ref <- r.seen :: r.seen[ref].Tip? ==> (ref, r.seen[ref].commit) in history)
    && (forall j <- r.jobs :: r.jobs[j].sha in r.audits && !r.audits[r.jobs[j].sha] ==>
          NeverLands(pushes, r.jobs[j].sha))
  }

  /** What the reconcile that holds the lease has read is still so. */
  ghost predicate LeaseOk(rows: Rows, targets: Targets, pushes: Pushes, history: History, lock: Token,
                          reconciles: Reconciles) {
    lock in reconciles ==> ReconcileOk(rows, targets, pushes, history, reconciles[lock])
  }

  ghost predicate Inv(contains: (Commit, Commit) -> bool, s: State) {
    && TokensOk(s.lock, s.used, s.runners.Keys, s.reconciles.Keys, s.pushes.Keys)
    && RowsOk(s.rows, s.lock, s.used)
    && RunnersOk(s.rows, s.targets, s.pins.Keys, s.lock, s.pushes, s.runners)
    && PushesOk(s.rows, s.deployedAs, s.pins.Keys, s.pushes)
    && Disjoint(s.pushes)
    && RemoteOk(s.tips, s.audit, s.history, s.pushes)
    && LeaseOk(s.rows, s.targets, s.pushes, s.history, s.lock, s.reconciles)
    && DeployedContained(contains, s.rows, s.targets, s.deployedAs, s.history)
  }

  // ------------------------------------------------------------------ framing

  /** A change of rows and lease that no runner past its marker can notice. */
  lemma RunnersFramed(rows: Rows, rows': Rows, targets: Targets, pins: set<JobId>, lock: Token, lock': Token,
                      pushes: Pushes, runners: Runners)
    requires RunnersOk(rows, targets, pins, lock, pushes, runners)
    requires forall t <- runners, j <- rows' :: Holds(rows', t, j) ==>
      Holds(rows, t, j) && rows'[j].marker == rows[j].marker
    requires forall t <- runners :: runners[t].pc in {Marked, Locked} && lock' == t ==> lock == t
    requires forall t <- runners, j <- runners[t].riders ::
      runners[t].pc in {Marked, Locked} && lock' == t && Holds(rows, t, j) ==> Holds(rows', t, j)
    ensures RunnersOk(rows', targets, pins, lock', pushes, runners)
  {
    forall t <- runners ensures RunnerOk(rows', targets, pins, lock', pushes, t, runners[t]) {
      assert RunnerOk(rows, targets, pins, lock, pushes, t, runners[t]);
    }
  }

  lemma PushesFramed(rows: Rows, rows': Rows, deployedAs: map<JobId, Commit>, deployedAs': map<JobId, Commit>,
                     pins: set<JobId>, pushes: Pushes)
    requires PushesOk(rows, deployedAs, pins, pushes)
    requires forall id <- pushes, j <- pushes[id].jobs ::
      pushes[id].Open() && OpenJobOk(rows, deployedAs, pins, id.token, pushes[id], j) ==>
        OpenJobOk(rows', deployedAs', pins, id.token, pushes[id], j)
    ensures PushesOk(rows', deployedAs', pins, pushes)
  {
    forall id <- pushes ensures PushOk(rows', deployedAs', pins, id, pushes[id]) {
      assert PushOk(rows, deployedAs, pins, id, pushes[id]);
    }
  }

  /** Reconcile's jobs are not touched by others while it holds the lease. */
  lemma LeaseFramed(rows: Rows, rows': Rows, targets: Targets, targets': Targets, pushes: Pushes, history: History,
                    lock: Token, reconciles: Reconciles)
    requires LeaseOk(rows, targets, pushes, history, lock, reconciles)
    requires lock in reconciles ==>
      forall j <- reconciles[lock].jobs :: SnapOk(rows, targets, j, reconciles[lock].jobs[j]) ==>
      && j in rows' && rows'[j].status == rows[j].status && rows'[j].marker == rows[j].marker
      && j in targets' && targets'[j] == targets[j]
    ensures LeaseOk(rows', targets', pushes, history, lock, reconciles)
  {
    if lock in reconciles {
      var r := reconciles[lock];
      forall j <- r.jobs ensures SnapOk(rows', targets', j, r.jobs[j]) {
        assert SnapOk(rows, targets, j, r.jobs[j]);
      }
    }
  }

  lemma DeployedFramed(contains: (Commit, Commit) -> bool, rows: Rows, rows': Rows, targets: Targets,
                       targets': Targets, deployedAs: map<JobId, Commit>, history: History)
    requires DeployedContained(contains, rows, targets, deployedAs, history)
    requires forall j <- rows' :: rows'[j].status == Deployed ==>
      j in rows && rows[j].status == Deployed && (j in targets ==> j in targets' && targets'[j] == targets[j])
    ensures DeployedContained(contains, rows', targets', deployedAs, history)
  {
  }

  /** The orphan split parks or releases every claim and leaves the other rows alone. */
  lemma SplitFrames(contains: (Commit, Commit) -> bool, s: State, lock: Token, used: set<Token>)
    requires Inv(contains, s) && (lock == "" || lock !in s.used) && s.used <= used
    ensures RowsOk(Split(s.rows), lock, used)
    ensures RunnersOk(Split(s.rows), s.targets, s.pins.Keys, lock, s.pushes, s.runners)
    ensures PushesOk(Split(s.rows), s.deployedAs, s.pins.Keys, s.pushes)
    ensures LeaseOk(Split(s.rows), s.targets, s.pushes, s.history, s.lock, s.reconciles)
    ensures DeployedContained(contains, Split(s.rows), s.targets, s.deployedAs, s.history)
  {
    var rows := Split(s.rows);
    RunnersFramed(s.rows, rows, s.targets, s.pins.Keys, s.lock, lock, s.pushes, s.runners);
    PushesFramed(s.rows, rows, s.deployedAs, s.deployedAs, s.pins.Keys, s.pushes);
    LeaseFramed(s.rows, rows, s.targets, s.targets, s.pushes, s.history, s.lock, s.reconciles);
    DeployedFramed(contains, s.rows, rows, s.targets, s.targets, s.deployedAs, s.history);
  }

  /** A job in progress belongs to no open push but its claimant's. */
  lemma HeldInOpenPush(s: State, t: Token, j: JobId, id: PushId)
    requires PushesOk(s.rows, s.deployedAs, s.pins.Keys, s.pushes)
    requires Holds(s.rows, t, j) && id in s.pushes && s.pushes[id].Open() && j in s.pushes[id].jobs
    ensures id.token == t && s.rows[j].marker == s.pushes[id].sha != NoCommit
  {
    assert PushOk(s.rows, s.deployedAs, s.pins.Keys, id, s.pushes[id]);
    assert OpenJobOk(s.rows, s.deployedAs, s.pins.Keys, id.token, s.pushes[id], j);
  }

  /** A job that a runner holds and does not ship is in no open push; one that it ships is in no
      other than its train's. */
  lemma HeldInCurrentPush(s: State, t: Token, j: JobId, id: PushId)
    requires PushesOk(s.rows, s.deployedAs, s.pins.Keys, s.pushes)
    requires t in s.runners && RunnerOk(s.rows, s.targets, s.pins.Keys, s.lock, s.pushes, t, s.runners[t])
    requires Holds(s.rows, t, j) && id in s.pushes && s.pushes[id].Open() && j in s.pushes[id].jobs
    ensures id == CurrentPush(s, t) && j in s.runners[t].riders
  {
    HeldInOpenPush(s, t, j, id);
  }

  lemma UnmarkedInNoOpenPush(s: State, j: JobId)
    requires PushesOk(s.rows, s.deployedAs, s.pins.Keys, s.pushes)
    requires j in s.rows && !CarriesOpenPush(s.rows[j]) && s.rows[j].status != Deployed
    ensures forall id <- s.pushes :: s.pushes[id].Open() ==> j !in s.pushes[id].jobs
  {
    forall id <- s.pushes | s.pushes[id].Open() ensures j !in s.pushes[id].jobs {
      assert PushOk(s.rows, s.deployedAs, s.pins.Keys, id, s.pushes[id]);
    }
  }

  /** One row is finished: no open push has the job, and no reconcile is settling it. */
  lemma WriteKeeps(contains: (Commit, Commit) -> bool, s: State, j: JobId, status: Status)
    requires Inv(contains, s) && j in s.rows
    requires status !in {InProgress, Deployed}
    requires s.rows[j].marker != NoCommit ==> status in {Blocked, Failed, NeedsReconcile, Queued, Canceled}
    requires s.lock in s.reconciles ==> j !in s.reconciles[s.lock].jobs
    requires s.rows[j].status == InProgress && s.lock == s.rows[j].token && s.lock in s.runners ==>
      s.runners[s.lock].pc !in {Marked, Locked} || j !in s.runners[s.lock].riders
    requires forall id <- s.pushes :: s.pushes[id].Open() && j in s.pushes[id].jobs ==>
      CarriesOpenPush(s.rows[j]) && status in {Blocked, NeedsReconcile}
    ensures Inv(contains, WriteStatus(s, j, status, NoCommit))
  {
    var rows := WriteStatus(s, j, status, NoCommit).rows;
    RunnersFramed(s.rows, rows, s.targets, s.pins.Keys, s.lock, s.lock, s.pushes, s.runners);
    PushesFramed(s.rows, rows, s.deployedAs, s.deployedAs, s.pins.Keys, s.pushes);
    LeaseFramed(s.rows, rows, s.targets, s.targets, s.pushes, s.history, s.lock, s.reconciles);
    DeployedFramed(contains, s.rows, rows, s.targets, s.targets, s.deployedAs, s.history);
  }

  /** One row is finished deployed: every open push that has the job landed it as this commit. */
  lemma DeployKeeps(contains: (Commit, Commit) -> bool, s: State, j: JobId, sha: Commit)
    requires Inv(contains, s) && j in s.rows
    requires s.lock in s.reconciles ==> j !in s.reconciles[s.lock].jobs
    requires s.rows[j].status == InProgress && s.lock == s.rows[j].token && s.lock in s.runners ==>
      s.runners[s.lock].pc !in {Marked, Locked} || j !in s.runners[s.lock].riders
    requires forall id <- s.pushes :: s.pushes[id].Open() && j in s.pushes[id].jobs ==>
      !s.pushes[id].running && s.pushes[id].sha == sha
    requires j in s.targets && s.targets[j] != {}
    requires forall ref <- s.targets[j] :: HasHeld(contains, s.history, ref, sha)
    ensures Inv(contains, WriteStatus(s, j, Deployed, sha))
  {
    var rows, deployedAs := s.rows[j := MarkRow(s.rows[j], Deployed, NoTrain)], s.deployedAs[j := sha];
    RunnersFramed(s.rows, rows, s.targets, s.pins.Keys, s.lock, s.lock, s.pushes, s.runners);
    PushesFramed(s.rows, rows, s.deployedAs, deployedAs, s.pins.Keys, s.pushes);
    LeaseFramed(s.rows, rows, s.targets, s.targets, s.pushes, s.history, s.lock, s.reconciles);
    forall i <- rows | rows[i].status == Deployed
      ensures i in s.targets && i in deployedAs && s.targets[i] != {}
      ensures forall ref <- s.targets[i] :: HasHeld(contains, s.history, ref, deployedAs[i])
    {
      if i != j { assert s.rows[i].status == Deployed; }
    }
  }

  /** A runner whose claims are untouched does not notice changes to other claims. */
  lemma RunnerFramed(rows: Rows, rows': Rows, targets: Targets, targets': Targets, pins: set<JobId>, lock: Token,
                     pushes: Pushes, t: Token, r: Runner)
    requires RunnerOk(rows, targets, pins, lock, pushes, t, r)
    requires forall j <- rows :: Holds(rows, t, j) ==>
      j in rows' && rows'[j] == rows[j] && (j in targets ==> j in targets' && targets'[j] == targets[j])
    requires forall j <- rows' :: Holds(rows', t, j) ==> Holds(rows, t, j)
    ensures RunnerOk(rows', targets', pins, lock, pushes, t, r)
  {
  }

  /** Markers are set and cleared under a claim: nobody else holds these jobs. */
  lemma RemarkFrames(contains: (Commit, Commit) -> bool, s: State, t: Token, jobs: set<JobId>, sha: Commit,
                     targets: Targets)
    requires Inv(contains, s) && forall j <- jobs :: Holds(s.rows, t, j)
    requires forall j <- s.targets :: j in targets && (j !in jobs ==> targets[j] == s.targets[j])
    requires forall id <- s.pushes, j <- jobs :: s.pushes[id].Open() ==> j !in s.pushes[id].jobs
    ensures RowsOk(WithMarker(s.rows, jobs, sha), s.lock, s.used)
    ensures forall t' <- s.runners :: t' != t ==>
      RunnerOk(WithMarker(s.rows, jobs, sha), targets, s.pins.Keys, s.lock, s.pushes, t', s.runners[t'])
    ensures PushesOk(WithMarker(s.rows, jobs, sha), s.deployedAs, s.pins.Keys, s.pushes)
    ensures LeaseOk(WithMarker(s.rows, jobs, sha), targets, s.pushes, s.history, s.lock, s.reconciles)
    ensures DeployedContained(contains, WithMarker(s.rows, jobs, sha), targets, s.deployedAs, s.history)
  {
    var rows := WithMarker(s.rows, jobs, sha);
    forall t' <- s.runners | t' != t
      ensures RunnerOk(rows, targets, s.pins.Keys, s.lock, s.pushes, t', s.runners[t'])
    {
      RunnerFramed(s.rows, rows, s.targets, targets, s.pins.Keys, s.lock, s.pushes, t', s.runners[t']);
    }
    PushesFramed(s.rows, rows, s.deployedAs, s.deployedAs, s.pins.Keys, s.pushes);
    LeaseFramed(s.rows, rows, s.targets, targets, s.pushes, s.history, s.lock, s.reconciles);
    DeployedFramed(contains, s.rows, rows, s.targets, targets, s.deployedAs, s.history);
  }

  lemma MarkedRunners(s: State, t: Token, riders: set<JobId>, sha: Commit, refs: set<Ref>)
    requires AtPc(s, t, Working) && sha != NoCommit
    requires RunnerOk(s.rows, s.targets, s.pins.Keys, s.lock, s.pushes, t, s.runners[t])
    requires forall j <- riders :: Holds(s.rows, t, j)
    requires forall id <- s.pushes, j <- riders :: s.pushes[id].Open() ==> j !in s.pushes[id].jobs
    requires
      var after := AfterRecordMarker(s, t, riders, sha, refs);
      forall t' <- s.runners :: t' != t ==>
        RunnerOk(after.rows, after.targets, s.pins.Keys, s.lock, s.pushes, t', s.runners[t'])
    ensures
      var after := AfterRecordMarker(s, t, riders, sha, refs);
      RunnersOk(after.rows, after.targets, s.pins.Keys, s.lock, s.pushes, after.runners)
  {
    var after := AfterRecordMarker(s, t, riders, sha, refs);
    forall id <- s.pushes | s.pushes[id].Open() ensures s.pushes[id].jobs !! riders {
      forall j <- riders ensures j !in s.pushes[id].jobs {
      }
    }
    assert RunnerOk(after.rows, after.targets, s.pins.Keys, s.lock, s.pushes, t, after.runners[t]);
  }

  /** A push moves on: it lands, or its processes exit. */
  lemma PushAdvances(s: State, id: PushId, p: Push, history: History)
    requires id in s.pushes && s.history <= history
    requires RunnersOk(s.rows, s.targets, s.pins.Keys, s.lock, s.pushes, s.runners)
    requires PushesOk(s.rows, s.deployedAs, s.pins.Keys, s.pushes) && Disjoint(s.pushes)
    requires LeaseOk(s.rows, s.targets, s.pushes, s.history, s.lock, s.reconciles)
    requires p.sha == s.pushes[id].sha && p.jobs == s.pushes[id].jobs && p.refs == s.pushes[id].refs
    requires (p.Open() ==> s.pushes[id].Open()) && (p.running ==> s.pushes[id].running)
    requires s.pushes[id].landed ==> p.landed
    ensures RunnersOk(s.rows, s.targets, s.pins.Keys, s.lock, s.pushes[id := p], s.runners)
    ensures PushesOk(s.rows, s.deployedAs, s.pins.Keys, s.pushes[id := p]) && Disjoint(s.pushes[id := p])
    ensures LeaseOk(s.rows, s.targets, s.pushes[id := p], history, s.lock, s.reconciles)
  {
    var pushes := s.pushes[id := p];
    forall t <- s.runners ensures RunnerOk(s.rows, s.targets, s.pins.Keys, s.lock, pushes, t, s.runners[t]) {
      assert RunnerOk(s.rows, s.targets, s.pins.Keys, s.lock, s.pushes, t, s.runners[t]);
    }
    forall i <- pushes ensures PushOk(s.rows, s.deployedAs, s.pins.Keys, i, pushes[i]) {
      assert PushOk(s.rows, s.deployedAs, s.pins.Keys, i, s.pushes[i]);
      forall j <- pushes[i].jobs | pushes[i].Open()
        ensures OpenJobOk(s.rows, s.deployedAs, s.pins.Keys, i.token, pushes[i], j)
      {
        assert OpenJobOk(s.rows, s.deployedAs, s.pins.Keys, i.token, s.pushes[i], j);
      }
    }
    LeaseAdvances(s, pushes, history);
  }

  lemma LeaseAdvances(s: State, pushes: Pushes, history: History)
    requires LeaseOk(s.rows, s.targets, s.pushes, s.history, s.lock, s.reconciles) && s.history <= history
    requires forall id <- pushes :: (id in s.pushes && pushes[id].sha == s.pushes[id].sha
      && (pushes[id].Open() ==> s.pushes[id].Open()) && (pushes[id].running ==> s.pushes[id].running))
    ensures LeaseOk(s.rows, s.targets, pushes, history, s.lock, s.reconciles)
  {
  }

  /** The push that a passed lease check starts is the only one with these jobs. */
  lemma PushStarts(s: State, t: Token, p: Push)
    requires t in s.runners && RunnerOk(s.rows, s.targets, s.pins.Keys, s.lock, s.pushes, t, s.runners[t])
    requires CurrentPush(s, t) !in s.pushes && PushOf(p, s.runners[t])
    requires p.sha != NoCommit && p.refs != {} && p.running && !p.landed
    requires PushesOk(s.rows, s.deployedAs, s.pins.Keys, s.pushes) && Disjoint(s.pushes)
    requires RowsOk(s.rows, s.lock, s.used)
    requires forall j <- p.jobs :: Holds(s.rows, t, j) && s.rows[j].marker == p.sha && j in s.pins
    ensures
      var pushes := s.pushes[CurrentPush(s, t) := p];
      PushesOk(s.rows, s.deployedAs, s.pins.Keys, pushes) && Disjoint(pushes)
  {
    forall id <- s.pushes, j <- p.jobs | s.pushes[id].Open() ensures j !in s.pushes[id].jobs {
      if j in s.pushes[id].jobs { HeldInCurrentPush(s, t, j, id); }
    }
    forall j <- p.jobs ensures OpenJobOk(s.rows, s.deployedAs, s.pins.Keys, t, p, j) {
      assert RowOk(s.rows[j], s.lock, s.used);
    }
  }

  lemma LeaseCheckKeeps(contains: (Commit, Commit) -> bool, s: State, t: Token)
    requires Inv(contains, s) && AtPc(s, t, Locked) && s.lock == t
    ensures Inv(contains, AfterCheckLease(s, t))
  {
    var r := s.runners[t];
    var p := Push(r.sha, r.riders, r.refs, true, false);
    assert RunnerOk(s.rows, s.targets, s.pins.Keys, s.lock, s.pushes, t, r);
    PushStarts(s, t, p);
    RunnersBesideNewPush(s, t, p);
  }

  lemma RunnersBesideNewPush(s: State, t: Token, p: Push)
    requires RunnersOk(s.rows, s.targets, s.pins.Keys, s.lock, s.pushes, s.runners)
    requires AtPc(s, t, Locked) && s.lock == t && PushOf(p, s.runners[t])
    ensures RunnersOk(s.rows, s.targets, s.pins.Keys, s.lock, s.pushes[CurrentPush(s, t) := p],
                      s.runners[t := s.runners[t].(pc := Pushing)])
  {
    var runners, pushes := s.runners[t := s.runners[t].(pc := Pushing)], s.pushes[CurrentPush(s, t) := p];
    assert RunnerOk(s.rows, s.targets, s.pins.Keys, s.lock, s.pushes, t, s.runners[t]);
    forall t' <- runners ensures RunnerOk(s.rows, s.targets, s.pins.Keys, s.lock, pushes, t', runners[t']) {
      assert RunnerOk(s.rows, s.targets, s.pins.Keys, s.lock, s.pushes, t', s.runners[t']);
    }
  }

  lemma SettledKeeps(contains: (Commit, Commit) -> bool, s: State, t: Token, j: JobId)
    requires Inv(contains, s) && t in s.reconciles
    ensures Inv(contains, WithReconcile(s, t, s.reconciles[t].(jobs := s.reconciles[t].jobs - {j})))
  {
  }

  /** What a decision of the lease holder says of the pushes that carried the job: queued and
      canceled mean that none landed or will, deployed means that any has landed as this
      commit on every recorded ref, and nothing is decided while one may still land. */
  lemma DecisionIsSound(contains: (Commit, Commit) -> bool, s: State, t: Token, j: JobId, resolvable: bool,
                        unknown: set<Ref>)
    requires Inv(contains, s) && MayApply(s, t, j, resolvable) && s.lock == t
    ensures SnapOk(s.rows, s.targets, j, s.reconciles[t].jobs[j])
    ensures forall id <- s.pushes :: (s.pushes[id].Open() && j in s.pushes[id].jobs ==>
      CarriesOpenPush(s.rows[j]) && s.pushes[id].sha == s.reconciles[t].jobs[j].sha && !s.pushes[id].running)
    ensures DecisionAt(contains, s, t, j, resolvable, unknown) in {DecideQueued, DecideCanceled} ==>
      forall id <- s.pushes :: s.pushes[id].Open() ==> j !in s.pushes[id].jobs
    ensures DecisionAt(contains, s, t, j, resolvable, unknown) == DecideDeployed ==>
      && s.targets[j] != {}
      && forall ref <- s.targets[j] :: HasHeld(contains, s.history, ref, s.reconciles[t].jobs[j].sha)
  {
    var r := s.reconciles[t];
    var snap := r.jobs[j];
    assert ReconcileOk(s.rows, s.targets, s.pushes, s.history, r);
    assert SnapOk(s.rows, s.targets, j, snap);
    assert j in r.checked && Quiet(s.pushes, snap.sha);
    forall id <- s.pushes | s.pushes[id].Open() && j in s.pushes[id].jobs
      ensures CarriesOpenPush(s.rows[j]) && s.pushes[id].sha == snap.sha && !s.pushes[id].running
    {
      assert PushOk(s.rows, s.deployedAs, s.pins.Keys, id, s.pushes[id]);
      assert OpenJobOk(s.rows, s.deployedAs, s.pins.Keys, id.token, s.pushes[id], j);
    }
    var answers := set ref <- snap.refs :: AnswerOf(contains, r.seen[ref], snap.sha, ref in unknown);
    if DecisionAt(contains, s, t, j, resolvable, unknown) == DecideDeployed {
      assert Yes in answers;
      forall ref <- snap.refs ensures HasHeld(contains, s.history, ref, snap.sha) {
        assert AnswerOf(contains, r.seen[ref], snap.sha, ref in unknown) in answers;
        assert (ref, r.seen[ref].commit) in s.history;
      }
    }
  }

  // ------------------------------------------------------------------ every step keeps it

  lemma EnqueueKeeps(contains: (Commit, Commit) -> bool, s: State, j: JobId)
    requires Inv(contains, s) && j !in s.rows
    ensures Inv(contains, AfterEnqueue(s, j))
  {
    var rows := AfterEnqueue(s, j).rows;
    RunnersFramed(s.rows, rows, s.targets, s.pins.Keys, s.lock, s.lock, s.pushes, s.runners);
    PushesFramed(s.rows, rows, s.deployedAs, s.deployedAs, s.pins.Keys, s.pushes);
    LeaseFramed(s.rows, rows, s.targets, s.targets, s.pushes, s.history, s.lock, s.reconciles);
    DeployedFramed(contains, s.rows, rows, s.targets, s.targets, s.deployedAs, s.history);
  }

  lemma RequestCancelKeeps(contains: (Commit, Commit) -> bool, s: State, t: Token)
    requires Inv(contains, s)
    ensures Inv(contains, AfterRequestCancel(s, t))
  {
    var rows := AfterRequestCancel(s, t).rows;
    RunnersFramed(s.rows, rows, s.targets, s.pins.Keys, s.lock, s.lock, s.pushes, s.runners);
    PushesFramed(s.rows, rows, s.deployedAs, s.deployedAs, s.pins.Keys, s.pushes);
    LeaseFramed(s.rows, rows, s.targets, s.targets, s.pushes, s.history, s.lock, s.reconciles);
    DeployedFramed(contains, s.rows, rows, s.targets, s.targets, s.deployedAs, s.history);
  }

  lemma WithdrawKeeps(contains: (Commit, Commit) -> bool, s: State, j: JobId)
    requires Inv(contains, s) && MayWithdraw(s, j)
    ensures Inv(contains, WriteStatus(s, j, Canceled, NoCommit))
  {
    assert RowOk(s.rows[j], s.lock, s.used);
    UnmarkedInNoOpenPush(s, j);
    WriteKeeps(contains, s, j, Canceled);
  }

  lemma ClaimFrames(contains: (Commit, Commit) -> bool, s: State, t: Token, jobs: set<JobId>)
    requires RowsOk(s.rows, t, s.used) && t in s.used && NoneInProgress(s.rows)
    requires RunnersOk(s.rows, s.targets, s.pins.Keys, t, s.pushes, s.runners) && t !in s.runners
    requires forall id <- s.pushes :: id.token != t
    requires PushesOk(s.rows, s.deployedAs, s.pins.Keys, s.pushes)
    requires DeployedContained(contains, s.rows, s.targets, s.deployedAs, s.history)
    requires forall j <- jobs :: j in s.rows && s.rows[j].status in {Queued, Validated}
    ensures RowsOk(ClaimedRows(s.rows, t, jobs), t, s.used)
    ensures RunnersOk(ClaimedRows(s.rows, t, jobs), s.targets, s.pins.Keys, t, s.pushes,
                      s.runners[t := IDLE])
    ensures PushesOk(ClaimedRows(s.rows, t, jobs), s.deployedAs, s.pins.Keys, s.pushes)
    ensures DeployedContained(contains, ClaimedRows(s.rows, t, jobs), s.targets, s.deployedAs, s.history)
  {
    var rows := ClaimedRows(s.rows, t, jobs);
    forall j <- jobs ensures s.rows[j].marker == NoCommit {
      assert RowOk(s.rows[j], t, s.used);
    }
    RunnersFramed(s.rows, rows, s.targets, s.pins.Keys, t, t, s.pushes, s.runners);
    PushesFramed(s.rows, rows, s.deployedAs, s.deployedAs, s.pins.Keys, s.pushes);
    DeployedFramed(contains, s.rows, rows, s.targets, s.targets, s.deployedAs, s.history);
  }

  lemma ClaimKeeps(contains: (Commit, Commit) -> bool, s: State, t: Token, jobs: set<JobId>, expired: bool)
    requires Inv(contains, s) && MayClaim(s, t, jobs, expired)
    ensures Inv(contains, AfterClaim(s, t, jobs))
  {
    SplitFrames(contains, s, t, s.used + {t});
    ClaimFrames(contains, s.(rows := Split(s.rows), lock := t, used := s.used + {t}), t, jobs);
  }

  lemma FinishWorkKeeps(contains: (Commit, Commit) -> bool, s: State, t: Token, j: JobId, status: Status)
    requires Inv(contains, s) && MayFinishWork(s, t, j, status)
    ensures Inv(contains, AfterFinishWork(s, j, status))
  {
    assert RunnerOk(s.rows, s.targets, s.pins.Keys, s.lock, s.pushes, t, s.runners[t]);
    forall id <- s.pushes | s.pushes[id].Open() && j in s.pushes[id].jobs ensures false {
      HeldInCurrentPush(s, t, j, id);
    }
    WriteKeeps(contains, s, j, Honoring(s.rows[j], status));
  }

  lemma RecordMarkerKeeps(contains: (Commit, Commit) -> bool, s: State, t: Token, riders: set<JobId>, sha: Commit,
                          refs: set<Ref>)
    requires Inv(contains, s) && MayRecordMarker(s, t, riders, sha)
    ensures Inv(contains, AfterRecordMarker(s, t, riders, sha, refs))
  {
    var targets := s.targets + (map j <- riders :: refs);
    assert RunnerOk(s.rows, s.targets, s.pins.Keys, s.lock, s.pushes, t, s.runners[t]);
    forall id <- s.pushes, j <- riders | s.pushes[id].Open() ensures j !in s.pushes[id].jobs {
      if j in s.pushes[id].jobs { HeldInCurrentPush(s, t, j, id); }
    }
    RemarkFrames(contains, s, t, riders, sha, targets);
    MarkedRunners(s, t, riders, sha, refs);
  }

  lemma PinKeeps(contains: (Commit, Commit) -> bool, s: State, t: Token, j: JobId)
    requires Inv(contains, s) && AtPc(s, t, Marked)
    ensures Inv(contains, AfterPin(s, t, j))
  {
  }

  lemma GiveUpKeeps(contains: (Commit, Commit) -> bool, s: State, t: Token, outcome: Status)
    requires Inv(contains, s) && (AtPc(s, t, Marked) || AtPc(s, t, Pushing))
    requires outcome == NeedsReconcile || (outcome == Blocked && AtPc(s, t, Marked))
    ensures Inv(contains, WithPc(s, t, Closing(outcome)))
  {
  }

  lemma SeeUnexpectedKeeps(contains: (Commit, Commit) -> bool, s: State, t: Token)
    requires Inv(contains, s) && MaySeeUnexpected(s, t) && NothingInFlight(s, t)
    ensures Inv(contains, WithPc(s, t, Closing(Failed)))
  {
  }

  lemma TakePushLockKeeps(contains: (Commit, Commit) -> bool, s: State, t: Token)
    requires Inv(contains, s) && MayTakePushLock(s, t)
    ensures Inv(contains, WithPc(s, t, Locked))
  {
  }

  lemma CheckLeaseKeeps(contains: (Commit, Commit) -> bool, s: State, t: Token)
    requires Inv(contains, s) && AtPc(s, t, Locked)
    ensures Inv(contains, AfterCheckLease(s, t))
  {
    if s.lock == t { LeaseCheckKeeps(contains, s, t); }
  }

  lemma SeeSuccessKeeps(contains: (Commit, Commit) -> bool, s: State, t: Token)
    requires Inv(contains, s) && MaySeeSuccess(s, t)
    ensures Inv(contains, WithPc(s, t, Closing(Deployed)))
  {
  }

  /** Once its own push is not open, the riders that a runner holds are in no open push. */
  lemma RidersInNoOpenPush(s: State, t: Token)
    requires PushesOk(s.rows, s.deployedAs, s.pins.Keys, s.pushes)
    requires t in s.runners && RunnerOk(s.rows, s.targets, s.pins.Keys, s.lock, s.pushes, t, s.runners[t])
    requires CurrentPush(s, t) in s.pushes && !s.pushes[CurrentPush(s, t)].Open()
    requires forall j <- s.runners[t].riders :: Holds(s.rows, t, j)
    ensures forall id <- s.pushes, j <- s.runners[t].riders :: s.pushes[id].Open() ==> j !in s.pushes[id].jobs
  {
    forall id <- s.pushes, j <- s.runners[t].riders | s.pushes[id].Open() ensures j !in s.pushes[id].jobs {
      if j in s.pushes[id].jobs { HeldInCurrentPush(s, t, j, id); }
    }
  }

  lemma RejectedRunners(s: State, t: Token, outcome: Status)
    requires MaySeeRejection(s, t, outcome)
    requires RunnerOk(s.rows, s.targets, s.pins.Keys, s.lock, s.pushes, t, s.runners[t])
    requires forall t' <- s.runners :: t' != t ==>
      RunnerOk(AfterRejection(s, t, outcome).rows, s.targets, s.pins.Keys, s.lock, s.pushes, t', s.runners[t'])
    ensures
      var after := AfterRejection(s, t, outcome);
      RunnersOk(after.rows, s.targets, s.pins.Keys, s.lock, s.pushes, after.runners)
  {
  }

  lemma SeeRejectionKeeps(contains: (Commit, Commit) -> bool, s: State, t: Token, outcome: Status)
    requires Inv(contains, s) && MaySeeRejection(s, t, outcome)
    ensures Inv(contains, AfterRejection(s, t, outcome))
  {
    RidersInNoOpenPush(s, t);
    RemarkFrames(contains, s, t, s.runners[t].riders, NoCommit, s.targets);
    RejectedRunners(s, t, outcome);
  }

  lemma CloseKeeps(contains: (Commit, Commit) -> bool, s: State, t: Token, j: JobId)
    requires Inv(contains, s) && MayClose(s, t, j) && (forall c :: contains(c, c))
    ensures Inv(contains, AfterClose(s, t, j))
  {
    var r := s.runners[t];
    assert RunnerOk(s.rows, s.targets, s.pins.Keys, s.lock, s.pushes, t, r);
    forall id <- s.pushes | s.pushes[id].Open() && j in s.pushes[id].jobs
      ensures id == CurrentPush(s, t) && s.rows[j].marker == s.pushes[id].sha
    {
      HeldInOpenPush(s, t, j, id);
      HeldInCurrentPush(s, t, j, id);
    }
    if r.pc.outcome == Deployed {
      DeployKeeps(contains, s, j, r.sha);
    } else {
      WriteKeeps(contains, s, j, Honoring(s.rows[j], r.pc.outcome));
    }
  }

  /** The jobs that the runner still holds carry no marker and are in no open push. */
  lemma NextTrainKeeps(contains: (Commit, Commit) -> bool, s: State, t: Token)
    requires Inv(contains, s) && MayTakeNextTrain(s, t)
    ensures Inv(contains, AfterNextTrain(s, t))
  {
    var runners := AfterNextTrain(s, t).runners;
    forall t' <- runners ensures RunnerOk(s.rows, s.targets, s.pins.Keys, s.lock, s.pushes, t', runners[t']) {
      assert RunnerOk(s.rows, s.targets, s.pins.Keys, s.lock, s.pushes, t', s.runners[t']);
    }
  }

  lemma LeaveKeeps(contains: (Commit, Commit) -> bool, s: State, t: Token)
    requires Inv(contains, s) && t in s.runners
    ensures Inv(contains, AfterLeave(s, t))
  {
  }

  lemma CrashKeeps(contains: (Commit, Commit) -> bool, s: State, t: Token)
    requires Inv(contains, s)
    ensures Inv(contains, AfterCrash(s, t))
  {
  }

  lemma LandKeeps(contains: (Commit, Commit) -> bool, s: State, id: PushId)
    requires Inv(contains, s) && id in s.pushes && s.pushes[id].running
    ensures Inv(contains, AfterLand(s, id))
  {
    PushAdvances(s, id, s.pushes[id].(landed := true), AfterLand(s, id).history);
  }

  lemma PushExitsKeeps(contains: (Commit, Commit) -> bool, s: State, id: PushId)
    requires Inv(contains, s) && id in s.pushes
    ensures Inv(contains, AfterPushExits(s, id))
  {
    var p := s.pushes[id].(running := false);
    PushAdvances(s, id, p, s.history);
    RemoteStays(s, id, p);
  }

  lemma RemoteStays(s: State, id: PushId, p: Push)
    requires id in s.pushes && RemoteOk(s.tips, s.audit, s.history, s.pushes)
    requires p.sha == s.pushes[id].sha && p.refs == s.pushes[id].refs && p.landed == s.pushes[id].landed
    ensures RemoteOk(s.tips, s.audit, s.history, s.pushes[id := p])
  {
  }

  lemma OthersPushKeeps(contains: (Commit, Commit) -> bool, s: State, ref: Ref, tip: Tip)
    requires Inv(contains, s)
    ensures Inv(contains, AfterOthersPush(s, ref, tip))
  {
  }

  lemma DropPinKeeps(contains: (Commit, Commit) -> bool, s: State, j: JobId)
    requires Inv(contains, s) && MayDropPin(s, j)
    ensures Inv(contains, AfterDropPin(s, j))
  {
  }

  lemma ForceUnlockKeeps(contains: (Commit, Commit) -> bool, s: State)
    requires Inv(contains, s)
    ensures Inv(contains, AfterForceUnlock(s))
  {
    SplitFrames(contains, s, "", s.used);
  }

  lemma AcquireKeeps(contains: (Commit, Commit) -> bool, s: State, t: Token, expired: bool)
    requires Inv(contains, s) && t != "" && t !in s.used && CanTake(s, expired)
    ensures Inv(contains, AfterAcquire(s, t))
  {
    SplitFrames(contains, s, t, s.used + {t});
  }

  lemma SelectKeeps(contains: (Commit, Commit) -> bool, s: State, t: Token)
    requires Inv(contains, s) && t in s.reconciles && !s.reconciles[t].selected
    ensures Inv(contains, AfterSelect(s, t))
  {
  }

  lemma CheckFlightKeeps(contains: (Commit, Commit) -> bool, s: State, t: Token, j: JobId)
    requires Inv(contains, s) && MayCheckFlight(s, t, j)
    ensures Inv(contains, AfterCheckFlight(s, t, j))
  {
  }

  lemma ReadRefKeeps(contains: (Commit, Commit) -> bool, s: State, t: Token, ref: Ref)
    requires Inv(contains, s) && MayRead(s, t)
    ensures Inv(contains, AfterReadRef(s, t, ref))
  {
  }

  lemma ReadAuditKeeps(contains: (Commit, Commit) -> bool, s: State, t: Token, sha: Commit)
    requires Inv(contains, s) && MayRead(s, t)
    ensures Inv(contains, AfterReadAudit(s, t, sha))
  {
  }

  lemma ApplyKeeps(contains: (Commit, Commit) -> bool, s: State, t: Token, j: JobId, resolvable: bool,
                   unknown: set<Ref>)
    requires Inv(contains, s) && MayApply(s, t, j, resolvable) && s.lock == t
    ensures Inv(contains, AfterApply(contains, s, t, j, resolvable, unknown))
  {
    var r := s.reconciles[t];
    var settled := WithReconcile(s, t, r.(jobs := r.jobs - {j}));
    SettledKeeps(contains, s, t, j);
    var decision := DecisionAt(contains, s, t, j, resolvable, unknown);
    DecisionIsSound(contains, s, t, j, resolvable, unknown);
    match decision
    case DecideDeployed => DeployKeeps(contains, settled, j, r.jobs[j].sha);
    case DecideQueued => WriteKeeps(contains, settled, j, Queued);
    case DecideCanceled => WriteKeeps(contains, settled, j, Canceled);
    case DecideBlocked =>
      if r.jobs[j].status != Blocked { WriteKeeps(contains, settled, j, Blocked); }
  }

  lemma EndReconcileKeeps(contains: (Commit, Commit) -> bool, s: State, t: Token)
    requires Inv(contains, s) && t in s.reconciles
    ensures Inv(contains, AfterEndReconcile(s, t))
  {
  }

  // ------------------------------------------------------------------ every run

  lemma InitInv(contains: (Commit, Commit) -> bool, s: State)
    requires Init(s)
    ensures Inv(contains, s)
  {
  }

  lemma WorldStepKeeps(contains: (Commit, Commit) -> bool, s: State, step: Step)
    requires Inv(contains, s) && IsWorldStep(step) && WorldEnabled(s, step)
    ensures Inv(contains, WorldNext(s, step))
  {
    match step
    case Enqueue(j) => EnqueueKeeps(contains, s, j);
    case RequestCancel(t) => RequestCancelKeeps(contains, s, t);
    case Withdraw(j) => WithdrawKeeps(contains, s, j);
    case Leave(t) => LeaveKeeps(contains, s, t);
    case Crash(t) => CrashKeeps(contains, s, t);
    case Land(id) => LandKeeps(contains, s, id);
    case PushExits(id) => PushExitsKeeps(contains, s, id);
    case OthersPush(ref, tip) => OthersPushKeeps(contains, s, ref, tip);
    case DropPin(j) => DropPinKeeps(contains, s, j);
    case ForceUnlock => ForceUnlockKeeps(contains, s);
  }

  lemma TrainStepKeeps(contains: (Commit, Commit) -> bool, s: State, step: Step)
    requires Inv(contains, s) && IsTrainStep(step) && TrainEnabled(s, step)
    ensures Inv(contains, TrainNext(s, step))
  {
    match step
    case Claim(t, jobs, expired) => ClaimKeeps(contains, s, t, jobs, expired);
    case FinishWork(t, j, status) => FinishWorkKeeps(contains, s, t, j, status);
    case RecordMarker(t, riders, sha, refs) => RecordMarkerKeeps(contains, s, t, riders, sha, refs);
    case Pin(t, j) => PinKeeps(contains, s, t, j);
  }

  lemma PushStepKeeps(contains: (Commit, Commit) -> bool, s: State, step: Step)
    requires Inv(contains, s) && IsPushStep(step) && PushEnabled(s, step)
    ensures Inv(contains, PushNext(s, step))
  {
    match step
    case PinFailed(t) => GiveUpKeeps(contains, s, t, Blocked);
    case TakePushLock(t) => TakePushLockKeeps(contains, s, t);
    case PushLockBusy(t) => GiveUpKeeps(contains, s, t, NeedsReconcile);
    case CheckLease(t) => CheckLeaseKeeps(contains, s, t);
  }

  lemma OutcomeStepKeeps(contains: (Commit, Commit) -> bool, s: State, step: Step)
    requires Inv(contains, s) && IsOutcomeStep(step) && OutcomeEnabled(s, step) && Calm(s, step)
    ensures Inv(contains, OutcomeNext(s, step))
  {
    match step
    case SeeSuccess(t) => SeeSuccessKeeps(contains, s, t);
    case SeeRejection(t, outcome) => SeeRejectionKeeps(contains, s, t, outcome);
    case SeeUnclear(t) => GiveUpKeeps(contains, s, t, NeedsReconcile);
    case SeeUnexpected(t) => SeeUnexpectedKeeps(contains, s, t);
  }

  lemma EndStepKeeps(contains: (Commit, Commit) -> bool, s: State, step: Step)
    requires Inv(contains, s) && IsEndStep(step) && EndEnabled(s, step)
    requires forall c :: contains(c, c)
    ensures Inv(contains, EndNext(s, step))
  {
    match step
    case Close(t, j) => CloseKeeps(contains, s, t, j);
    case NextTrain(t) => NextTrainKeeps(contains, s, t);
  }

  lemma RecoveryStepKeeps(contains: (Commit, Commit) -> bool, s: State, step: Step)
    requires Inv(contains, s) && IsRecoveryStep(step) && RecoveryEnabled(s, step) && Fenced(s, step)
    ensures Inv(contains, RecoveryNext(contains, s, step))
  {
    match step
    case Acquire(t, expired) => AcquireKeeps(contains, s, t, expired);
    case Select(t) => SelectKeeps(contains, s, t);
    case CheckFlight(t, j) => CheckFlightKeeps(contains, s, t, j);
    case ReadRef(t, ref) => ReadRefKeeps(contains, s, t, ref);
    case ReadAudit(t, sha) => ReadAuditKeeps(contains, s, t, sha);
    case Apply(t, j, resolvable, unknown) => ApplyKeeps(contains, s, t, j, resolvable, unknown);
    case EndReconcile(t) => EndReconcileKeeps(contains, s, t);
  }

  lemma StepKeeps(contains: (Commit, Commit) -> bool, s: State, step: Step)
    requires Inv(contains, s) && Enabled(s, step) && Guarded(s, step) && (forall c :: contains(c, c))
    ensures Inv(contains, Next(contains, s, step))
  {
    if IsWorldStep(step) {
      WorldStepKeeps(contains, s, step);
    } else if IsTrainStep(step) {
      TrainStepKeeps(contains, s, step);
    } else if IsPushStep(step) {
      PushStepKeeps(contains, s, step);
    } else if IsOutcomeStep(step) {
      OutcomeStepKeeps(contains, s, step);
    } else if IsEndStep(step) {
      EndStepKeeps(contains, s, step);
    } else {
      RecoveryStepKeeps(contains, s, step);
    }
  }

  lemma {:induction false} RunKeeps(contains: (Commit, Commit) -> bool, s: State, steps: seq<Step>, end: State)
    requires Inv(contains, s) && Runs(contains, s, steps, end) && AllGuarded(contains, s, steps, end)
    requires forall c :: contains(c, c)
    ensures Inv(contains, end)
    decreases |steps|
  {
    if steps != [] {
      StepKeeps(contains, s, steps[0]);
      RunKeeps(contains, Next(contains, s, steps[0]), steps[1..], end);
    }
  }

  /** Exactly once, after every guarded run: a landed push is recorded or still marked, no job
      ships twice, and deployed means that every push ref has held the commit. */
  lemma ExactlyOnce(contains: (Commit, Commit) -> bool, s: State, steps: seq<Step>, end: State)
    requires Init(s) && Runs(contains, s, steps, end) && AllGuarded(contains, s, steps, end)
    requires forall c :: contains(c, c)
    ensures Covered(end)
    ensures ShippedOnce(end)
    ensures DeployedContained(contains, end.rows, end.targets, end.deployedAs, end.history)
  {
    InitInv(contains, s);
    RunKeeps(contains, s, steps, end);
    forall id <- end.pushes, j <- end.pushes[id].jobs | end.pushes[id].landed
      ensures CoveredBy(end, j, end.pushes[id].sha)
    {
      assert PushOk(end.rows, end.deployedAs, end.pins.Keys, id, end.pushes[id]);
      assert OpenJobOk(end.rows, end.deployedAs, end.pins.Keys, id.token, end.pushes[id], j);
    }
  }

  /** Reconcile never requeues or cancels a job whose push has landed. It records the job
      deployed exactly when every recorded ref is seen to contain the commit, and otherwise
      blocks it. */
  lemma ReconcileRespectsLanding(contains: (Commit, Commit) -> bool, s0: State, steps: seq<Step>, s: State,
                                 t: Token, j: JobId, resolvable: bool, unknown: set<Ref>, push: PushId)
    requires Init(s0) && Runs(contains, s0, steps, s) && AllGuarded(contains, s0, steps, s)
    requires forall c :: contains(c, c)
    requires MayApply(s, t, j, resolvable) && s.lock == t
    requires push in s.pushes && s.pushes[push].landed && j in s.pushes[push].jobs
    ensures DecisionAt(contains, s, t, j, resolvable, unknown) in {DecideDeployed, DecideBlocked}
    ensures
      var r := s.reconciles[t];
      DecisionAt(contains, s, t, j, resolvable, unknown) == DecideDeployed <==>
      r.jobs[j].refs != {} && forall ref <- r.jobs[j].refs ::
        r.seen[ref].Tip? && ref !in unknown && contains(r.seen[ref].commit, s.pushes[push].sha)
  {
    InitInv(contains, s0);
    RunKeeps(contains, s0, steps, s);
    DecisionIsSound(contains, s, t, j, resolvable, unknown);
    assert PushOk(s.rows, s.deployedAs, s.pins.Keys, push, s.pushes[push]);
    assert OpenJobOk(s.rows, s.deployedAs, s.pins.Keys, push.token, s.pushes[push], j);
    var r := s.reconciles[t];
    AnswersAllYes(contains, r, r.jobs[j], unknown);
  }

  function Answers(contains: (Commit, Commit) -> bool, r: Reconcile, snap: Snap, unknown: set<Ref>): set<Ancestor>
    requires ReadFor(r, snap)
  {
    set ref <- snap.refs :: AnswerOf(contains, r.seen[ref], snap.sha, ref in unknown)
  }

  lemma AnswersAllYes(contains: (Commit, Commit) -> bool, r: Reconcile, snap: Snap, unknown: set<Ref>)
    requires ReadFor(r, snap)
    ensures Answers(contains, r, snap, unknown) == {Yes} <==>
      snap.refs != {} && forall ref <- snap.refs ::
        r.seen[ref].Tip? && ref !in unknown && contains(r.seen[ref].commit, snap.sha)
  {
    var answers := Answers(contains, r, snap, unknown);
    if answers == {Yes} {
      assert Yes in answers;
      forall ref <- snap.refs ensures AnswerOf(contains, r.seen[ref], snap.sha, ref in unknown) == Yes {
        assert AnswerOf(contains, r.seen[ref], snap.sha, ref in unknown) in answers;
      }
    } else if ref :| ref in snap.refs {
      assert AnswerOf(contains, r.seen[ref], snap.sha, ref in unknown) in answers;
    }
  }

  /** A decision of any reconcile, in any state, leaves a landed push covered exactly when the
      row has left the status it was read in, or the decision is blocked, or it is deployed
      as the very commit that landed. */
  lemma ApplyKeepsCoverageExactlyWhen(contains: (Commit, Commit) -> bool, s: State, t: Token, j: JobId,
                                      resolvable: bool, unknown: set<Ref>, push: PushId)
    requires MayApply(s, t, j, resolvable) && s.reconciles[t].jobs[j].status in {NeedsReconcile, Blocked}
    requires push in s.pushes && s.pushes[push].landed && j in s.pushes[push].jobs
    requires CoveredBy(s, j, s.pushes[push].sha)
    ensures
      var snap := s.reconciles[t].jobs[j];
      var decision := DecisionAt(contains, s, t, j, resolvable, unknown);
      CoveredBy(AfterApply(contains, s, t, j, resolvable, unknown), j, s.pushes[push].sha) <==>
      || s.rows[j].status != snap.status
      || decision == DecideBlocked
      || (decision == DecideDeployed && snap.sha == s.pushes[push].sha)
  {
  }

  /** Whatever takes the lock from a stopped runner, or clears it, leaves each of its claims as
      it must be, and takes for a new claim only what is free. */
  lemma TakeoverRecoversClaims(s: State, t: Token, jobs: set<JobId>, expired: bool, j: JobId)
    requires j in s.rows
    ensures j in AfterForceUnlock(s).rows && Recovered(s.rows[j], AfterForceUnlock(s).rows[j])
    ensures j in AfterAcquire(s, t).rows && Recovered(s.rows[j], AfterAcquire(s, t).rows[j])
    ensures j !in jobs ==> j in AfterClaim(s, t, jobs).rows && Recovered(s.rows[j], AfterClaim(s, t, jobs).rows[j])
    ensures MayClaim(s, t, jobs, expired) && j in jobs ==>
      var before, after := s.rows[j], AfterClaim(s, t, jobs).rows[j];
      && (before.status in {Queued, Validated}
          || (before.status == InProgress && before.marker == NoCommit && !before.cancelRequested))
      && after.status == InProgress && after.token == t && !after.cancelRequested && after.marker == before.marker
      && after.train == if before.status == InProgress then NoTrain else before.train
  {
    SplitRecovers(s.rows[j]);
  }

  /** The job's row records what this push has landed or may still land. */
  predicate PushIsRecorded(s: State, id: PushId, j: JobId) {
    id in s.pushes ==>
      && (s.pushes[id].landed ==> CoveredBy(s, j, s.pushes[id].sha))
      && (WorldEnabled(s, Land(id)) ==> CoveredBy(AfterLand(s, id), j, s.pushes[id].sha))
  }

  /** After an unexpected error the row of a job records its push, now and should it land later,
      if and only if nothing was in flight when the error was raised. */
  lemma UnexpectedErrorIsHarmlessExactlyWhen(contains: (Commit, Commit) -> bool, s: State, t: Token, j: JobId)
    requires Inv(contains, s) && MaySeeUnexpected(s, t) && j in s.runners[t].riders && Holds(s.rows, t, j)
    ensures PushIsRecorded(AfterClose(WithPc(s, t, Closing(Failed)), t, j), CurrentPush(s, t), j) <==>
            NothingInFlight(s, t)
  {
    assert RunnerOk(s.rows, s.targets, s.pins.Keys, s.lock, s.pushes, t, s.runners[t]);
  }
}
