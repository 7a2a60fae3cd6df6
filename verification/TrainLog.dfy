/**
  What a train runner does that others can see, as a log of events in the order they happen,
  and what is promised of it (`git_runner.py`). The events of Git say what the command did to
  the worktree, so that the log replayed gives the tip that the worktree is at.
 */
module TrainLog {
  import opened Git
  import opened JobTable
  import Bisect

  /** The job record as claimed. */
  datatype Job = Job(
    id: JobId,
    head: Commit,
    validatedHead: Commit,
    train: Train,
    trainSize: nat,
    validationSha: Commit)

  datatype Exc =
    | NoExc | LostLease | Canceling | AlreadyLanded | Ambiguous | Busy | CommandFailed | Refused | Unexpected

  /** The only exceptions that leave the runner: a lost lease and a busy queue. */
  predicate Leaves(exc: Exc) { exc.NoExc? || exc.LostLease? || exc.Busy? }

  /** What a step other than a push may raise. */
  predicate Raisable(exc: Exc) { !exc.Ambiguous? && !exc.AlreadyLanded? }

  /** A dirty merge has committed and left the worktree dirty. A merge that failed has left
      HEAD alone, unless it was stopped after it had committed. */
  datatype MergeOutcome = CleanMerge | DirtyMerge | FailedInPlace | FailedAfterCommit

  /** How the push command ended: everything landed, the remote refused it, or neither is known. */
  datatype PushEnd = Accepted | Rejected | Unclear

  /** How one run of a train's gates ends: what it raises, and where it leaves HEAD and the tree. */
  datatype GateRun = GateRun(raised: Exc, head: Commit, clean: bool)

  /** What the outside world answers. Merges, gate runs and pushes are numbered together in the
      order in which they end, and bisects on their own. */
  datatype Outside = Outside(
    bisects: nat -> Bisect.World, merges: nat -> MergeOutcome, gates: nat -> GateRun, pushes: nat -> PushEnd)

  datatype Event =
    // the worktree of a train
    | BaseTaken(base: Commit)
    | MergeRan(job: Job, task: Commit, outcome: MergeOutcome)
    | WorktreeReset(to: Commit)
    | GatesRan(on: Commit, raised: Exc, headAfter: Commit, cleanAfter: bool)
    // what the world answers: a branch that moved, and how a bisect ends
    | HeadMoved(id: JobId)
    | BisectRaised(exc: Exc)
    | Isolated(bisect: nat, train: seq<JobId>, singles: seq<JobId>, conflictSets: seq<seq<JobId>>)
    | BisectGaveUp(bisect: nat, train: seq<JobId>)
    // decisions
    | ReuseAccepted(sha: Commit)
    | Stopped(exc: Exc, jobs: seq<JobId>, rest: seq<JobId>)
    | TurnTaken(id: JobId)
    | RestReturned
    | IsolationEnded
    // the remote and the queue
    | MarkersWritten(jobs: seq<JobId>, sha: Commit)
    | PinsWritten(jobs: seq<JobId>, sha: Commit)
    | PushLockTaken(sha: Commit)
    | PushLockBusy(sha: Commit)
    | LeaseSeen(mine: bool)
    | PushStarted(sha: Commit, riders: seq<Job>, pins: seq<Commit>, reused: bool)
    | PushEnded(end: PushEnd)
    | PushLanded(jobs: seq<JobId>)
    | Wrote(id: JobId, status: Status, asked: bool)

  // ---------------------------------------------------------------- the world's answers

  predicate Asks(e: Event) { e.MergeRan? || e.GatesRan? || e.PushEnded? }

  /** How many answers the log has. */
  function Asked(log: seq<Event>): nat
    decreases |log|, 1
  {
    if log == [] then 0 else LastAsked(log)
  }

  function LastAsked(log: seq<Event>): nat
    requires log != []
    decreases |log|, 0
  {
    Asked(log[..|log| - 1]) + if Asks(log[|log| - 1]) then 1 else 0
  }

  /** The event is the world's answer number `n`, if it is an answer. A gate run raises what
      any step may raise. */
  predicate AsAnswered(outside: Outside, n: nat, e: Event) {
    match e
    case MergeRan(_, _, outcome) => outcome == outside.merges(n)
    case GatesRan(_, raised, head, clean) => GateRun(raised, head, clean) == GateAnswer(outside, n)
    case PushEnded(end) => end == outside.pushes(n)
    case _ => true
  }

  function GateAnswer(outside: Outside, n: nat): GateRun {
    var run := outside.gates(n);
    if Raisable(run.raised) then run else run.(raised := Unexpected)
  }

  // ---------------------------------------------------------------- the worktree, replayed

  /** The worktree of the last train: its base, its tip, the jobs whose merges were clean with
      the commits merged for them, how many merges failed and moved HEAD all the same, and
      whether the gates passed over the tip and left it and a clean tree. */
  datatype Assembly = Assembly(
    base: Commit, head: Commit, merged: seq<Job>, tasks: seq<Commit>, strays: nat, gated: bool)

  const NOTHING := Assembly(NoCommit, NoCommit, [], [], 0, false)

  function Replayed(a: Assembly, e: Event): Assembly {
    if e.BaseTaken? then NOTHING.(base := e.base, head := e.base)
    else if e.MergeRan? then AfterMerge(a, e.job, e.task, e.outcome)
    else if e.WorktreeReset? then a.(head := e.to, gated := false)
    else if e.GatesRan? then
      a.(head := e.headAfter, gated := e.raised == NoExc && e.on == a.head == e.headAfter && e.cleanAfter)
    else a
  }

  function AfterMerge(a: Assembly, job: Job, task: Commit, outcome: MergeOutcome): Assembly {
    var moved := a.(gated := false, head := Merged(a.head, task));
    match outcome
    case CleanMerge => moved.(merged := a.merged + [job], tasks := a.tasks + [task])
    case DirtyMerge => moved
    case FailedInPlace => a.(gated := false)
    case FailedAfterCommit => moved.(strays := a.strays + 1)
  }

  /** Every merge that moved HEAD for good is in the tip. */
  ghost predicate Straight(base: Commit, tip: Commit, tasks: seq<Commit>, strays: nat) {
    Size(tip) == Size(base) + |tasks| + strays && (strays == 0 ==> tip == Fold(base, tasks))
  }

  lemma StraightMerge(a: Assembly, job: Job, task: Commit, outcome: MergeOutcome)
    requires Straight(a.base, a.head, a.tasks, a.strays) && !outcome.DirtyMerge?
    ensures var b := AfterMerge(a, job, task, outcome); Straight(b.base, b.head, b.tasks, b.strays)
  {
    FoldAppend(a.base, a.tasks, task);
  }

  /** The tip is the base with exactly the clean merges if and only if no merge strayed. */
  lemma StraightIsFold(base: Commit, tip: Commit, tasks: seq<Commit>, strays: nat)
    requires Straight(base, tip, tasks, strays)
    ensures tip == Fold(base, tasks) <==> strays == 0
  {
    FoldSize(base, tasks);
  }

  function Ids(jobs: seq<Job>): (ids: seq<JobId>)
    ensures |ids| == |jobs| && forall i | 0 <= i < |jobs| :: ids[i] == jobs[i].id
  {
    seq(|jobs|, i requires 0 <= i < |jobs| => jobs[i].id)
  }

  // ---------------------------------------------------------------- what may be pushed

  /** The commit a job was recorded with, at enqueue or at validation. */
  function Expected(job: Job, validated: bool): Commit {
    if validated then job.validatedHead else job.head
  }

  /** A deploy of this batch is a deploy of a validated train. */
  predicate DeploysValidated(batch: seq<Job>) {
    exists j <- batch :: j.train != NoTrain
  }

  /** The jobs were validated as this commit: some job says so, and none says otherwise. */
  predicate ValidatedAs(jobs: seq<Job>, sha: Commit) {
    && sha != NoCommit && (exists j <- jobs :: j.validationSha == sha)
    && forall j <- jobs :: j.validationSha == sha || j.validationSha == NoCommit
  }

  /** The chosen jobs are some of the first `k` claimed jobs, in their order. */
  predicate InClaimOrder(chosen: seq<Job>, claimed: seq<Job>, k: nat)
    requires k <= |claimed|
    decreases k, 1
  {
    chosen == [] || (k > 0 && EndsInClaimOrder(chosen, claimed, k))
  }

  predicate EndsInClaimOrder(chosen: seq<Job>, claimed: seq<Job>, k: nat)
    requires chosen != [] && 0 < k <= |claimed|
    decreases k, 0
  {
    var last := |chosen| - 1;
    if chosen[last] == claimed[k - 1] then InClaimOrder(chosen[..last], claimed, k - 1)
    else InClaimOrder(chosen, claimed, k - 1)
  }

  /** Jobs of the batch in claim order and, of a validated train, all of them. */
  predicate Part(batch: seq<Job>, jobs: seq<Job>, deploy: bool) {
    && InClaimOrder(jobs, batch, |batch|)
    && (deploy && DeploysValidated(batch) ==> jobs == batch)
  }

  /** Every job is pinned at the commit it was recorded with, if it was. */
  predicate AtRecordedCommits(jobs: seq<Job>, pins: seq<Commit>, validated: bool) {
    && |pins| == |jobs|
    && forall i | 0 <= i < |jobs| ::
         Expected(jobs[i], validated) != NoCommit ==> pins[i] == Expected(jobs[i], validated)
  }

  // ---------------------------------------------------------------- the log, told event by event

  /** The jobs of a train that is isolated job by job and that have not had their turn, or that
      are being returned to the queue since this place in the log. */
  datatype Line = NoLine | Turns(rest: seq<JobId>) | Returning(rest: seq<JobId>, since: nat)

  /** The line after the event at place `n`. */
  function LineAfter(line: Line, n: nat, e: Event): Line {
    if e.BisectGaveUp? then Turns(e.train)
    else if e.TurnTaken? && line.Turns? && line.rest != [] then Turns(line.rest[1..])
    else if e.RestReturned? && line.Turns? then Returning(line.rest, n + 1)
    else if e.IsolationEnded? then NoLine
    else line
  }

  function LineOf(log: seq<Event>): Line
    decreases |log|, 1
  {
    if log == [] then NoLine else LastLine(log)
  }

  function LastLine(log: seq<Event>): Line
    requires log != []
    decreases |log|, 0
  {
    var n := |log| - 1;
    LineAfter(LineOf(log[..n]), n, log[n])
  }

  /** What the last event calls for: that a failed gate run is answered, that a push of unclear
      outcome stops its train, or that an accepted push is recorded as landed. */
  datatype Owed = Nothing | FailedGates | OpenPush | LandedPush

  function OwedBy(e: Event): Owed {
    if e.GatesRan? && e.raised == CommandFailed then FailedGates
    else if e.PushLockBusy? || e == PushEnded(Unclear) then OpenPush
    else if e == PushEnded(Accepted) then LandedPush
    else Nothing
  }

  /** What the log so far comes to: the last train's worktree, the jobs of pushes that were
      seen to land, the jobs for whose failure, block, park, cancel or return to the queue there
      is a reason, the commits accepted for reuse, the number of pushes, the jobs of the last
      push if it was not seen to land, what the last event calls for, whether a job was parked,
      and the bisects that ended and of which train each was. */
  datatype Story = Story(
    tree: Assembly, landed: set<JobId>, doomed: set<JobId>, blamed: set<JobId>, unsure: set<JobId>,
    canceled: set<JobId>, freed: set<JobId>, accepted: set<Commit>, pushes: nat, flying: seq<JobId>,
    owed: Owed, parked: bool, bisected: set<(nat, seq<JobId>)>)

  const UNTOLD := Story(NOTHING, {}, {}, {}, {}, {}, {}, {}, 0, [], Nothing, false, {})

  function IdsIn(ids: seq<JobId>): set<JobId> { set id | id in ids }

  /** The jobs for whose failure this is a reason: those that a bisect found to fail alone,
      and those of a train that a failed command or an unexpected error stopped. */
  function DoomedBy(e: Event): set<JobId> {
    if e.Isolated? then IdsIn(e.singles)
    else if e.Stopped? && (e.exc.CommandFailed? || e.exc.Unexpected?) then IdsIn(e.jobs)
    else {}
  }

  /** The jobs for which this is a reason to be blocked: the branch moved, the merge was not
      clean, a bisect found a conflict, or something was refused to the train. */
  function BlamedBy(e: Event): set<JobId> {
    if e.HeadMoved? then {e.id}
    else if e.MergeRan? && !e.outcome.CleanMerge? then {e.job.id}
    else if e.Isolated? then IdsIn(Bisect.Flatten(e.conflictSets))
    else if e.Stopped? && e.exc == Refused then IdsIn(e.jobs)
    else {}
  }

  /** The jobs whose push may or may not have landed. */
  function UnsureBy(e: Event): set<JobId> {
    if e.Stopped? && e.exc == Ambiguous then IdsIn(e.jobs) else {}
  }

  /** The jobs that a cancel request stopped. */
  function CanceledBy(e: Event): set<JobId> {
    if e.Stopped? && e.exc == Canceling then IdsIn(e.jobs) + IdsIn(e.rest) else {}
  }

  /** The jobs that go back to the queue: those that a stopped train never reached, and all of
      a train whose commit the remote already has. */
  function FreedBy(e: Event): set<JobId> {
    if !e.Stopped? then {}
    else if e.exc == AlreadyLanded then IdsIn(e.jobs) + IdsIn(e.rest)
    else IdsIn(e.rest)
  }

  function LandedBy(e: Event): set<JobId> {
    if e.PushLanded? then IdsIn(e.jobs) else {}
  }

  /** The bisect that ended, by its number, and its train. */
  function BisectedBy(e: Event): set<(nat, seq<JobId>)> {
    if e.Isolated? || e.BisectGaveUp? then {(e.bisect, e.train)} else {}
  }

  predicate IsPark(e: Event) { e.Wrote? && e.status == NeedsReconcile }

  function Told(s: Story, e: Event): Story {
    Story(
      Replayed(s.tree, e),
      s.landed + LandedBy(e),
      s.doomed + DoomedBy(e),
      s.blamed + BlamedBy(e),
      s.unsure + UnsureBy(e),
      s.canceled + CanceledBy(e),
      s.freed + FreedBy(e),
      if e.ReuseAccepted? then s.accepted + {e.sha} else s.accepted,
      if e.PushStarted? then s.pushes + 1 else s.pushes,
      if e.PushStarted? then Ids(e.riders) else if e.PushLanded? then [] else s.flying,
      OwedBy(e),
      s.parked || IsPark(e),
      s.bisected + BisectedBy(e))
  }

  function StoryOf(log: seq<Event>): Story
    decreases |log|, 1
  {
    if log == [] then UNTOLD else LastTold(log)
  }

  function LastTold(log: seq<Event>): Story
    requires log != []
    decreases |log|, 0
  {
    Told(StoryOf(log[..|log| - 1]), log[|log| - 1])
  }

  /** What a push of this batch must be. Its commit is the worktree's tip, over which the
      gates passed last. Its jobs are a part of the batch at their recorded commits. A reused
      commit is the one the whole train was validated as, and reuse was accepted for it. Any
      other is what the merges of these jobs made of the base: exactly their commits in order
      if and only if no merge that reported a failure had moved HEAD all the same. */
  predicate SoundPush(batch: seq<Job>, s: Story, e: Event)
    requires e.PushStarted?
  {
    && s.tree.gated && e.sha == s.tree.head
    && Part(batch, e.riders, true) && AtRecordedCommits(e.riders, e.pins, DeploysValidated(batch))
    && if e.reused then DeploysValidated(batch) && ValidatedAs(batch, e.sha) && e.sha in s.accepted
       else
         && e.riders == s.tree.merged && e.pins == s.tree.tasks
         && (e.sha == Fold(s.tree.base, e.pins) <==> s.tree.strays == 0)
  }

  /** Jobs that fail alone, and sets of jobs that fail together and of which each is needed; the
      train's failure was followed into each half that fails. */
  ghost predicate SoundBlame(
    world: Bisect.World, train: seq<JobId>, singles: seq<JobId>, conflictSets: seq<seq<JobId>>)
  {
    && Bisect.Attributed(world, train, singles, conflictSets) && Bisect.Minimized(world, train, conflictSets)
    && Bisect.Followed(world, train, singles, conflictSets)
  }

  /** A bisect gives up when the failure did not reproduce or a merge conflicted. */
  ghost predicate SoundAbort(world: Bisect.World, train: seq<JobId>) {
    || Bisect.VerdictOf(world, train, Bisect.Members(train)) == Bisect.Passes
    || exists part :: part <= Bisect.Members(train) && Bisect.VerdictOf(world, train, part) == Bisect.Conflicts
  }

  /** A validated train is deployed whole or not at all. */
  predicate ShipsWhole(batch: seq<Job>, deploy: bool) { deploy && DeploysValidated(batch) }

  /** Right before a push its jobs were marked and pinned with its commit, its push lock was
      taken, and the lease was seen to be still held. */
  predicate ArmedBy(log: seq<Event>, jobs: seq<JobId>, sha: Commit) {
    |log| > 0 && log[|log| - 1] == LeaseSeen(true) && LockedBy(log[..|log| - 1], jobs, sha)
  }

  predicate LockedBy(log: seq<Event>, jobs: seq<JobId>, sha: Commit) {
    |log| > 0 && log[|log| - 1] == PushLockTaken(sha) && PinnedBy(log[..|log| - 1], jobs, sha)
  }

  predicate PinnedBy(log: seq<Event>, jobs: seq<JobId>, sha: Commit) {
    |log| > 0 && log[|log| - 1] == PinsWritten(jobs, sha) && MarkedBy(log[..|log| - 1], jobs, sha)
  }

  predicate MarkedBy(log: seq<Event>, jobs: seq<JobId>, sha: Commit) {
    |log| > 0 && log[|log| - 1] == MarkersWritten(jobs, sha)
  }

  /** What a log comes to, all in all. */
  datatype Tale = Tale(story: Story, line: Line)

  function TaleOf(log: seq<Event>): Tale {
    Tale(StoryOf(log), LineOf(log))
  }

  function TaleAfter(t: Tale, n: nat, e: Event): Tale {
    Tale(Told(t.story, e), LineAfter(t.line, n, e))
  }

  /** A failed gate run fails a validated train whole, fails a train of one job, and has any
      other train bisected. */
  predicate AnswersFailure(batch: seq<Job>, deploy: bool, tree: Assembly, e: Event) {
    if ShipsWhole(batch, deploy) then e.Stopped? && e.exc == CommandFailed && e.jobs == Ids(batch)
    else if |tree.merged| < 2 then e.Stopped? && e.exc == CommandFailed && e.jobs == Ids(tree.merged)
    else e.BisectRaised? || ((e.Isolated? || e.BisectGaveUp?) && e.train == Ids(tree.merged))
  }

  /** The event is what the one before calls for. A train is stopped for an unclear push only
      if there is one: it ended so, or it could not start because another one may be running. */
  predicate Answers(batch: seq<Job>, deploy: bool, s: Story, e: Event) {
    match s.owed
    case Nothing => e.Stopped? ==> e.exc != Ambiguous
    case FailedGates => AnswersFailure(batch, deploy, s.tree, e)
    case OpenPush => e.Stopped? && e.exc == Ambiguous
    case LandedPush => e.PushLanded?
  }

  /** A validated train must be claimed whole: one train id, and its recorded size. */
  predicate OneWholeTrain(jobs: seq<Job>) {
    forall j <- jobs :: j.train != NoTrain && j.train == jobs[0].train && j.trainSize == |jobs|
  }

  /** There is a reason to block a validated train: it is not whole, or some job is blamed. */
  predicate BlocksWhole(batch: seq<Job>, deploy: bool, blamed: set<JobId>) {
    ShipsWhole(batch, deploy) && (blamed != {} || !OneWholeTrain(batch))
  }

  /** The job goes back to the queue: its train never reached it, or its line ended early. */
  predicate Returns(t: Tale, id: JobId) {
    id in t.story.freed || (t.line.Returning? && id in t.line.rest)
  }

  /** What may be recorded of a job whose row asks for a cancel: the cancel, or what a push has
      done or may have done. */
  predicate OverridesCancel(status: Status) {
    status == Canceled || status == Deployed || status == NeedsReconcile
  }

  /** There is a reason to record a job with this status; `asked` says whether its row asked
      for a cancel. */
  predicate Justified(batch: seq<Job>, deploy: bool, t: Tale, id: JobId, status: Status, asked: bool) {
    var s := t.story;
    match status
    case Failed => id in s.doomed
    case Blocked => id in s.blamed || BlocksWhole(batch, deploy, s.blamed)
    case NeedsReconcile => id in s.unsure
    case Validated => s.tree.gated && id in Ids(s.tree.merged)
    case Canceled => asked || id in s.canceled
    case Queued => Returns(t, id)
    case _ => true
  }

  /** The writes of a requeue: each job at most once, in the order of `ids`. */
  predicate RequeuedInOrder(evs: seq<Event>, ids: seq<JobId>)
    decreases |ids|
  {
    if evs == [] then true
    else if ids == [] then false
    else if evs[0].Wrote? && evs[0].id == ids[0] && evs[0].status in {Queued, Canceled}
    then RequeuedInOrder(evs[1..], ids[1..])
    else RequeuedInOrder(evs, ids[1..])
  }

  /** Jobs that are isolated one by one take their turns in train order. */
  predicate NextInLine(line: Line, id: JobId) { line.Turns? && line.rest != [] && line.rest[0] == id }

  /** An isolation ends when every job has had its turn, or when the rest was returned to the
      queue in order and nothing else happened since. */
  predicate TurnsAreOver(line: Line, log: seq<Event>) {
    match line
    case NoLine => false
    case Turns(rest) => rest == []
    case Returning(rest, since) => since <= |log| && RequeuedInOrder(log[since..], rest)
  }

  /** What may happen after a log that comes to this tale. */
  ghost predicate EventOk(
    batch: seq<Job>, deploy: bool, outside: Outside, log: seq<Event>, t: Tale, e: Event)
  {
    var s := t.story;
    && Answers(batch, deploy, s, e) && AsAnswered(outside, Asked(log), e)
    && if e.PushStarted? then
      deploy && !s.parked && ArmedBy(log, Ids(e.riders), e.sha) && SoundPush(batch, s, e)
    else if e.PushLanded? then
      log != [] && log[|log| - 1] == PushEnded(Accepted) && e.jobs != [] && e.jobs == s.flying
    else if e.Wrote? then
      && (e.status == Deployed <==> e.id in s.landed) && Justified(batch, deploy, t, e.id, e.status, e.asked)
      && (e.asked ==> OverridesCancel(e.status))
    else if e.Isolated? then SoundBlame(outside.bisects(e.bisect), e.train, e.singles, e.conflictSets)
    else if e.BisectGaveUp? then t.line == NoLine && SoundAbort(outside.bisects(e.bisect), e.train)
    else if e.TurnTaken? then NextInLine(t.line, e.id)
    else if e.RestReturned? then t.line.Turns?
    else e.IsolationEnded? ==> TurnsAreOver(t.line, log)
  }

  /** Every event was all right when it happened. */
  ghost predicate LogOk(batch: seq<Job>, deploy: bool, outside: Outside, log: seq<Event>)
    decreases |log|, 1
  {
    log == [] || LastOk(batch, deploy, outside, log)
  }

  ghost predicate LastOk(batch: seq<Job>, deploy: bool, outside: Outside, log: seq<Event>)
    requires log != []
    decreases |log|, 0
  {
    var before := log[..|log| - 1];
    LogOk(batch, deploy, outside, before) && EventOk(batch, deploy, outside, before, TaleOf(before), log[|log| - 1])
  }

  lemma StoryGrows(log: seq<Event>, e: Event)
    ensures StoryOf(log + [e]) == Told(StoryOf(log), e)
    ensures LineOf(log + [e]) == LineAfter(LineOf(log), |log|, e)
  {
    var more := log + [e];
    assert more[..|more| - 1] == log;
    assert StoryOf(more) == LastTold(more) && LineOf(more) == LastLine(more);
  }

  lemma AskedGrows(log: seq<Event>, e: Event)
    ensures Asked(log + [e]) == Asked(log) + if Asks(e) then 1 else 0
  {
    var more := log + [e];
    assert more[..|more| - 1] == log && Asked(more) == LastAsked(more);
  }

  lemma LogGrows(batch: seq<Job>, deploy: bool, outside: Outside, log: seq<Event>, e: Event)
    requires LogOk(batch, deploy, outside, log) && EventOk(batch, deploy, outside, log, TaleOf(log), e)
    ensures LogOk(batch, deploy, outside, log + [e])
  {
    var more := log + [e];
    assert more[..|more| - 1] == log && more[|more| - 1] == e;
    assert LastOk(batch, deploy, outside, more);
  }

  /** Every event was all right, and the log comes to this. Where it is only handed on, its
      definition is hidden. */
  ghost predicate LogTells(batch: seq<Job>, deploy: bool, outside: Outside, log: seq<Event>,
                           story: Story, line: Line)
    decreases |log|, 1
  {
    if log == [] then story == UNTOLD && line == NoLine
    else LastTells(batch, deploy, outside, log, story, line)
  }

  ghost predicate LastTells(batch: seq<Job>, deploy: bool, outside: Outside, log: seq<Event>,
                            story: Story, line: Line)
    requires log != []
    decreases |log|, 0
  {
    var before := log[..|log| - 1];
    var t := TaleOf(before);
    && Tale(story, line) == TaleOf(log)
    && LogTells(batch, deploy, outside, before, t.story, t.line)
    && EventOk(batch, deploy, outside, before, t, log[|log| - 1])
  }

  lemma {:induction false} TellsTruth(
    batch: seq<Job>, deploy: bool, outside: Outside, log: seq<Event>, t: Tale)
    requires LogTells(batch, deploy, outside, log, t.story, t.line)
    ensures LogOk(batch, deploy, outside, log) && t == TaleOf(log)
    decreases |log|
  {
    if log != [] {
      var before := log[..|log| - 1];
      assert LastTells(batch, deploy, outside, log, t.story, t.line);
      TellsTruth(batch, deploy, outside, before, TaleOf(before));
      assert LastOk(batch, deploy, outside, log);
    }
  }

  lemma TellsMore(batch: seq<Job>, deploy: bool, outside: Outside, log: seq<Event>, t: Tale, e: Event)
    requires LogTells(batch, deploy, outside, log, t.story, t.line)
    requires EventOk(batch, deploy, outside, log, t, e)
    ensures
      var after := TaleAfter(t, |log|, e);
      LogTells(batch, deploy, outside, log + [e], after.story, after.line)
  {
    TellsTruth(batch, deploy, outside, log, t);
    StoryGrows(log, e);
    var more := log + [e];
    var after := TaleAfter(t, |log|, e);
    assert more[..|more| - 1] == log && more[|more| - 1] == e;
    assert LastTells(batch, deploy, outside, more, after.story, after.line);
  }

  // ---------------------------------------------------------------- what the log promises

  predicate OnlyGatedShips(batch: seq<Job>, log: seq<Event>) {
    forall i | 0 <= i < |log| :: log[i].PushStarted? ==> SoundPush(batch, StoryOf(log[..i]), log[i])
  }

  /** Every push was armed right before. */
  predicate PushesAreArmed(log: seq<Event>) {
    forall i | 0 <= i < |log| :: log[i].PushStarted? ==> ArmedBy(log[..i], Ids(log[i].riders), log[i].sha)
  }

  /** A push of this job was seen to land. */
  predicate Landed(log: seq<Event>, id: JobId) {
    exists e <- log :: e.PushLanded? && id in e.jobs
  }

  /** What is seen to land is the last push, with exactly its jobs, once, and right after the
      push ended well. */
  predicate LandingsFollowPushes(log: seq<Event>) {
    forall i | 0 <= i < |log| :: log[i].PushLanded? ==>
      && i > 0 && log[i - 1] == PushEnded(Accepted)
      && exists k: nat | k < i :: LastPush(log[..i], k, log[i].jobs)
  }

  predicate LastPush(log: seq<Event>, k: nat, jobs: seq<JobId>)
    requires k < |log|
  {
    && log[k].PushStarted? && Ids(log[k].riders) == jobs
    && forall j | k < j < |log| :: !log[j].PushStarted? && !log[j].PushLanded?
  }

  lemma LastPushStays(log: seq<Event>, k: nat, jobs: seq<JobId>)
    requires k < |log| - 1 && LastPush(log[..|log| - 1], k, jobs)
    requires !log[|log| - 1].PushStarted? && !log[|log| - 1].PushLanded?
    ensures LastPush(log, k, jobs)
  {
    var before := log[..|log| - 1];
    assert log[k] == before[k] && forall j | k < j < |log| - 1 :: log[j] == before[j];
  }

  lemma {:induction false} FlyingIsTheLastPush(log: seq<Event>) returns (k: nat)
    requires StoryOf(log).flying != []
    ensures k < |log| && LastPush(log, k, StoryOf(log).flying)
  {
    var n := |log| - 1;
    assert log != [] && StoryOf(log) == LastTold(log);
    if log[n].PushStarted? {
      k := n;
    } else {
      k := FlyingIsTheLastPush(log[..n]);
      LastPushStays(log, k, StoryOf(log).flying);
    }
  }

  /** There is a reason for the job's failure, block, park, cancel, or return to the queue. */
  predicate Doomed(log: seq<Event>, id: JobId) { exists e <- log :: id in DoomedBy(e) }

  predicate Blamed(log: seq<Event>, id: JobId) { exists e <- log :: id in BlamedBy(e) }

  predicate Unsure(log: seq<Event>, id: JobId) { exists e <- log :: id in UnsureBy(e) }

  predicate CalledOff(log: seq<Event>, id: JobId) { exists e <- log :: id in CanceledBy(e) }

  predicate Freed(log: seq<Event>, id: JobId) { exists e <- log :: id in FreedBy(e) }

  /** A job is recorded as deployed if and only if a push of it was seen to land before. */
  predicate HonestWrites(log: seq<Event>) {
    forall i | 0 <= i < |log| :: log[i].Wrote? ==>
      (log[i].status == Deployed <==> Landed(log[..i], log[i].id))
  }

  /** A job is recorded as failed, blocked, parked, canceled or queued only with a reason, and as
      validated only in the train over whose tip the gates passed last; a cancel request that
      its row shows is honored unless a push landed or may have. */
  predicate JustVerdicts(batch: seq<Job>, deploy: bool, log: seq<Event>) {
    forall i | 0 <= i < |log| :: log[i].Wrote? ==>
      JustVerdict(batch, deploy, log[..i], log[i]) && (log[i].asked ==> OverridesCancel(log[i].status))
  }

  predicate JustVerdict(batch: seq<Job>, deploy: bool, log: seq<Event>, e: Event)
    requires e.Wrote?
  {
    match e.status
    case Failed => Doomed(log, e.id)
    case Blocked => Blamed(log, e.id) || (ShipsWhole(batch, deploy) && (SomeBlamed(log) || !OneWholeTrain(batch)))
    case NeedsReconcile => Unsure(log, e.id)
    case Validated => StoryOf(log).tree.gated && e.id in Ids(StoryOf(log).tree.merged)
    case Canceled => e.asked || CalledOff(log, e.id)
    case Queued => Freed(log, e.id) || (LineOf(log).Returning? && e.id in LineOf(log).rest)
    case _ => true
  }

  predicate SomeBlamed(log: seq<Event>) { exists e <- log :: BlamedBy(e) != {} }

  /** Every merge, gate run and push ended as the world says. */
  predicate AnswersAreTheWorlds(outside: Outside, log: seq<Event>) {
    forall i | 0 <= i < |log| :: AsAnswered(outside, Asked(log[..i]), log[i])
  }

  /** The world says that the last gate run over the worktree as it is passed: it was over this
      commit, and left it and a clean tree. */
  predicate WorldPassed(outside: Outside, log: seq<Event>, tip: Commit) {
    exists g | 0 <= g < |log| :: PassedAt(outside, log, g, tip)
  }

  predicate PassedAt(outside: Outside, log: seq<Event>, g: nat, tip: Commit)
    requires g < |log|
  {
    && log[g].GatesRan? && log[g].on == tip && outside.gates(Asked(log[..g])) == GateRun(NoExc, tip, true)
    && forall j | g < j < |log| :: !MovesTree(log[j])
  }

  predicate MovesTree(e: Event) { e.BaseTaken? || e.MergeRan? || e.WorktreeReset? || e.GatesRan? }

  /** What is pushed or recorded as validated passed the gates, as the world says. */
  predicate OnlyPassedShips(outside: Outside, log: seq<Event>) {
    forall i | 0 <= i < |log| ::
      && (log[i].PushStarted? ==> WorldPassed(outside, log[..i], log[i].sha))
      && (log[i].Wrote? && log[i].status == Validated ==>
            WorldPassed(outside, log[..i], StoryOf(log[..i]).tree.head))
  }

  /** What a failed gate run, an unclear push and an accepted push call for comes right after. */
  predicate NothingGoesUnanswered(batch: seq<Job>, deploy: bool, outside: Outside, log: seq<Event>) {
    forall i | 0 <= i < |log| :: Answered(batch, deploy, outside, log, i)
  }

  predicate Answered(batch: seq<Job>, deploy: bool, outside: Outside, log: seq<Event>, i: nat)
    requires i < |log|
  {
    var n := Asked(log[..i]);
    && (log[i].GatesRan? && outside.gates(n).raised == CommandFailed ==>
          i + 1 < |log| && AnswersFailure(batch, deploy, StoryOf(log[..i + 1]).tree, log[i + 1]))
    && ((log[i].PushEnded? && outside.pushes(n) == Unclear) || log[i].PushLockBusy? ==>
          i + 1 < |log| && log[i + 1].Stopped? && log[i + 1].exc == Ambiguous)
    && (log[i].PushEnded? && outside.pushes(n) == Accepted ==> i + 1 < |log| && log[i + 1].PushLanded?)
  }

  /** A train is stopped for an unclear push only right after one. */
  predicate ParksAreCaused(log: seq<Event>) {
    forall i | 0 <= i < |log| :: log[i].Stopped? && log[i].exc == Ambiguous ==>
      i > 0 && (log[i - 1] == PushEnded(Unclear) || log[i - 1].PushLockBusy?)
  }

  /** What every completed bisect blames is sound, and so is every reason to give one up. */
  ghost predicate SoundIsolations(outside: Outside, log: seq<Event>) {
    forall e <- log ::
      && (e.Isolated? ==> SoundBlame(outside.bisects(e.bisect), e.train, e.singles, e.conflictSets))
      && (e.BisectGaveUp? ==> SoundAbort(outside.bisects(e.bisect), e.train))
  }

  /** Jobs that are isolated one by one take their turns in train order, and whenever that
      ends, all of them have had their turn or the rest went back to the queue in order. */
  predicate IsolationsKeepOrder(log: seq<Event>) {
    forall i | 0 <= i < |log| ::
      && (log[i].BisectGaveUp? ==> LineOf(log[..i]) == NoLine)
      && (log[i].TurnTaken? ==> NextInLine(LineOf(log[..i]), log[i].id))
      && (log[i].RestReturned? ==> LineOf(log[..i]).Turns?)
      && (log[i].IsolationEnded? ==> TurnsAreOver(LineOf(log[..i]), log[..i]))
  }

  predicate NoPark(log: seq<Event>) { forall e <- log :: !IsPark(e) }

  predicate NoPush(log: seq<Event>) { forall e <- log :: !e.PushStarted? }

  /** Once a job is parked for reconcile, nothing is pushed. */
  predicate NoPushAfterPark(log: seq<Event>) {
    forall i, j | 0 <= i < j < |log| :: IsPark(log[i]) ==> !log[j].PushStarted?
  }

  /** A merge of the last train reported a failure although it had committed. */
  predicate Strayed(log: seq<Event>) {
    exists i | 0 <= i < |log| :: StrayAt(log, i)
  }

  predicate StrayAt(log: seq<Event>, i: nat)
    requires i < |log|
  {
    && log[i].MergeRan? && log[i].outcome.FailedAfterCommit?
    && forall j | i < j < |log| :: !log[j].BaseTaken?
  }

  lemma StrayAtBefore(log: seq<Event>, i: nat)
    requires i < |log| - 1
    ensures StrayAt(log, i) <==> StrayAt(log[..|log| - 1], i) && !log[|log| - 1].BaseTaken?
  {
    var before := log[..|log| - 1];
    assert log[i] == before[i] && forall j | i < j < |log| - 1 :: log[j] == before[j];
  }

  lemma {:induction false} StraysAreFailedMerges(log: seq<Event>)
    ensures StoryOf(log).tree.strays > 0 <==> Strayed(log)
  {
    if log != [] {
      var n := |log| - 1;
      StraysAreFailedMerges(log[..n]);
      assert StoryOf(log) == LastTold(log);
      forall i | 0 <= i < n ensures StrayAt(log, i) <==> StrayAt(log[..n], i) && !log[n].BaseTaken? {
        StrayAtBefore(log, i);
      }
      if log[n].MergeRan? && log[n].outcome.FailedAfterCommit? { assert StrayAt(log, n); }
    }
  }

  lemma {:induction false} StoryIsTrue(log: seq<Event>, id: JobId)
    ensures id in StoryOf(log).landed <==> Landed(log, id)
    ensures id in StoryOf(log).doomed <==> Doomed(log, id)
    ensures id in StoryOf(log).blamed <==> Blamed(log, id)
    ensures id in StoryOf(log).unsure <==> Unsure(log, id)
    ensures id in StoryOf(log).canceled <==> CalledOff(log, id)
    ensures id in StoryOf(log).freed <==> Freed(log, id)
    ensures StoryOf(log).blamed != {} <==> SomeBlamed(log)
  {
    if log != [] {
      var n := |log| - 1;
      StoryIsTrue(log[..n], id);
      assert StoryOf(log) == LastTold(log);
      assert forall e :: e in log <==> e in log[..n] || e == log[n];
    }
  }

  lemma {:induction false} StoryCounts(log: seq<Event>)
    ensures StoryOf(log).parked <==> !NoPark(log)
    ensures StoryOf(log).pushes == 0 <==> NoPush(log)
  {
    if log != [] {
      var n := |log| - 1;
      StoryCounts(log[..n]);
      assert StoryOf(log) == LastTold(log);
      assert forall e :: e in log <==> e in log[..n] || e == log[n];
    }
  }

  lemma {:induction false} LogOkAt(
    batch: seq<Job>, deploy: bool, outside: Outside, log: seq<Event>, i: nat)
    requires LogOk(batch, deploy, outside, log) && i < |log|
    ensures EventOk(batch, deploy, outside, log[..i], TaleOf(log[..i]), log[i])
    decreases |log|
  {
    var n := |log| - 1;
    assert LastOk(batch, deploy, outside, log);
    if i < n {
      LogOkAt(batch, deploy, outside, log[..n], i);
      assert log[..n][..i] == log[..i];
    }
  }

  lemma LogOkMeans(batch: seq<Job>, deploy: bool, outside: Outside, log: seq<Event>)
    requires LogOk(batch, deploy, outside, log)
    ensures OnlyGatedShips(batch, log) && PushesAreArmed(log) && NoPushAfterPark(log)
    ensures !deploy ==> NoPush(log)
    ensures HonestWrites(log) && LandingsFollowPushes(log)
    ensures JustVerdicts(batch, deploy, log) && ParksAreCaused(log)
    ensures AnswersAreTheWorlds(outside, log) && OnlyPassedShips(outside, log)
    ensures StoryOf(log).owed == Nothing ==> NothingGoesUnanswered(batch, deploy, outside, log)
    ensures SoundIsolations(outside, log) && IsolationsKeepOrder(log)
  {
    PushesAreSound(batch, deploy, outside, log);
    LandingsAreOfPushes(batch, deploy, outside, log);
    WritesAreHonest(batch, deploy, outside, log);
    ParksHaveCauses(batch, deploy, outside, log);
    WorldsAnswers(batch, deploy, outside, log);
    ShippedIsPassed(batch, deploy, outside, log);
    if StoryOf(log).owed == Nothing { CallsAreAnswered(batch, deploy, outside, log); }
    BlameIsSound(batch, deploy, outside, log);
    OrderIsKept(batch, deploy, outside, log);
  }

  lemma PushesAreSound(batch: seq<Job>, deploy: bool, outside: Outside, log: seq<Event>)
    requires LogOk(batch, deploy, outside, log)
    ensures OnlyGatedShips(batch, log) && PushesAreArmed(log) && NoPushAfterPark(log)
    ensures !deploy ==> NoPush(log)
  {
    forall i | 0 <= i < |log| && log[i].PushStarted?
      ensures deploy && SoundPush(batch, StoryOf(log[..i]), log[i]) && NoPark(log[..i])
      ensures ArmedBy(log[..i], Ids(log[i].riders), log[i].sha)
    {
      LogOkAt(batch, deploy, outside, log, i);
      StoryCounts(log[..i]);
    }
    forall i, j | 0 <= i < j < |log| && IsPark(log[i]) ensures !log[j].PushStarted? {
      assert log[..j][i] == log[i];
    }
  }

  lemma LandingsAreOfPushes(batch: seq<Job>, deploy: bool, outside: Outside, log: seq<Event>)
    requires LogOk(batch, deploy, outside, log)
    ensures LandingsFollowPushes(log)
  {
    forall i | 0 <= i < |log| && log[i].PushLanded?
      ensures i > 0 && log[i - 1] == PushEnded(Accepted)
      ensures exists k: nat | k < i :: LastPush(log[..i], k, log[i].jobs)
    {
      LogOkAt(batch, deploy, outside, log, i);
      var k := FlyingIsTheLastPush(log[..i]);
    }
  }

  lemma WritesAreHonest(batch: seq<Job>, deploy: bool, outside: Outside, log: seq<Event>)
    requires LogOk(batch, deploy, outside, log)
    ensures HonestWrites(log) && JustVerdicts(batch, deploy, log)
  {
    forall i | 0 <= i < |log| && log[i].Wrote?
      ensures log[i].status == Deployed <==> Landed(log[..i], log[i].id)
      ensures JustVerdict(batch, deploy, log[..i], log[i]) && (log[i].asked ==> OverridesCancel(log[i].status))
    {
      LogOkAt(batch, deploy, outside, log, i);
      StoryIsTrue(log[..i], log[i].id);
    }
  }

  /** What the last event calls for, if there is one. */
  lemma OwedByLast(log: seq<Event>)
    ensures StoryOf(log).owed == if log == [] then Nothing else OwedBy(log[|log| - 1])
  {
    if log != [] { assert StoryOf(log) == LastTold(log); }
  }

  lemma ParksHaveCauses(batch: seq<Job>, deploy: bool, outside: Outside, log: seq<Event>)
    requires LogOk(batch, deploy, outside, log)
    ensures ParksAreCaused(log)
  {
    forall i | 0 <= i < |log| && log[i].Stopped? && log[i].exc == Ambiguous
      ensures i > 0 && (log[i - 1] == PushEnded(Unclear) || log[i - 1].PushLockBusy?)
    {
      LogOkAt(batch, deploy, outside, log, i);
      OwedByLast(log[..i]);
    }
  }

  lemma WorldsAnswers(batch: seq<Job>, deploy: bool, outside: Outside, log: seq<Event>)
    requires LogOk(batch, deploy, outside, log)
    ensures AnswersAreTheWorlds(outside, log)
  {
    forall i | 0 <= i < |log| ensures AsAnswered(outside, Asked(log[..i]), log[i]) {
      LogOkAt(batch, deploy, outside, log, i);
    }
  }

  lemma CallsAreAnswered(batch: seq<Job>, deploy: bool, outside: Outside, log: seq<Event>)
    requires LogOk(batch, deploy, outside, log) && StoryOf(log).owed == Nothing
    ensures NothingGoesUnanswered(batch, deploy, outside, log)
  {
    hide SoundPush, SoundBlame, SoundAbort, ArmedBy, Justified, AnswersFailure;
    forall i | 0 <= i < |log| ensures Answered(batch, deploy, outside, log, i) {
      LogOkAt(batch, deploy, outside, log, i);
      OwedByLast(log[..i + 1]);
      assert log[..i + 1][i] == log[i];
      if i + 1 < |log| {
        LogOkAt(batch, deploy, outside, log, i + 1);
        NextAnswers(batch, deploy, outside, log, i);
      } else {
        assert log[..i + 1] == log;
      }
    }
  }

  lemma NextAnswers(batch: seq<Job>, deploy: bool, outside: Outside, log: seq<Event>, i: nat)
    requires i + 1 < |log| && AsAnswered(outside, Asked(log[..i]), log[i])
    requires Answers(batch, deploy, StoryOf(log[..i + 1]), log[i + 1])
    requires StoryOf(log[..i + 1]).owed == OwedBy(log[i])
    ensures Answered(batch, deploy, outside, log, i)
  {
  }

  /** The gates passed over the tip as the replay has it exactly when the world says so. */
  lemma {:induction false} GatedIsPassed(outside: Outside, log: seq<Event>)
    requires AnswersAreTheWorlds(outside, log) && StoryOf(log).tree.gated
    ensures WorldPassed(outside, log, StoryOf(log).tree.head)
  {
    assert log != [] && StoryOf(log) == LastTold(log);
    var n := |log| - 1;
    var before, tip := log[..n], StoryOf(log).tree.head;
    assert AsAnswered(outside, Asked(log[..n]), log[n]);
    if log[n].GatesRan? {
      assert PassedAt(outside, log, n, tip);
    } else {
      assert StoryOf(before).tree == StoryOf(log).tree && !MovesTree(log[n]);
      forall i | 0 <= i < |before| ensures AsAnswered(outside, Asked(before[..i]), before[i]) {
        assert before[..i] == log[..i] && AsAnswered(outside, Asked(log[..i]), log[i]);
      }
      GatedIsPassed(outside, before);
      var g :| 0 <= g < |before| && PassedAt(outside, before, g, tip);
      PassedStays(outside, log, g, tip);
    }
  }

  lemma PassedStays(outside: Outside, log: seq<Event>, g: nat, tip: Commit)
    requires g < |log| - 1 && PassedAt(outside, log[..|log| - 1], g, tip) && !MovesTree(log[|log| - 1])
    ensures PassedAt(outside, log, g, tip)
  {
    var before := log[..|log| - 1];
    assert log[g] == before[g] && log[..g] == before[..g] && forall j | g < j < |log| - 1 :: log[j] == before[j];
  }

  lemma ShippedIsPassed(batch: seq<Job>, deploy: bool, outside: Outside, log: seq<Event>)
    requires LogOk(batch, deploy, outside, log) && AnswersAreTheWorlds(outside, log)
    ensures OnlyPassedShips(outside, log)
  {
    forall i | 0 <= i < |log|
      ensures log[i].PushStarted? ==> WorldPassed(outside, log[..i], log[i].sha)
      ensures log[i].Wrote? && log[i].status == Validated ==>
        WorldPassed(outside, log[..i], StoryOf(log[..i]).tree.head)
    {
      LogOkAt(batch, deploy, outside, log, i);
      forall j | 0 <= j < i ensures AsAnswered(outside, Asked(log[..i][..j]), log[..i][j]) {
        assert log[..i][..j] == log[..j] && AsAnswered(outside, Asked(log[..j]), log[j]);
      }
      if StoryOf(log[..i]).tree.gated { GatedIsPassed(outside, log[..i]); }
    }
  }

  lemma BlameIsSound(batch: seq<Job>, deploy: bool, outside: Outside, log: seq<Event>)
    requires LogOk(batch, deploy, outside, log)
    ensures SoundIsolations(outside, log)
  {
    forall i | 0 <= i < |log|
      ensures log[i].Isolated? ==>
        SoundBlame(outside.bisects(log[i].bisect), log[i].train, log[i].singles, log[i].conflictSets)
      ensures log[i].BisectGaveUp? ==> SoundAbort(outside.bisects(log[i].bisect), log[i].train)
    {
      LogOkAt(batch, deploy, outside, log, i);
    }
  }

  lemma OrderIsKept(batch: seq<Job>, deploy: bool, outside: Outside, log: seq<Event>)
    requires LogOk(batch, deploy, outside, log)
    ensures IsolationsKeepOrder(log)
  {
    forall i | 0 <= i < |log|
      ensures log[i].BisectGaveUp? ==> LineOf(log[..i]) == NoLine
      ensures log[i].TurnTaken? ==> NextInLine(LineOf(log[..i]), log[i].id)
      ensures log[i].RestReturned? ==> LineOf(log[..i]).Turns?
      ensures log[i].IsolationEnded? ==> TurnsAreOver(LineOf(log[..i]), log[..i])
    {
      LogOkAt(batch, deploy, outside, log, i);
    }
  }

  /** A push that is not a reuse ships a commit other than its jobs' merges exactly when a
      merge of its train had reported a failure and committed all the same. */
  lemma ShipsMoreExactlyWhenStrayed(batch: seq<Job>, log: seq<Event>, i: nat)
    requires OnlyGatedShips(batch, log) && i < |log| && log[i].PushStarted? && !log[i].reused
    ensures log[i].sha != Fold(StoryOf(log[..i]).tree.base, log[i].pins) <==> Strayed(log[..i])
  {
    StraysAreFailedMerges(log[..i]);
  }

  /** The merge of `a` reports a failure although it has committed, and `a` is blocked. Then
      `b` is merged, the gates pass, and the push is armed. */
  function StrayLog(a: Job, b: Job, base: Commit): seq<Event> {
    var tip := Merged(Merged(base, a.head), b.head);
    [BaseTaken(base), MergeRan(a, a.head, FailedAfterCommit), Wrote(a.id, Blocked, false),
     MergeRan(b, b.head, CleanMerge), GatesRan(tip, NoExc, tip, true),
     MarkersWritten([b.id], tip), PinsWritten([b.id], tip), PushLockTaken(tip), LeaseSeen(true)]
  }

  /** A world in which it goes that way. */
  predicate StrayWorld(outside: Outside, a: Job, b: Job, base: Commit) {
    && outside.merges(0) == FailedAfterCommit && outside.merges(1) == CleanMerge
    && outside.gates(2) == GateRun(NoExc, Merged(Merged(base, a.head), b.head), true)
  }

  function StrayAsked(n: nat): nat {
    if n <= 1 then 0 else if n <= 3 then 1 else if n <= 4 then 2 else 3
  }

  function StrayStory(a: Job, b: Job, base: Commit, n: nat): Story {
    var stray := Merged(base, a.head);
    var tip := Merged(stray, b.head);
    UNTOLD.(
      tree :=
        if n == 0 then NOTHING
        else if n == 1 then Assembly(base, base, [], [], 0, false)
        else if n <= 3 then Assembly(base, stray, [], [], 1, false)
        else Assembly(base, tip, [b], [b.head], 1, n >= 5),
      blamed := if n <= 1 then {} else {a.id})
  }

  lemma StrayStep(a: Job, b: Job, base: Commit, n: nat)
    requires 0 < n <= 9
    ensures Told(StrayStory(a, b, base, n - 1), StrayLog(a, b, base)[n - 1]) == StrayStory(a, b, base, n)
  {
    assert [] + [b] == [b] && [] + [b.head] == [b.head];
  }

  lemma StrayEventOk(outside: Outside, a: Job, b: Job, base: Commit, n: nat)
    requires 0 < n <= 9 && StrayWorld(outside, a, b, base)
    requires StoryOf(StrayLog(a, b, base)[..n - 1]) == StrayStory(a, b, base, n - 1)
    requires Asked(StrayLog(a, b, base)[..n - 1]) == StrayAsked(n - 1)
    ensures
      var log := StrayLog(a, b, base);
      EventOk([a, b], true, outside, log[..n - 1], TaleOf(log[..n - 1]), log[n - 1])
  {
  }

  lemma {:induction false} StrayLogTold(outside: Outside, a: Job, b: Job, base: Commit, n: nat)
    requires n <= 9 && StrayWorld(outside, a, b, base)
    ensures LogOk([a, b], true, outside, StrayLog(a, b, base)[..n])
    ensures StoryOf(StrayLog(a, b, base)[..n]) == StrayStory(a, b, base, n)
    ensures Asked(StrayLog(a, b, base)[..n]) == StrayAsked(n)
  {
    hide EventOk, Told, StrayWorld;
    var log := StrayLog(a, b, base);
    if n > 0 {
      StrayLogTold(outside, a, b, base, n - 1);
      StrayStep(a, b, base, n);
      StrayEventOk(outside, a, b, base, n);
      assert log[..n] == log[..n - 1] + [log[n - 1]];
      StoryGrows(log[..n - 1], log[n - 1]);
      AskedGrows(log[..n - 1], log[n - 1]);
      LogGrows([a, b], true, outside, log[..n - 1], log[n - 1]);
    }
  }

  lemma StrayPushOk(outside: Outside, a: Job, b: Job, base: Commit)
    requires a.id != b.id && a.head != NoCommit && b.head != NoCommit && a.train == b.train == NoTrain
    requires StoryOf(StrayLog(a, b, base)) == StrayStory(a, b, base, 9)
    ensures
      var push := PushStarted(Merged(Merged(base, a.head), b.head), [b], [b.head], false);
      EventOk([a, b], true, outside, StrayLog(a, b, base), TaleOf(StrayLog(a, b, base)), push)
  {
    hide StrayWorld, SoundBlame, SoundAbort, Justified, AnswersFailure, TurnsAreOver;
    var log := StrayLog(a, b, base);
    assert Ids([b]) == [b.id];
    assert log[..8] == log[..|log| - 1] && log[..7] == log[..8][..7] && log[..6] == log[..7][..6];
    FoldSize(base, [b.head]);
    OneInClaimOrder([a, b], 1, 2);
  }

  /** Then `b` is pushed with a commit that holds `a` too, although `a` was blocked. Everything
      that is promised of the log holds, in every world in which it goes that way. */
  lemma StrayMergeShips(outside: Outside, a: Job, b: Job, base: Commit)
    requires a.id != b.id && a.head != NoCommit && b.head != NoCommit && a.train == b.train == NoTrain
    requires StrayWorld(outside, a, b, base)
    ensures
      var tip := Merged(Merged(base, a.head), b.head);
      var push := PushStarted(tip, [b], [b.head], false);
      && LogOk([a, b], true, outside, StrayLog(a, b, base) + [push])
      && Strayed(StrayLog(a, b, base)) && tip != Fold(base, [b.head])
  {
    var log := StrayLog(a, b, base);
    var push := PushStarted(Merged(Merged(base, a.head), b.head), [b], [b.head], false);
    StrayLogTold(outside, a, b, base, 9);
    assert log[..9] == log;
    StraysAreFailedMerges(log);
    FoldSize(base, [b.head]);
    StrayPushOk(outside, a, b, base);
    LogGrows([a, b], true, outside, log, push);
  }

  // ---------------------------------------------------------------- claim order

  lemma {:induction false} ClaimOrderMembers(chosen: seq<Job>, claimed: seq<Job>, k: nat)
    requires k <= |claimed| && InClaimOrder(chosen, claimed, k)
    ensures |chosen| <= k && (|chosen| == k ==> chosen == claimed[..k])
    ensures forall j <- chosen :: j in claimed[..k]
    decreases k
  {
    if chosen != [] {
      var last := |chosen| - 1;
      assert EndsInClaimOrder(chosen, claimed, k);
      assert claimed[..k] == claimed[..k - 1] + [claimed[k - 1]];
      if chosen[last] == claimed[k - 1] {
        ClaimOrderMembers(chosen[..last], claimed, k - 1);
        assert chosen == chosen[..last] + [chosen[last]];
      } else {
        ClaimOrderMembers(chosen, claimed, k - 1);
      }
    }
  }

  lemma {:induction false} ClaimOrderShorter(chosen: seq<Job>, claimed: seq<Job>, k: nat)
    requires chosen != [] && k <= |claimed| && InClaimOrder(chosen, claimed, k)
    ensures InClaimOrder(chosen[..|chosen| - 1], claimed, k)
    decreases k
  {
    var last := |chosen| - 1;
    var rest := chosen[..last];
    assert EndsInClaimOrder(chosen, claimed, k);
    if chosen[last] != claimed[k - 1] { ClaimOrderShorter(chosen, claimed, k - 1); }
    assert InClaimOrder(rest, claimed, k - 1);
    if rest != [] {
      if rest[|rest| - 1] == claimed[k - 1] { ClaimOrderShorter(rest, claimed, k - 1); }
      assert EndsInClaimOrder(rest, claimed, k);
    }
  }

  lemma ClaimOrderLonger(chosen: seq<Job>, claimed: seq<Job>, k: nat)
    requires k < |claimed| && InClaimOrder(chosen, claimed, k)
    ensures InClaimOrder(chosen, claimed, k + 1)
  {
    if chosen != [] {
      if chosen[|chosen| - 1] == claimed[k] { ClaimOrderShorter(chosen, claimed, k); }
      assert EndsInClaimOrder(chosen, claimed, k + 1);
    }
  }

  lemma ClaimOrderNext(chosen: seq<Job>, claimed: seq<Job>, k: nat)
    requires k < |claimed| && InClaimOrder(chosen, claimed, k)
    ensures InClaimOrder(chosen + [claimed[k]], claimed, k + 1)
  {
    assert (chosen + [claimed[k]])[..|chosen|] == chosen;
    assert EndsInClaimOrder(chosen + [claimed[k]], claimed, k + 1);
  }

  /** Some of the jobs chosen from some of the batch are chosen from the batch. */
  lemma {:induction false} ClaimOrderComposes(a: seq<Job>, b: seq<Job>, m: nat, c: seq<Job>, k: nat)
    requires m <= |b| && k <= |c| && InClaimOrder(a, b, m) && InClaimOrder(b[..m], c, k)
    ensures InClaimOrder(a, c, k)
    decreases k
  {
    if a != [] {
      assert EndsInClaimOrder(a, b, m);
      assert EndsInClaimOrder(b[..m], c, k);
      var last := |a| - 1;
      if b[m - 1] == c[k - 1] {
        assert b[..m][..m - 1] == b[..m - 1];
        if a[last] == b[m - 1] {
          ClaimOrderComposes(a[..last], b, m - 1, c, k - 1);
          assert EndsInClaimOrder(a, c, k);
        } else {
          ClaimOrderComposes(a, b, m - 1, c, k - 1);
          ClaimOrderLonger(a, c, k - 1);
        }
      } else {
        ClaimOrderComposes(a, b, m, c, k - 1);
        ClaimOrderLonger(a, c, k - 1);
      }
    }
  }

  lemma {:induction false} WholeInClaimOrder(jobs: seq<Job>, k: nat)
    requires k <= |jobs|
    ensures InClaimOrder(jobs[..k], jobs, k)
  {
    if k > 0 {
      WholeInClaimOrder(jobs, k - 1);
      assert jobs[..k - 1] + [jobs[k - 1]] == jobs[..k];
      ClaimOrderNext(jobs[..k - 1], jobs, k - 1);
    }
  }

  lemma {:induction false} OneInClaimOrder(jobs: seq<Job>, i: nat, k: nat)
    requires i < k <= |jobs|
    ensures InClaimOrder([jobs[i]], jobs, k)
    decreases k
  {
    if i == k - 1 {
      ClaimOrderNext([], jobs, i);
      assert [] + [jobs[i]] == [jobs[i]];
    } else {
      OneInClaimOrder(jobs, i, k - 1);
      ClaimOrderLonger([jobs[i]], jobs, k - 1);
    }
  }
}
