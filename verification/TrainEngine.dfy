/**
  The train engine (`git_runner.py`, `atomic_push.py`): one claimed batch is assembled,
  gated, bisected or isolated when its gates fail, pushed and recorded. `ProcessBatch`,
  the bisect and the linear isolation call each other.

  How merges, gate runs, pushes and the probes of a bisect end is an input (`Outside`): a merge
  may be clean, dirty or fail, a gate run may pass, fail and change the worktree, and a push may
  land, be refused or end unknown. Everything else outside the runner is nondeterministic:
  another process may change the queue rows between any two steps within `Rely`, and any step
  may raise. Python exceptions are the `Exc` a step returns.
 */
module TrainEngine {
  import opened Git
  import opened JobTable
  import opened TrainLog
  import Bisect

  datatype PushStatus = NotRun | Pending | Succeeded | PushFailed

  datatype Result = Result(job: JobId, status: Status)

  function IdSet(jobs: seq<Job>): set<JobId> {
    set j <- jobs :: j.id
  }

  predicate DistinctJobs(jobs: seq<Job>) {
    forall i, j | 0 <= i < j < |jobs| :: jobs[i].id != jobs[j].id
  }

  function PinsOf(jobs: seq<Job>, shas: map<JobId, Commit>): (pins: seq<Commit>)
    requires forall j <- jobs :: j.id in shas
    ensures |pins| == |jobs| && forall i | 0 <= i < |jobs| :: pins[i] == shas[jobs[i].id]
  {
    seq(|jobs|, i requires 0 <= i < |jobs| => shas[jobs[i].id])
  }

  lemma {:induction false} RequeueSkips(evs: seq<Event>, ids: seq<JobId>, last: JobId)
    requires RequeuedInOrder(evs, ids)
    ensures RequeuedInOrder(evs, ids + [last])
    decreases |ids|
  {
    if evs != [] && ids != [] {
      assert (ids + [last])[1..] == ids[1..] + [last];
      if evs[0].Wrote? && evs[0].id == ids[0] && evs[0].status in {Queued, Canceled} {
        RequeueSkips(evs[1..], ids[1..], last);
      } else {
        RequeueSkips(evs, ids[1..], last);
      }
    }
  }

  lemma {:induction false} RequeueAppends(evs: seq<Event>, ids: seq<JobId>, last: JobId, e: Event)
    requires RequeuedInOrder(evs, ids) && e.Wrote? && e.id == last && e.status in {Queued, Canceled}
    ensures RequeuedInOrder(evs + [e], ids + [last])
    decreases |ids|
  {
    var more := evs + [e];
    if ids == [] {
      assert evs == [] && more == [e] && ids + [last] == [last];
      assert more[1..] == [];
      assert RequeuedInOrder(more[1..], [last][1..]);
    } else {
      assert (ids + [last])[1..] == ids[1..] + [last];
      if evs == [] {
        RequeueAppends([], ids[1..], last, e);
        assert more == [] + [e];
        if more[0].id == ids[0] {
          assert more[1..] == [];
        }
      } else {
        assert more[0] == evs[0];
        if evs[0].Wrote? && evs[0].id == ids[0] && evs[0].status in {Queued, Canceled} {
          RequeueAppends(evs[1..], ids[1..], last, e);
          assert more[1..] == evs[1..] + [e];
        } else {
          RequeueAppends(evs, ids[1..], last, e);
        }
      }
    }
  }

  // ---------------------------------------------------------------- the shared queue

  /** A row the claim `lease` still holds. */
  predicate HeldRow(row: Row, lease: Token) {
    row.status == InProgress && row.token == lease
  }

  ghost function HeldIn(rows: map<JobId, Row>, lease: Token): (ids: set<JobId>)
    ensures forall id :: id in ids <==> id in rows && HeldRow(rows[id], lease)
  {
    set id <- rows | HeldRow(rows[id], lease)
  }

  /** A validated row of a train this runner created. */
  predicate ReadyRow(row: Row) {
    row.status == Validated && row.train.Mine?
  }

  /** What other processes may do to one row while this runner works: request a cancel of
      a held row; take a held row away with the lease; and change any other row, except
      that a parked row waits for a reconcile, which needs the runner lock. */
  predicate RowRely(before: Row, after: Row, lease: Token, locked: bool) {
    && (HeldRow(after, lease) ==>
          && HeldRow(before, lease)
          && after == before.(cancelRequested := after.cancelRequested)
          && (before.cancelRequested ==> after.cancelRequested))
    && (after.train.Mine? ==> after.train == before.train)
    && (ReadyRow(after) ==> ReadyRow(before))
    && (locked && before.status == NeedsReconcile ==> after.status == NeedsReconcile)
  }

  predicate Rely(before: map<JobId, Row>, after: map<JobId, Row>, lease: Token, lockBefore: bool, lockAfter: bool) {
    && (lockAfter ==> lockBefore)
    && (forall id <- before :: id in after && RowRely(before[id], after[id], lease, lockAfter))
    && (forall id <- after :: id !in before ==> !HeldRow(after[id], lease) && !after[id].train.Mine?)
    // whoever takes the lease splits every claim of it in the same transaction
    && (!lockAfter ==> forall id <- after :: !HeldRow(after[id], lease))
  }

  /** Every row that is validated under a train of this runner is of one of these trains. */
  ghost predicate ReadyIn(rows: map<JobId, Row>, serials: set<nat>) {
    forall id <- rows :: ReadyRow(rows[id]) ==> rows[id].train.serial in serials
  }

  ghost predicate ReadyBut(rows: map<JobId, Row>, but: JobId, serials: set<nat>) {
    forall id <- rows :: id != but && ReadyRow(rows[id]) ==> rows[id].train.serial in serials
  }

  lemma RelyKeeps(before: map<JobId, Row>, after: map<JobId, Row>, lease: Token, lockBefore: bool, lockAfter: bool)
    requires Rely(before, after, lease, lockBefore, lockAfter)
    ensures HeldIn(after, lease) <= HeldIn(before, lease)
    ensures !lockAfter ==> HeldIn(after, lease) == {}
    ensures forall n: set<nat> :: ReadyIn(before, n) ==> ReadyIn(after, n)
  {
    forall id <- HeldIn(after, lease) ensures lockAfter && id in HeldIn(before, lease) {
      assert id in before && RowRely(before[id], after[id], lease, lockAfter);
    }
    forall n: set<nat> | ReadyIn(before, n) ensures ReadyIn(after, n) {
      forall id <- after | ReadyRow(after[id]) ensures after[id].train.serial in n {
        assert id in before && RowRely(before[id], after[id], lease, lockAfter);
      }
    }
  }

  /** A job that is seen not to be validated leaves only the trains of the other jobs. */
  lemma RelyKeepsBut(before: map<JobId, Row>, after: map<JobId, Row>, lease: Token, lockBefore: bool, lockAfter: bool,
                     but: JobId, serials: set<nat>)
    requires Rely(before, after, lease, lockBefore, lockAfter) && ReadyBut(before, but, serials)
    requires but in after && after[but].status != Validated
    ensures ReadyIn(after, serials)
  {
    forall id <- after | ReadyRow(after[id]) ensures after[id].train.serial in serials {
      assert id in before && RowRely(before[id], after[id], lease, lockAfter);
    }
  }

  lemma MarkKeeps(rows: map<JobId, Row>, lease: Token, id: JobId, status: Status, train: Train, ready: set<nat>)
    requires id in rows && HeldRow(rows[id], lease) && ReadyIn(rows, ready)
    requires if status == Validated then train.Mine? else train == NoTrain
    ensures
      var after := rows[id := MarkRow(rows[id], status, train)];
      && HeldIn(after, lease) == (if status == InProgress then HeldIn(rows, lease) else HeldIn(rows, lease) - {id})
      && ReadyBut(after, id, ready)
      && ReadyIn(after, if status == Validated then ready + {train.serial} else ready)
  {
  }

  /** A job's branch as Git has it, and whether the commit it was recorded at still exists. */
  datatype Branch = Gone | Tip(commit: Commit, recordedResolves: bool)

  /** The branch exists and is where the job was recorded, if it was. */
  predicate Unmoved(job: Job, validated: bool, branch: Branch) {
    && branch.Tip?
    && (Expected(job, validated) != NoCommit ==>
          branch.commit == Expected(job, validated) && branch.recordedResolves)
  }

  ghost predicate RideAsRecorded(merged: seq<Job>, shas: map<JobId, Commit>, validated: bool) {
    forall j <- merged :: j.id in shas && (Expected(j, validated) != NoCommit ==> shas[j.id] == Expected(j, validated))
  }

  class TrainRun {
    const jobs: seq<Job>
    const deploy: bool
    const deployingValidated := deploy && DeploysValidated(jobs)
    var merged: seq<Job>
    var results: seq<Result>
    var mergeShas: map<JobId, Commit>
    var deploySha: Commit
    var base: Commit
    var pushStatus: PushStatus
    var reused: Commit
    // the train's worktree
    var head: Commit
    var clean: bool

    constructor (jobs: seq<Job>, deploy: bool)
      ensures this.jobs == jobs && this.deploy == deploy
      ensures merged == [] && results == [] && mergeShas == map[] && pushStatus == NotRun
      ensures reused == NoCommit && deploySha == NoCommit
    {
      this.jobs, this.deploy := jobs, deploy;
      merged, results, mergeShas := [], [], map[];
      deploySha, base, pushStatus, reused := NoCommit, NoCommit, NotRun, NoCommit;
      head, clean := NoCommit, true;
    }

    predicate MergedKnown()
      reads `merged, `mergeShas
    {
      forall j <- merged :: j.id in mergeShas
    }

    /** Every merged job rides with its recorded commit. */
    ghost predicate Pinned()
      reads `merged, `mergeShas
    {
      MergedKnown() && RideAsRecorded(merged, mergeShas, deployingValidated)
    }
  }

  class Runner {
    const batch: seq<Job>
    const deploy: bool
    const lease: Token
    const outside: Outside
    const reuseEnabled: bool
    const failOnMismatch: bool
    const hasVerifyHooks: bool
    var rows: map<JobId, Row>
    var lockMine: bool
    var nextTrain: nat
    var bisects: nat
    var log: seq<Event>
    // the jobs whose rows the claim holds, and the serials of the trains with a validated row
    ghost var held: set<JobId>
    ghost var ready: set<nat>
    // the jobs of a push this frame saw land and has not finished recording
    ghost var landing: set<JobId>
    // what the log comes to, and the line of jobs that are isolated one by one
    ghost var story: Story
    ghost var line: Line

    constructor (batch: seq<Job>, deploy: bool, lease: Token, outside: Outside, rows: map<JobId, Row>,
                 reuseEnabled: bool, failOnMismatch: bool, hasVerifyHooks: bool)
      requires lease != "" && forall id <- rows :: !rows[id].train.Mine?
      ensures Valid() && ParkFree() && this.rows == rows && this.lease == lease
      ensures this.batch == batch && this.deploy == deploy && this.outside == outside && log == [] && story == UNTOLD
      ensures line == NoLine
      ensures landing == {} && nextTrain == 0 && ready == {}
    {
      this.batch, this.deploy, this.lease, this.outside, this.rows := batch, deploy, lease, outside, rows;
      this.reuseEnabled, this.failOnMismatch, this.hasVerifyHooks := reuseEnabled, failOnMismatch, hasVerifyHooks;
      lockMine, nextTrain, bisects, log := true, 0, 0, [];
      held, ready := HeldIn(rows, lease), {};
      landing, story, line := {}, UNTOLD, NoLine;
    }

    ghost predicate Valid()
      reads this
    {
      Sound() && Calm()
    }

    /** Everything is in order, but what the last event calls for may be open. */
    ghost predicate Sound()
      reads this
    {
      && RowsKnown() && LogKnown()
      && landing <= story.landed
      && forall id <- held :: id in story.landed ==> id in landing
    }

    ghost predicate RowsKnown()
      reads `rows, `lockMine, `nextTrain, `held, `ready
    {
      && lease != "" && held == HeldIn(rows, lease)
      && (!lockMine ==> held == {})
      && ReadyIn(rows, ready) && forall n <- ready :: n < nextTrain
    }

    ghost predicate LogKnown()
      reads `log, `story, `line
    {
      LogTells(batch, deploy, outside, log, story, line)
    }

    ghost predicate MayLog(e: Event)
      reads `log, `story, `line
    {
      EventOk(batch, deploy, outside, log, Tale(story, line), e)
    }

    /** The status this frame may write for a job, whether its row asks for a cancel or not. */
    ghost predicate MayWrite(id: JobId, status: Status)
      reads `landing, `story, `line
    {
      MayWriteFor(id, status, false)
    }

    /** The status this frame may write for a job whose row asks for a cancel, or does not. */
    ghost predicate MayWriteFor(id: JobId, status: Status, asked: bool)
      reads `landing, `story, `line
    {
      (status == Deployed <==> id in landing) && Justified(batch, deploy, Tale(story, line), id, status, asked)
    }

    /** The job's row asks for a cancel. */
    ghost predicate AsksCancel(id: JobId)
      reads `rows
    {
      id in rows && rows[id].cancelRequested
    }

    /** The last event calls for nothing. */
    ghost predicate Calm()
      reads `story
    {
      story.owed == Nothing
    }

    /** What the last event calls for is what this exception leads to. */
    ghost predicate Answerable(exc: Exc)
      reads `story
    {
      match story.owed
      case Nothing => exc != Ambiguous
      case FailedGates => exc == CommandFailed
      case OpenPush => exc == Ambiguous
      case LandedPush => false
    }

    /** The train is one of this runner's. */
    ghost predicate Ours(run: TrainRun) {
      run.deploy == deploy && (run.deployingValidated <==> ShipsWhole(batch, deploy))
    }

    /** There is a reason to record all these jobs with the status. */
    ghost predicate Reasoned(ids: set<JobId>, status: Status)
      reads `story
    {
      match status
      case Failed => ids <= story.doomed
      case Blocked => ids <= story.blamed || BlocksWhole(batch, deploy, story.blamed)
      case NeedsReconcile => ids <= story.unsure
      case Canceled => ids <= story.canceled
      case Queued => ids <= story.freed
      case _ => true
    }

    ghost predicate Held(id: JobId)
      reads `held
    {
      id in held
    }

    /** What every part of a train does to the shared state: it never regains a claim or
        the lease, and never loses a row. */
    twostate predicate Evolved()
      reads `rows, `held, `lockMine, `nextTrain
    {
      && (lockMine ==> old(lockMine))
      && (forall id <- old(rows) :: id in rows)
      && held <= old(held)
      && old(nextTrain) <= nextTrain
    }

    /** No row became validated under a train of this runner. */
    twostate predicate NoNewReady()
      reads `ready
    {
      ready <= old(ready)
    }

    /** No row became validated under a train created before serial `from`. */
    twostate predicate OldReadyKept(from: nat)
      reads `ready
    {
      forall n <- ready :: n < from ==> n in old(ready)
    }

    ghost predicate Known(jobs: seq<Job>)
      reads `rows
    {
      forall j <- jobs :: j.id in rows
    }

    ghost predicate Released(jobs: seq<Job>)
      reads `held
    {
      forall j <- jobs :: !Held(j.id)
    }

    /** At most one train with a validated row is of serial `from` or later. */
    ghost predicate OneReady(from: nat)
      reads `ready
    {
      forall a <- ready, b <- ready :: a >= from && b >= from ==> a == b
    }

    ghost predicate NoReady(from: nat)
      reads `ready
    {
      forall n <- ready :: n < from
    }

    /** No push is open, or this runner can no longer write. */
    ghost predicate ParkFree()
      reads `story, `lockMine
    {
      !story.parked || !lockMine
    }

    /** A park is visible in the results, unless the lease is gone. */
    ghost predicate ParkReported(results: seq<Result>)
      reads `story, `lockMine
    {
      ParkFree() || exists r <- results :: r.status == NeedsReconcile
    }

    ghost predicate ReadyReported(results: seq<Result>, from: nat)
      reads `ready
    {
      NoReady(from) || exists r <- results :: r.status == Validated
    }

    // ------------------------------------------------------------ the environment

    /** Other processes run. */
    method Interfere()
      requires Sound()
      modifies `rows, `lockMine, `held
      ensures Sound() && Evolved()
      ensures Rely(old(rows), rows, lease, old(lockMine), lockMine)
    {
      var after: map<JobId, Row> := *;
      var lockAfter: bool := *;
      assert Rely(rows, rows, lease, lockMine, lockMine);
      if Rely(rows, after, lease, lockMine, lockAfter) {
        RelyKeeps(rows, after, lease, lockMine, lockAfter);
        rows, lockMine, held := after, lockAfter, HeldIn(after, lease);
      }
    }

    /** A step that may raise: a pulse, an event write, a Git command. */
    method Risk() returns (exc: Exc)
      requires Sound()
      modifies `rows, `lockMine, `held
      ensures Sound() && Evolved() && Raisable(exc)
    {
      Interfere();
      exc := *;
      if !Raisable(exc) { exc := Unexpected; }
    }

    /** Log a step on the way to a push, which does not change what the log comes to. */
    method Note(e: Event)
      requires Valid() && ArmsPush(e)
      modifies `log
      ensures Valid() && log == old(log) + [e]
    {
      TellsMore(batch, deploy, outside, log, Tale(story, line), e);
      NothingTold(Tale(story, line), |log|, e);
      log := log + [e];
    }

    /** Log anything but a landing, a row write, or a step of an isolation. */
    method Append(e: Event)
      requires Sound() && MayLog(e)
      requires !e.PushLanded? && !e.Wrote? && !MovesLine(e)
      modifies `log, `story
      ensures Sound() && log == old(log) + [e]
      ensures story == Told(old(story), e) && TellsOnly(old(story), story, e)
    {
      TellsMore(batch, deploy, outside, log, Tale(story, line), e);
      NoneLanded(Tale(story, line), |log|, e);
      log, story := log + [e], Told(story, e);
    }

    /** Whether the claim holds the row, as a write checks. */
    predicate Holds(id: JobId)
      reads `rows
    {
      id in rows && HeldRow(rows[id], lease)
    }

    /** Read a row back, after other processes may have changed it. */
    method ReadBack(id: JobId, ghost others: set<nat>) returns (now: Status)
      requires Valid() && id in rows && ReadyBut(rows, id, others) && others <= ready
      modifies `rows, `lockMine, `held, `ready
      ensures Valid() && Evolved() && Rely(old(rows), rows, lease, old(lockMine), lockMine)
      ensures now == rows[id].status && ready == if now == Validated then old(ready) else others
    {
      Interfere();
      now := rows[id].status;
      if now != Validated {
        RelyKeepsBut(old(rows), rows, lease, old(lockMine), lockMine, id, others);
        ready := others;
      }
    }

    // ------------------------------------------------------------ row writes

    /** The claim holds the row, and no cancel request stands in the way of the status. */
    predicate MayMark(rows: map<JobId, Row>, id: JobId, status: Status) {
      id in rows && HeldRow(rows[id], lease) && (rows[id].cancelRequested ==> IgnoresCancel(status))
    }

    /** `mark_job` under this runner's claim token; returns the row as read back. */
    method MarkJob(id: JobId, status: Status, train: Train) returns (exc: Exc, now: Status)
      requires Valid() && id in rows && MayWriteFor(id, status, AsksCancel(id))
      requires if status == Validated then train.Mine? && train.serial < nextTrain else train == NoTrain
      modifies `rows, `lockMine, `held, `ready, `log, `story
      ensures Valid() && Evolved() && Quiet(status == NeedsReconcile)
      ensures exc.NoExc? || exc.LostLease? || exc.Canceling? || exc.Busy?
      ensures exc == Canceling ==> !IgnoresCancel(status) && AsksCancel(id)
      ensures if exc == NoExc then GrewByWrite(old(log), log, id, status) else log == old(log)
      ensures exc == NoExc && status != InProgress ==> !Held(id)
      ensures exc == NoExc ==> MayMark(old(rows), id, status)
      ensures exc == NoExc && status == NeedsReconcile && now != NeedsReconcile ==> !lockMine
      ensures AddsReady(train) && ((exc == NoExc && status == now == Validated) || NoNewReady())
    {
      now := status;
      Interfere();
      var busy: bool := *;
      if busy { return Busy, now; }
      if !Holds(id) { return LostLease, now; }
      if rows[id].cancelRequested && !IgnoresCancel(status) { return Canceling, now; }
      now := WriteAndRead(id, status, train);
      exc := NoExc;
    }

    /** Write the row, and read it back. */
    method WriteAndRead(id: JobId, status: Status, train: Train) returns (now: Status)
      requires Valid() && Held(id) && MayWriteFor(id, status, AsksCancel(id))
      requires AsksCancel(id) ==> OverridesCancel(status)
      requires if status == Validated then train.Mine? && train.serial < nextTrain else train == NoTrain
      modifies `rows, `lockMine, `held, `ready, `log, `story
      ensures Valid() && Evolved() && Quiet(status == NeedsReconcile)
      ensures log == old(log) + [Wrote(id, status, old(rows)[id].cancelRequested)]
      ensures status != InProgress ==> !Held(id)
      ensures status == NeedsReconcile && now != NeedsReconcile ==> !lockMine
      ensures AddsReady(train) && (status == now == Validated || NoNewReady())
    {
      WriteRow(id, status, train);
      now := ReadBack(id, old(ready));
    }

    /** The one UPDATE of `mark_job`. */
    method WriteRow(id: JobId, status: Status, train: Train)
      requires Valid() && Held(id) && MayWriteFor(id, status, AsksCancel(id))
      requires AsksCancel(id) ==> OverridesCancel(status)
      requires if status == Validated then train.Mine? && train.serial < nextTrain else train == NoTrain
      modifies `rows, `held, `ready, `log, `story
      ensures Valid() && Evolved() && Quiet(status == NeedsReconcile) && AddsReady(train)
      ensures rows == old(rows)[id := MarkRow(old(rows)[id], status, train)]
      ensures log == old(log) + [Wrote(id, status, old(rows)[id].cancelRequested)]
      ensures status != InProgress ==> !Held(id)
      ensures ReadyBut(rows, id, old(ready)) && old(ready) <= ready
    {
      var asked := rows[id].cancelRequested;
      SetRow(id, status, train);
      LogWrite(id, status, asked);
    }

    method SetRow(id: JobId, status: Status, train: Train)
      requires Valid() && Held(id)
      requires if status == Validated then train.Mine? && train.serial < nextTrain else train == NoTrain
      modifies `rows, `held, `ready
      ensures Valid() && Evolved() && AddsReady(train)
      ensures rows == old(rows)[id := MarkRow(old(rows)[id], status, train)]
      ensures status != InProgress ==> !Held(id)
      ensures ReadyBut(rows, id, old(ready)) && old(ready) <= ready
    {
      MarkKeeps(rows, lease, id, status, train, ready);
      rows := rows[id := MarkRow(rows[id], status, train)];
      held := if status == InProgress then held else held - {id};
      ready := if status == Validated then ready + {train.serial} else ready;
    }

    method LogWrite(id: JobId, status: Status, asked: bool)
      requires Valid() && MayLog(Wrote(id, status, asked))
      modifies `log, `story
      ensures Valid() && Quiet(status == NeedsReconcile)
      ensures log == old(log) + [Wrote(id, status, asked)]
    {
      TellsMore(batch, deploy, outside, log, Tale(story, line), Wrote(id, status, asked));
      WriteTells(Tale(story, line), |log|, id, status, asked);
      log, story := log + [Wrote(id, status, asked)], story.(parked := story.parked || status == NeedsReconcile);
    }

    /** Only rows were written, and no job was parked unless that was asked for. */
    twostate predicate Quiet(parks: bool)
      reads `story
    {
      story == old(story) || (parks && story == old(story).(parked := true))
    }

    /** No row became validated under another train of this runner. */
    twostate predicate AddsReady(train: Train)
      reads `ready
    {
      forall n <- ready :: n in old(ready) || train == Mine(n)
    }

    /** Nothing but the worktree was worked on. */
    twostate predicate Building()
      reads `story
    {
      story == old(story).(tree := story.tree, accepted := story.accepted, blamed := story.blamed)
    }

    /** No push of this frame is being recorded, and its own isolations are over. */
    twostate predicate Rested()
      reads `landing, `line
    {
      landing == {} && line == old(line)
    }

    /** `_finish_job`: write the status, or `canceled` when a cancel request stands in the
        way, then record its event. */
    method FinishJob(id: JobId, status: Status, train: Train) returns (exc: Exc, r: Result)
      requires Valid() && id in rows && MayWrite(id, status) && status != InProgress
      requires if status == Validated then train.Mine? && train.serial < nextTrain else train == NoTrain
      modifies `rows, `lockMine, `held, `ready, `log, `story
      ensures Valid() && Evolved() && Quiet(status == NeedsReconcile)
      ensures Leaves(exc)
      ensures r.job == id
      ensures WroteAtMost(old(log), log, id, status)
      ensures exc == NoExc ==> !Held(id) && log != old(log)
      ensures exc == NoExc && status == NeedsReconcile && r.status != NeedsReconcile ==> !lockMine
      ensures AddsReady(train) && ((status == Validated && (exc == NoExc ==> r.status == Validated)) || NoNewReady())
    {
      var now;
      exc, now := MarkJob(id, status, train);
      if exc == Canceling {
        exc, now := MarkJob(id, Canceled, NoTrain);
      }
      r := Result(id, now);
      if exc == NoExc && now !in {Queued, InProgress, NeedsReconcile} {
        // the event write goes through the same contended database
        var busy: bool := *;
        if busy { exc := Busy; }
      }
    }

    /** The log grew by the writes of the first listed jobs, in order, each with `status`
        unless a cancel request stood in the way. */
    twostate predicate FinishedTo(ids: seq<JobId>, status: Status)
      reads `log
    {
      FinishedSince(old(log), log, ids, status)
    }

    /** The log grew by writes for the listed jobs only, with `status` or `canceled`. */
    twostate predicate WroteOnly(jobs: seq<Job>, status: Status)
      reads `log
    {
      WritesSince(old(log), log, jobs, status)
    }

    /** Finish the next listed job. */
    method FinishNext(ghost since: seq<Event>, ids: seq<JobId>, k: nat, status: Status) returns (exc: Exc, r: Result)
      requires Valid() && k < |ids| && ids[k] in rows && MayWrite(ids[k], status) && status in {Blocked, Failed}
      requires FinishedSince(since, log, ids, status) && |log| == |since| + k
      modifies `rows, `lockMine, `held, `ready, `log, `story
      ensures Valid() && Evolved() && Quiet(false) && NoNewReady()
      ensures Leaves(exc)
      ensures FinishedSince(since, log, ids, status)
      ensures exc == NoExc ==> !Held(ids[k]) && |log| == |since| + k + 1
    {
      exc, r := FinishJob(ids[k], status, NoTrain);
      NextFinish(since, old(log), log, ids, k, status);
    }

    /** Finish every listed job with one status. */
    method FinishIds(ids: seq<JobId>, status: Status) returns (exc: Exc, results: seq<Result>)
      requires Valid() && (forall id <- ids :: id in rows) && landing == {}
      requires (status == Blocked || status == Failed) && Reasoned(IdsIn(ids), status)
      modifies `rows, `lockMine, `held, `ready, `log, `story
      ensures Valid() && Evolved() && Quiet(false) && NoNewReady()
      ensures Leaves(exc)
      ensures FinishedTo(ids, status)
      ensures exc == NoExc ==> |log| == |old(log)| + |ids| && forall id <- ids :: !Held(id)
    {
      hide LogTells;
      results := [];
      for k := 0 to |ids|
        invariant Valid() && Evolved() && Quiet(false) && NoNewReady() && (forall id <- ids :: id in rows)
        invariant FinishedTo(ids, status) && |log| == |old(log)| + k
        invariant forall i | 0 <= i < k :: !Held(ids[i])
      {
        var r;
        assert ids[k] in IdsIn(ids) && ids[k] in ids;
        exc, r := FinishNext(old(log), ids, k, status);
        if exc != NoExc { return; }
        results := results + [r];
      }
      exc := NoExc;
    }

    /** Finish a whole train with one status (`block_all`, a failed validated train). */
    method FinishAll(jobs: seq<Job>, status: Status) returns (exc: Exc, results: seq<Result>)
      requires Valid() && Known(jobs) && landing == {}
      requires (status == Blocked || status == Failed) && Reasoned(IdSet(jobs), status)
      modifies `rows, `lockMine, `held, `ready, `log, `story
      ensures Valid() && Evolved() && Quiet(false) && NoNewReady()
      ensures Leaves(exc)
      ensures FinishedTo(Ids(jobs), status)
      ensures exc == NoExc ==> |log| == |old(log)| + |jobs| && Released(jobs)
    {
      IdsListed(jobs);
      exc, results := FinishIds(Ids(jobs), status);
      assert forall j <- jobs :: j.id in IdsIn(Ids(jobs));
    }

    /** Finish one job if the claim still holds it. */
    method FinishIfHeld(id: JobId, status: Status) returns (exc: Exc, wrote: bool, r: Result)
      requires Valid() && id in rows && (Held(id) ==> MayWrite(id, status))
      requires status !in {Validated, InProgress}
      modifies `rows, `lockMine, `held, `ready, `log, `story
      ensures Valid() && Evolved() && Quiet(wrote && status == NeedsReconcile) && NoNewReady()
      ensures Leaves(exc)
      ensures exc == NoExc ==> !Held(id)
      ensures WroteAtMost(old(log), log, id, status)
      ensures exc == NoExc && log != old(log) ==> wrote
      ensures exc == NoExc && wrote && status == NeedsReconcile && r.status != NeedsReconcile ==> !lockMine
      ensures r.job == id
    {
      Interfere();
      wrote := Holds(id);
      if wrote {
        exc, r := FinishJob(id, status, NoTrain);
      } else {
        exc, r := NoExc, Result(id, rows[id].status);
      }
    }

    /** `_merge_sha_for_job`: the exact commit a job may be merged with, of the branch as Git
        has it. */
    method MergeShaForJob(job: Job, validated: bool, branch: Branch) returns (exc: Exc, sha: Commit)
      ensures exc == (if Unmoved(job, validated, branch) then NoExc else Refused)
      ensures exc == NoExc ==> branch.Tip? && sha == branch.commit
      ensures exc == NoExc && Expected(job, validated) != NoCommit ==> sha == Expected(job, validated)
    {
      if branch.Gone? { return Refused, NoCommit; }
      var recorded := Expected(job, validated);
      if recorded == NoCommit { return NoExc, branch.commit; }
      if !branch.recordedResolves || branch.commit != recorded { return Refused, NoCommit; }
      return NoExc, recorded;
    }

    /** The worktree is where the log of this train has it. Without what came after `tip`, it
        holds the base and every merge that moved HEAD, and those are the merged jobs' merges
        and the strayed ones. */
    ghost predicate Follows(run: TrainRun, tip: Commit)
      reads `story, run`head, run`base, run`merged, run`mergeShas
    {
      run.MergedKnown() && Tracks(story.tree, run.base, run.head, tip, run.merged, run.mergeShas)
    }

    ghost predicate OnTrack(run: TrainRun)
      reads `story, run`head, run`base, run`merged, run`mergeShas
    {
      run.Pinned() && Follows(run, run.head)
    }

    lemma Riders(run: TrainRun)
      requires Riding(run, |run.jobs|)
      ensures forall j <- run.merged :: j in run.jobs
    {
      ClaimOrderMembers(run.merged, run.jobs, |run.jobs|);
    }

    /** Every job of the train is merged or no longer held. */
    ghost predicate Settled(run: TrainRun)
      reads `held, run`merged
    {
      SettledTo(run, |run.jobs|)
    }

    ghost predicate SettledTo(run: TrainRun, k: nat)
      requires k <= |run.jobs|
      reads `held, run`merged
    {
      forall i | 0 <= i < k :: run.jobs[i] in run.merged || !Held(run.jobs[i].id)
    }

    /** The merged jobs are some of the first `k`, in claim order. */
    ghost predicate Riding(run: TrainRun, k: nat)
      requires k <= |run.jobs|
      reads run`merged
    {
      InClaimOrder(run.merged, run.jobs, k)
    }

    /** A validated train has lost none of its first `k` jobs. */
    ghost predicate Whole(run: TrainRun, k: nat)
      reads run`merged
    {
      run.deployingValidated ==> |run.merged| == k
    }

    /** What one step of the assembly keeps, and what it establishes for the jobs so far. */
    twostate predicate Assembling(run: TrainRun, k: nat)
      requires k <= |run.jobs|
      reads this, run
    {
      && Valid() && Evolved() && Building() && NoNewReady() && Riding(run, k)
      && (run.deployingValidated ==> run.mergeShas == old(run.mergeShas))
    }

    ghost predicate ReadyToMerge(run: TrainRun, k: nat)
      reads this, run
    {
      && Valid() && Known(run.jobs) && DistinctJobs(run.jobs) && k < |run.jobs| && landing == {} && Ours(run)
      && OnTrack(run) && Riding(run, k) && Whole(run, k) && SettledTo(run, k)
    }

    /** A commit this job may be merged with was resolved. */
    ghost predicate Resolved(run: TrainRun, job: Job)
      reads run`mergeShas
    {
      && job.id in run.mergeShas
      && (Expected(job, run.deployingValidated) != NoCommit ==>
            run.mergeShas[job.id] == Expected(job, run.deployingValidated))
    }

    /** One step of `_assemble_train`: resolve and merge one job's commit, or block the job. */
    method AssembleOne(run: TrainRun, k: nat) returns (exc: Exc, stop: bool)
      requires ReadyToMerge(run, k)
      requires run.deployingValidated ==> Resolved(run, run.jobs[k])
      modifies `rows, `lockMine, `held, `ready, `log, `story
      modifies run`mergeShas, run`head, run`clean, run`merged, run`results
      ensures Assembling(run, k + 1)
      ensures Raisable(exc)
      ensures exc == NoExc && stop ==> Released(run.jobs)
      ensures exc == NoExc && !stop ==> OnTrack(run) && SettledTo(run, k + 1) && Whole(run, k + 1)
    {
      hide LogTells, Follows, InClaimOrder;
      stop := false;
      var blocked;
      exc, blocked := ResolveOne(run, k);
      ClaimOrderLonger(run.merged, run.jobs, k);
      if exc != NoExc || blocked { return; }
      exc, stop := MergeOne(run, k);
    }

    /** Resolve the job's commit, or block the job when its branch moved. */
    method ResolveOne(run: TrainRun, k: nat) returns (exc: Exc, blocked: bool)
      requires ReadyToMerge(run, k)
      requires run.deployingValidated ==> Resolved(run, run.jobs[k])
      modifies `rows, `lockMine, `held, `ready, `log, `story, run`mergeShas, run`results
      ensures Valid() && Evolved() && Building() && NoNewReady()
      ensures run.deployingValidated ==> run.mergeShas == old(run.mergeShas)
      ensures Raisable(exc)
      ensures exc == NoExc ==> OnTrack(run) && if blocked then !Held(run.jobs[k].id) else Resolved(run, run.jobs[k])
      ensures blocked ==> !run.deployingValidated
    {
      hide LogTells;
      var job := run.jobs[k];
      blocked := false;
      exc := Risk();
      if exc != NoExc || run.deployingValidated { return; }
      var sha;
      var branch: Branch := *;
      exc, sha := MergeShaForJob(job, false, branch);
      if exc == Refused {
        blocked := true;
        exc := BlockMoved(run, job);
        return;
      }
      RidesNext(run.jobs, run.merged, k);
      KeepPins(run.merged, run.mergeShas, job, sha);
      run.mergeShas := run.mergeShas[job.id := sha];
    }

    /** The job's branch is not where it was recorded, or is gone. */
    method BlockMoved(run: TrainRun, job: Job) returns (exc: Exc)
      requires Valid() && job.id in rows && landing == {}
      modifies `rows, `lockMine, `held, `ready, `log, `story, run`results
      ensures Valid() && Evolved() && NoNewReady() && story == old(story).(blamed := story.blamed)
      ensures Leaves(exc)
      ensures exc == NoExc ==> !Held(job.id)
    {
      Append(HeadMoved(job.id));
      exc := BlockJob(run, job);
    }

    /** The merge itself. */
    method MergeOne(run: TrainRun, k: nat) returns (exc: Exc, stop: bool)
      requires ReadyToMerge(run, k) && Resolved(run, run.jobs[k])
      modifies `rows, `lockMine, `held, `ready, `log, `story, run`head, run`clean, run`merged, run`results
      ensures Valid() && Evolved() && Building() && NoNewReady()
      ensures Riding(run, k + 1)
      ensures Raisable(exc)
      ensures exc == NoExc && stop ==> Released(run.jobs)
      ensures exc == NoExc && !stop ==> OnTrack(run) && SettledTo(run, k + 1) && Whole(run, k + 1)
    {
      hide LogTells, Follows, InClaimOrder;
      stop := false;
      exc := Risk();
      ClaimOrderLonger(run.merged, run.jobs, k);
      if exc != NoExc { return; }
      var preMergeHead := run.head;
      ghost var before := run.merged;
      var outcome := Merge(run, k);
      if outcome.CleanMerge? {
        SettleMerged(run, before, k);
      } else {
        exc, stop := FailedMerge(run, k, outcome, preMergeHead);
      }
    }

    lemma SettleMerged(run: TrainRun, before: seq<Job>, k: nat)
      requires k < |run.jobs| && run.merged == before + [run.jobs[k]]
      requires forall i | 0 <= i < k :: run.jobs[i] in before || !Held(run.jobs[i].id)
      ensures SettledTo(run, k + 1)
    {
    }

    /** What follows a merge that did not end clean. */
    method FailedMerge(run: TrainRun, k: nat, outcome: MergeOutcome, preMergeHead: Commit)
      returns (exc: Exc, stop: bool)
      requires Valid() && Known(run.jobs) && k < |run.jobs| && SettledTo(run, k) && landing == {} && Ours(run)
      requires !outcome.CleanMerge? && run.Pinned() && run.jobs[k].id in story.blamed
      requires Follows(run, if outcome.DirtyMerge? then preMergeHead else run.head)
      modifies `rows, `lockMine, `held, `ready, `log, `story, run`head, run`clean, run`results
      ensures Valid() && Evolved() && Building() && NoNewReady()
      ensures Raisable(exc)
      ensures exc == NoExc ==> if stop then Released(run.jobs) else SettledTo(run, k + 1) && OnTrack(run)
      ensures !stop ==> !run.deployingValidated
    {
      stop := run.deployingValidated;
      if stop {
        assert run.jobs[k].id in story.blamed;
        exc := BlockTrain(run);
      } else {
        exc := AfterFailedMerge(run, run.jobs[k], outcome, preMergeHead);
      }
    }

    /** `block_all`: a validated train deploys whole or not at all. */
    method BlockTrain(run: TrainRun) returns (exc: Exc)
      requires Valid() && Known(run.jobs) && landing == {} && run.deployingValidated && Ours(run)
      requires story.blamed != {}
      modifies `rows, `lockMine, `held, `ready, `log, `story
      ensures Valid() && Evolved() && Quiet(false) && NoNewReady()
      ensures Leaves(exc)
      ensures FinishedTo(Ids(run.jobs), Blocked)
      ensures exc == NoExc ==> |log| == |old(log)| + |run.jobs| && Released(run.jobs)
    {
      var ignored;
      exc, ignored := FinishAll(run.jobs, Blocked);
    }

    /** Git merges the job's commit in the train's worktree. */
    method GitMerge(run: TrainRun, job: Job) returns (outcome: MergeOutcome)
      requires Valid() && job.id in run.mergeShas
      modifies `log, `story, run`head, run`clean
      ensures Valid() && log == old(log) + [MergeRan(job, run.mergeShas[job.id], outcome)]
      ensures Building() && story.tree == AfterMerge(old(story).tree, job, run.mergeShas[job.id], outcome)
      ensures !outcome.CleanMerge? ==> job.id in story.blamed
      ensures run.head == if outcome.FailedInPlace? then old(run.head) else Merged(old(run.head), run.mergeShas[job.id])
    {
      outcome := outside.merges(Asked(log));
      if !outcome.FailedInPlace? {
        run.head := Merged(run.head, run.mergeShas[job.id]);
      }
      run.clean := *;
      Append(MergeRan(job, run.mergeShas[job.id], outcome));
    }

    /** Git resets the train's worktree. */
    method GitReset(run: TrainRun, to: Commit)
      requires Valid()
      modifies `log, `story, run`head, run`clean
      ensures Valid() && log == old(log) + [WorktreeReset(to)]
      ensures story == old(story).(tree := old(story).tree.(head := to, gated := false))
      ensures run.head == to
    {
      run.head, run.clean := to, *;
      Append(WorktreeReset(to));
    }

    /** Merge the next job, and count it as merged if that ended clean. */
    method Merge(run: TrainRun, k: nat) returns (outcome: MergeOutcome)
      requires Valid() && k < |run.jobs| && Riding(run, k)
      requires OnTrack(run) && Resolved(run, run.jobs[k])
      modifies `log, `story, run`head, run`clean, run`merged
      ensures Valid() && Building()
      ensures run.Pinned() && Riding(run, k + 1)
      ensures run.merged == if outcome.CleanMerge? then old(run.merged) + [run.jobs[k]] else old(run.merged)
      ensures Follows(run, if outcome.DirtyMerge? then old(run.head) else run.head)
      ensures !outcome.CleanMerge? ==> run.jobs[k].id in story.blamed
    {
      ghost var tree, head := story.tree, run.head;
      outcome := GitMerge(run, run.jobs[k]);
      MergeKeeps(run.jobs, run.merged, run.mergeShas, run.deployingValidated, k, outcome);
      MergeTracks(tree, run.base, head, run.merged, run.mergeShas, run.jobs[k], outcome);
      run.merged := MergedAfter(run.merged, run.jobs[k], outcome);
    }

    /** Block the job whose merge did not end clean, and undo what the merge left. */
    method AfterFailedMerge(run: TrainRun, job: Job, outcome: MergeOutcome, preMergeHead: Commit) returns (exc: Exc)
      requires Valid() && job.id in rows && landing == {}
      requires !outcome.CleanMerge? && run.Pinned() && job.id in story.blamed
      requires Follows(run, if outcome.DirtyMerge? then preMergeHead else run.head)
      modifies `rows, `lockMine, `held, `ready, `log, `story, run`head, run`clean, run`results
      ensures Valid() && Evolved() && Building() && NoNewReady()
      ensures Raisable(exc)
      ensures exc == NoExc ==> !Held(job.id) && OnTrack(run)
    {
      exc := BlockJob(run, job);
      if exc != NoExc { return; }
      if outcome.DirtyMerge? {
        // the merge already committed, so go back to the tip before it
        exc := UndoMerge(run, preMergeHead);
      } else {
        run.clean := *;
      }
    }

    /** Go back to the tip before the merge. */
    method UndoMerge(run: TrainRun, preMergeHead: Commit) returns (exc: Exc)
      requires Valid() && run.Pinned() && Follows(run, preMergeHead)
      modifies `rows, `lockMine, `held, `log, `story, run`head, run`clean
      ensures Valid() && Evolved() && Building() && Raisable(exc)
      ensures exc == NoExc ==> OnTrack(run)
    {
      exc := Risk();
      if exc != NoExc { return; }
      GitReset(run, preMergeHead);
    }

    /** Block one job during assembly. */
    method BlockJob(run: TrainRun, job: Job) returns (exc: Exc)
      requires Valid() && job.id in rows && landing == {} && job.id in story.blamed
      modifies `rows, `lockMine, `held, `ready, `log, `story, run`results
      ensures Valid() && Evolved() && Quiet(false) && NoNewReady()
      ensures Leaves(exc)
      ensures exc == NoExc ==> !Held(job.id)
    {
      var r;
      exc, r := FinishJob(job.id, Blocked, NoTrain);
      run.results := run.results + [r];
    }

    /** `_finish_active_jobs`: finish each job the train still holds, report the others. */
    method FinishActiveJobs(run: TrainRun, status: Status) returns (exc: Exc, results: seq<Result>)
      requires Valid() && Known(run.jobs) && status in {Canceled, Queued} && landing == {}
      requires Reasoned(IdSet(run.jobs), status)
      modifies `rows, `lockMine, `held, `ready, `log, `story
      ensures Valid() && Evolved() && Quiet(false) && NoNewReady()
      ensures Leaves(exc)
      ensures WroteOnly(run.jobs, status)
      ensures exc == NoExc ==> Released(run.jobs)
    {
      results := [];
      for k := 0 to |run.jobs|
        invariant Valid() && Evolved() && Quiet(false) && NoNewReady() && Known(run.jobs)
        invariant Released(run.jobs[..k]) && WroteOnly(run.jobs, status)
      {
        var r, wrote;
        ghost var before := log;
        exc, wrote, r := FinishIfHeld(run.jobs[k].id, status);
        NextWrite(old(log), before, log, run.jobs, k, status);
        if exc != NoExc { return; }
        results := results + [r];
        assert run.jobs[..k + 1] == run.jobs[..k] + [run.jobs[k]];
      }
      exc := NoExc;
    }

    /** Finish one job if the claim still holds it, and append it to the train's results. */
    method FinishOneHeld(run: TrainRun, job: Job, status: Status) returns (exc: Exc)
      requires Valid() && job.id in rows && status !in {Validated, InProgress}
      requires Held(job.id) ==> MayWrite(job.id, status)
      requires ParkReported(run.results)
      modifies `rows, `lockMine, `held, `ready, `log, `story, run`results
      ensures Valid() && Evolved() && Quiet(status == NeedsReconcile) && NoNewReady()
      ensures Leaves(exc)
      ensures WroteAtMost(old(log), log, job.id, status)
      ensures exc == NoExc ==> !Held(job.id) && ParkReported(run.results)
    {
      var r, wrote;
      ghost var before := run.results;
      exc, wrote, r := FinishIfHeld(job.id, status);
      if exc != NoExc { return; }
      if wrote {
        run.results := run.results + [r];
      }
      assert forall e <- before :: e in run.results;
      assert wrote ==> r in run.results;
    }

    /** Finish the listed jobs the train still holds and append them to its results. */
    method FinishHeld(run: TrainRun, jobs: seq<Job>, status: Status) returns (exc: Exc)
      requires Valid() && Known(jobs) && status !in {Validated, InProgress}
      requires forall j <- jobs :: Held(j.id) ==> MayWrite(j.id, status)
      requires ParkReported(run.results)
      modifies `rows, `lockMine, `held, `ready, `log, `story, run`results
      ensures Valid() && Evolved() && Quiet(status == NeedsReconcile) && NoNewReady()
      ensures Leaves(exc)
      ensures WroteOnly(jobs, status)
      ensures exc == NoExc ==> Released(jobs) && ParkReported(run.results)
    {
      hide LogTells;
      for k := 0 to |jobs|
        invariant Valid() && Evolved() && Quiet(status == NeedsReconcile) && NoNewReady() && Known(jobs)
        invariant Released(jobs[..k]) && ParkReported(run.results)
        invariant WroteOnly(jobs, status)
        invariant forall j <- jobs :: Held(j.id) ==> MayWrite(j.id, status)
      {
        ghost var before := log;
        exc := FinishOneHeld(run, jobs[k], status);
        NextWrite(old(log), before, log, jobs, k, status);
        if exc != NoExc { return; }
        assert jobs[..k + 1] == jobs[..k] + [jobs[k]];
      }
      exc := NoExc;
    }

    /** Exactly the held jobs of a train that saw its push land are being recorded. */
    ghost predicate LandingKnown(run: TrainRun)
      reads `landing, `held, run`pushStatus, run`merged
    {
      && (run.pushStatus == Succeeded <==> landing != {})
      && (landing != {} ==>
            && landing == IdSet(run.merged)
            && forall j <- run.jobs :: Held(j.id) ==> j.id in landing)
    }

    /** The jobs an error settles: a validated train whole, else what was merged, if anything. */
    function Affected(run: TrainRun): seq<Job>
      reads run`merged
    {
      if run.deployingValidated then run.jobs else if run.merged != [] then run.merged else run.jobs
    }

    /** The status the jobs an error stopped are finished with: whatever was raised, a push
        this train saw land is recorded as deployed. */
    function SettledAs(run: TrainRun, status: Status): Status
      reads run`pushStatus
    {
      if run.pushStatus == Succeeded then Deployed else status
    }

    /** The log grew by writes that settle the affected jobs with `status` and send the
        claimed jobs the train never reached back to the queue. */
    twostate predicate SettledOrRequeued(run: TrainRun, status: Status)
      reads `log, run`merged
    {
      SettledSince(old(log), log, run.jobs, Affected(run), status)
    }

    /** Those are the merged jobs, or all of a train that is validated or has merged none. */
    lemma OnlyReachedJobsAreAffected(run: TrainRun, job: Job)
      requires job in run.jobs && Riding(run, |run.jobs|)
      ensures job in Affected(run) <==> run.deployingValidated || run.merged == [] || job in run.merged
      ensures forall j <- Affected(run) :: j in run.jobs
    {
      Riders(run);
    }

    /** `_finish_active_after_error`: finish the jobs an error stopped with what the train
        had reached, and requeue the claimed jobs it never reached. */
    method FinishActiveAfterError(run: TrainRun, status: Status) returns (exc: Exc, results: seq<Result>)
      requires Valid() && Known(run.jobs) && status !in {Validated, InProgress}
      requires status == Deployed ==> run.pushStatus == Succeeded
      requires Reasoned(IdSet(Affected(run)), status)
      requires Reasoned(IdSet(NotIn(run.jobs, Affected(run))), Queued)
      requires Riding(run, |run.jobs|)
      requires LandingKnown(run)
      requires ParkReported(run.results)
      modifies `rows, `lockMine, `held, `ready, `log, `story, run`results
      ensures Valid() && Evolved() && Quiet(status == NeedsReconcile) && NoNewReady()
      ensures Leaves(exc)
      ensures SettledOrRequeued(run, SettledAs(run, status))
      ensures exc == NoExc ==> Released(run.jobs) && ParkReported(results)
    {
      exc := FinishAffected(run, status);
      if exc == NoExc {
        ghost var settled := log;
        exc := RequeueUnreached(run);
        ThenRequeues(old(log), settled, log, run.jobs, Affected(run), SettledAs(run, status));
        if exc == NoExc { ReleasedAll(run.jobs, Affected(run)); }
      }
      results := run.results;
    }

    method FinishAffected(run: TrainRun, status: Status) returns (exc: Exc)
      requires Valid() && Known(run.jobs) && status !in {Validated, InProgress}
      requires status == Deployed ==> run.pushStatus == Succeeded
      requires Reasoned(IdSet(Affected(run)), status)
      requires Riding(run, |run.jobs|)
      requires LandingKnown(run)
      requires ParkReported(run.results)
      modifies `rows, `lockMine, `held, `ready, `log, `story, run`results
      ensures Valid() && Evolved() && Quiet(status == NeedsReconcile) && NoNewReady()
      ensures Leaves(exc)
      ensures SettledOrRequeued(run, SettledAs(run, status))
      ensures exc == NoExc ==> Released(Affected(run)) && ParkReported(run.results)
    {
      Riders(run);
      assert forall j <- Affected(run) :: Held(j.id) ==> MayWrite(j.id, SettledAs(run, status));
      exc := FinishHeld(run, Affected(run), SettledAs(run, status));
      SettlesAffected(old(log), log, run.jobs, Affected(run), SettledAs(run, status));
    }

    /** Send the claimed jobs the train never reached back to the queue. */
    method RequeueUnreached(run: TrainRun) returns (exc: Exc)
      requires Valid() && Known(run.jobs) && LandingKnown(run) && ParkReported(run.results)
      requires Reasoned(IdSet(NotIn(run.jobs, Affected(run))), Queued)
      modifies `rows, `lockMine, `held, `ready, `log, `story, run`results
      ensures Valid() && Evolved() && Quiet(false) && NoNewReady()
      ensures Leaves(exc)
      ensures WroteOnly(NotIn(run.jobs, Affected(run)), Queued)
      ensures exc == NoExc ==> Released(NotIn(run.jobs, Affected(run))) && ParkReported(run.results)
    {
      var unreached := NotIn(run.jobs, Affected(run));
      assert forall j <- unreached :: Held(j.id) ==> j.id !in landing;
      exc := FinishHeld(run, unreached, Queued);
    }

    lemma ReleasedAll(jobs: seq<Job>, affected: seq<Job>)
      requires Released(affected) && Released(NotIn(jobs, affected))
      ensures Released(jobs)
    {
      forall j <- jobs ensures !Held(j.id) {
        NotInCovers(jobs, affected, j);
      }
    }

    /** Requeue the jobs of `suffix` the claim still holds, in order. */
    method Requeue(suffix: seq<Job>) returns (exc: Exc, results: seq<Result>)
      requires Valid() && Known(suffix) && landing == {}
      requires line.Returning? && line.rest == Ids(suffix)
      modifies `rows, `lockMine, `held, `ready, `log, `story
      ensures Valid() && Evolved() && Quiet(false) && NoNewReady()
      ensures Leaves(exc)
      ensures exc == NoExc ==> Released(suffix)
      ensures old(log) <= log && RequeuedInOrder(log[|old(log)|..], Ids(suffix))
    {
      results := [];
      for k := 0 to |suffix|
        invariant Valid() && Evolved() && Quiet(false) && NoNewReady() && Known(suffix)
        invariant Released(suffix[..k])
        invariant old(log) <= log && RequeuedInOrder(log[|old(log)|..], Ids(suffix)[..k])
      {
        var r, wrote;
        ghost var before := log;
        exc, wrote, r := FinishIfHeld(suffix[k].id, Queued);
        NextRequeue(old(log), before, log, Ids(suffix), k);
        if exc != NoExc {
          RequeueCut(log[|old(log)|..], Ids(suffix), k + 1);
          return;
        }
        results := results + [r];
        assert suffix[..k + 1] == suffix[..k] + [suffix[k]];
      }
      assert suffix[..|suffix|] == suffix && Ids(suffix)[..|suffix|] == Ids(suffix);
      exc := NoExc;
    }

    /** `_assemble_train`: merge each job's exact commit onto the base, in train order. */
    method Assemble(run: TrainRun) returns (exc: Exc, stop: bool)
      requires Valid() && Known(run.jobs) && DistinctJobs(run.jobs) && landing == {} && Ours(run)
      requires OnTrack(run) && run.merged == []
      requires run.deployingValidated ==> forall j <- run.jobs :: Resolved(run, j)
      modifies `rows, `lockMine, `held, `ready, `log, `story
      modifies run`mergeShas, run`head, run`clean, run`merged, run`results, run`deploySha
      ensures Valid() && Evolved() && Building() && NoNewReady()
      ensures Riding(run, |run.jobs|)
      ensures Raisable(exc)
      ensures exc == NoExc && stop ==> Released(run.jobs)
      ensures exc == NoExc && !stop ==>
        && OnTrack(run) && Settled(run) && Whole(run, |run.jobs|)
        && run.merged != [] && run.deploySha == run.head
    {
      hide LogTells;
      stop := false;
      exc := Risk();
      if exc != NoExc { return; }
      exc, stop := AssembleAll(run);
      if exc != NoExc || stop { return; }
      if run.merged == [] {
        stop := true;
        return;
      }
      exc := Risk();
      run.deploySha := run.head;
    }

    method AssembleAll(run: TrainRun) returns (exc: Exc, stop: bool)
      requires Valid() && Known(run.jobs) && DistinctJobs(run.jobs) && landing == {} && Ours(run)
      requires OnTrack(run) && run.merged == []
      requires run.deployingValidated ==> forall j <- run.jobs :: Resolved(run, j)
      modifies `rows, `lockMine, `held, `ready, `log, `story
      modifies run`mergeShas, run`head, run`clean, run`merged, run`results
      ensures Assembling(run, |run.jobs|)
      ensures Raisable(exc)
      ensures exc == NoExc ==>
        if stop then Released(run.jobs) else OnTrack(run) && Settled(run) && Whole(run, |run.jobs|)
    {
      hide LogTells;
      exc, stop := NoExc, false;
      var k := 0;
      while k < |run.jobs| && exc == NoExc && !stop
        invariant k <= |run.jobs| && Assembling(run, k)
        invariant Raisable(exc)
        invariant exc == NoExc ==>
          if stop then Released(run.jobs) else OnTrack(run) && SettledTo(run, k) && Whole(run, k)
      {
        assert run.jobs[k] in run.jobs;
        exc, stop := AssembleOne(run, k);
        k := k + 1;
      }
      RidesInAll(run.jobs, run.merged, k);
    }

    /** Resolve every job of a validated train to the commit it was validated with. */
    method ResolveAll(run: TrainRun) returns (exc: Exc, moved: nat)
      requires OnTrack(run) && run.merged == [] && run.deployingValidated && DistinctJobs(run.jobs)
      modifies run`mergeShas
      ensures exc.NoExc? || exc.Refused?
      ensures OnTrack(run) && (exc == Refused ==> moved < |run.jobs|)
      ensures exc == NoExc ==> forall j <- run.jobs :: Resolved(run, j)
    {
      for k := 0 to |run.jobs|
        invariant forall j <- run.jobs[..k] :: Resolved(run, j)
        invariant OnTrack(run)
      {
        var sha;
        var branch: Branch := *;
        exc, sha := MergeShaForJob(run.jobs[k], true, branch);
        if exc == Refused { return exc, k; }
        ResolveKept(run.jobs, k);
        run.mergeShas := run.mergeShas[run.jobs[k].id := sha];
        assert run.jobs[..k + 1] == run.jobs[..k] + [run.jobs[k]];
      }
      return NoExc, |run.jobs|;
    }

    /** `_restore_validated_train`: check a validated train's heads, and restore its exact
        commit when the reuse decision allows. */
    method RestoreValidated(run: TrainRun) returns (exc: Exc, stop: bool)
      requires Valid() && Known(run.jobs) && DistinctJobs(run.jobs) && landing == {}
      requires run.deployingValidated && Ours(run)
      requires OnTrack(run) && run.merged == [] && run.reused == NoCommit
      modifies `rows, `lockMine, `held, `ready, `log, `story
      modifies run`mergeShas, run`head, run`clean, run`merged, run`deploySha, run`reused
      ensures Valid() && Evolved() && Building() && NoNewReady()
      ensures Riding(run, |run.jobs|)
      ensures Raisable(exc)
      ensures exc == NoExc && stop ==> Released(run.jobs)
      ensures exc == NoExc && !stop ==>
        && run.Pinned() && (forall j <- run.jobs :: Resolved(run, j))
        && if run.reused == NoCommit then OnTrack(run) && run.merged == []
           else ReusedWhole(run) && run.clean && run.deploySha == run.head == story.tree.head
    {
      stop := false;
      var moved;
      exc, moved := ResolveAll(run);
      if exc == Refused {
        stop := true;
        exc := BlockMovedTrain(run, moved);
        return;
      }
      if reuseEnabled {
        exc := TryReuse(run);
        WholeInClaimOrder(run.jobs, |run.jobs|);
        assert run.jobs[..|run.jobs|] == run.jobs;
      }
    }

    /** A job of a validated train is not where it was validated, so the train is blocked. */
    method BlockMovedTrain(run: TrainRun, moved: nat) returns (exc: Exc)
      requires Valid() && Known(run.jobs) && landing == {} && run.deployingValidated && Ours(run)
      requires moved < |run.jobs|
      modifies `rows, `lockMine, `held, `ready, `log, `story
      ensures Valid() && Evolved() && NoNewReady() && story == old(story).(blamed := story.blamed)
      ensures Leaves(exc)
      ensures exc == NoExc ==> Released(run.jobs)
    {
      Append(HeadMoved(run.jobs[moved].id));
      assert run.jobs[moved].id in story.blamed;
      exc := BlockTrain(run);
    }

    /** The whole train rides at the commit it was validated as, whose reuse was accepted. */
    ghost predicate ReusedWhole(run: TrainRun)
      reads `story, run`merged, run`reused, run`deploySha
    {
      && run.merged == run.jobs && run.deployingValidated
      && ValidatedAs(run.jobs, run.reused) && run.reused in story.accepted && run.deploySha == run.reused
    }

    /** Ask the reuse decision, and restore the exact validated commit when it is eligible. An
        eligible decision names the one commit the jobs were validated as. */
    method TryReuse(run: TrainRun) returns (exc: Exc)
      requires Valid() && run.Pinned() && run.merged == [] && run.reused == NoCommit
      requires run.deployingValidated && forall j <- run.jobs :: j.id in run.mergeShas
      modifies `rows, `lockMine, `held, `ready, `log, `story
      modifies run`head, run`clean, run`merged, run`deploySha, run`reused
      ensures Valid() && Evolved() && Building() && NoNewReady()
      ensures Raisable(exc)
      ensures run.merged == [] || run.merged == run.jobs
      ensures exc == NoExc ==>
        if run.reused == NoCommit then run.head == old(run.head) && story.tree == old(story).tree && run.merged == []
        else ReusedWhole(run) && run.clean && run.head == run.deploySha == story.tree.head
    {
      exc := Risk();
      if exc != NoExc { return; }
      var eligible: bool := *;
      var sha: Commit := *;
      if !eligible || !ValidatedAs(run.jobs, sha) {
        exc := if failOnMismatch then Refused else NoExc;
        return;
      }
      AcceptReuse(sha);
      exc := Risk();
      if exc != NoExc {
        run.reused := sha;
        return;
      }
      exc := Restore(run, sha);
    }

    /** The reuse of this commit was accepted. */
    method AcceptReuse(sha: Commit)
      requires Valid()
      modifies `log, `story
      ensures Valid() && story == old(story).(accepted := old(story).accepted + {sha})
    {
      Append(ReuseAccepted(sha));
    }

    /** Restore the accepted commit, and check that it was restored. */
    method Restore(run: TrainRun, sha: Commit) returns (exc: Exc)
      requires Valid() && run.merged == [] && run.deployingValidated
      requires ValidatedAs(run.jobs, sha) && sha in story.accepted
      modifies `log, `story, run`head, run`clean, run`merged, run`deploySha, run`reused
      ensures Valid() && story == old(story).(tree := story.tree)
      ensures exc.NoExc? || exc.Refused?
      ensures run.merged == if exc == NoExc then run.jobs else []
      ensures exc == NoExc ==>
        ReusedWhole(run) && run.clean && run.head == run.deploySha == story.tree.head && run.reused == sha
    {
      run.reused := sha;
      var restored: Commit := *;
      GitReset(run, restored);
      run.deploySha := run.head;
      if run.deploySha != run.reused || !run.clean { return Refused; }
      run.merged := run.jobs;
      return NoExc;
    }

    /** `_run_train_gates`: run or reuse the gates, then check that they left the gated
        commit and a clean tree. */
    method RunTrainGates(run: TrainRun) returns (exc: Exc)
      requires Valid() && Built(run)
      modifies `rows, `lockMine, `held, `log, `story, run`head, run`clean
      ensures Sound() && Evolved() && Raisable(exc) && Answerable(exc)
      ensures story == old(story).(tree := story.tree, owed := story.owed)
      ensures story.tree.merged == old(story).tree.merged
      ensures exc == NoExc ==> Built(run) && story.tree.gated
      ensures exc == NoExc ==> GateAnswer(outside, Asked(old(log))) == GateRun(NoExc, run.deploySha, true)
    {
      exc := Risk();
      if exc != NoExc { return; }
      exc := RunGates(run);
      if exc != NoExc { return; }
      exc := Risk();
    }

    /** Gates may move HEAD and leave anything behind; they are run over the tip. */
    method RunGates(run: TrainRun) returns (exc: Exc)
      requires Valid() && run.head == run.deploySha == story.tree.head
      modifies `rows, `lockMine, `held, `log, `story, run`head, run`clean
      ensures Sound() && Evolved() && Raisable(exc) && Answerable(exc)
      ensures story == old(story).(tree := story.tree, owed := story.owed)
      ensures story.tree.merged == old(story).tree.merged
      ensures exc == NoExc ==> run.head == run.deploySha && story.tree == old(story).tree.(gated := true)
      ensures exc == NoExc ==> GateAnswer(outside, Asked(old(log))) == GateRun(NoExc, run.deploySha, true)
    {
      var gatedCommit := run.head;
      Interfere();
      exc := GitGates(run, gatedCommit);
      if exc != NoExc { return; }
      var readable: bool := *;
      exc := AssertTreeUnchanged(run, readable);
    }

    /** The gates run over this commit, and end as the world says. */
    method GitGates(run: TrainRun, on: Commit) returns (raised: Exc)
      requires Valid()
      modifies `log, `story, run`head, run`clean
      ensures Sound() && Raisable(raised) && Answerable(raised)
      ensures story == old(story).(tree := story.tree, owed := story.owed)
      ensures story.tree == Replayed(old(story).tree, GatesRan(on, raised, run.head, run.clean))
      ensures GateRun(raised, run.head, run.clean) == GateAnswer(outside, Asked(old(log)))
    {
      hide LogTells, SoundPush, SoundBlame, SoundAbort, Justified;
      var answer := outside.gates(Asked(log));
      raised := answer.raised;
      if !Raisable(raised) { raised := Unexpected; }
      run.head, run.clean := answer.head, answer.clean;
      Append(GatesRan(on, raised, run.head, run.clean));
    }

    /** `assert_tree_unchanged`. */
    method AssertTreeUnchanged(run: TrainRun, readable: bool) returns (exc: Exc)
      ensures exc == (if readable && run.head == run.deploySha && run.clean then NoExc else Refused)
    {
      exc := if readable && run.head == run.deploySha && run.clean then NoExc else Refused;
    }

    /** `record_pending_push`: in one transaction, mark exactly the claimed jobs, unless a
        cancel request came first. */
    method RecordPendingPush(ids: seq<JobId>, sha: Commit) returns (exc: Exc)
      requires Valid()
      modifies `rows, `lockMine, `held, `log
      ensures Valid() && Evolved()
      ensures exc.NoExc? || exc.LostLease? || exc.Canceling? || exc.Busy?
      ensures exc == NoExc ==> MarkedBy(log, ids, sha)
      ensures exc == NoExc ==> forall id <- ids :: Holds(id) && rows[id].marker == sha
      ensures exc != NoExc ==> Rely(old(rows), rows, lease, old(lockMine), lockMine) && log == old(log)
    {
      Interfere();
      var busy: bool := *;
      if busy { return Busy; }
      if exists id <- ids :: !Holds(id) {
        return if exists id <- ids :: Holds(id) && rows[id].cancelRequested then Canceling else LostLease;
      }
      if exists id <- ids :: rows[id].cancelRequested { return Canceling; }
      SetMarkers(ids, sha);
      return NoExc;
    }

    /** Write the same marker for all listed jobs, in one transaction. */
    method SetMarkers(ids: seq<JobId>, sha: Commit)
      requires Valid() && forall id <- ids :: Holds(id)
      modifies `rows, `log
      ensures Valid() && Evolved()
      ensures log == old(log) + [MarkersWritten(ids, sha)]
      ensures forall id <- ids :: Holds(id) && rows[id].marker == sha
      ensures rows.Keys == old(rows).Keys
      ensures forall id <- rows :: rows[id] == if id in ids then old(rows)[id].(marker := sha) else old(rows)[id]
    {
      rows := map id | id in rows :: if id in ids then rows[id].(marker := sha) else rows[id];
      assert HeldIn(rows, lease) == HeldIn(old(rows), lease);
      Note(MarkersWritten(ids, sha));
    }

    /** `clear_rejected_push`: drop the marker of a push the remote refused. */
    method ClearRejectedPush(ids: seq<JobId>) returns (exc: Exc)
      requires Valid()
      modifies `rows, `lockMine, `held, `log
      ensures Valid() && Evolved()
      ensures Leaves(exc)
      ensures exc == NoExc ==> forall id <- ids :: Holds(id) && rows[id].marker == NoCommit
      ensures exc != NoExc ==> Rely(old(rows), rows, lease, old(lockMine), lockMine) && log == old(log)
    {
      Interfere();
      var busy: bool := *;
      if busy { return Busy; }
      if exists id <- ids :: !Holds(id) { return LostLease; }
      SetMarkers(ids, NoCommit);
      return NoExc;
    }

    /** The lease check that `git push` runs behind, after its push lock is taken. */
    method OwnershipPulse() returns (exc: Exc)
      requires Valid()
      modifies `rows, `lockMine, `held, `log
      ensures Valid() && Evolved()
      ensures Leaves(exc)
      ensures exc == NoExc ==> lockMine && log == old(log) + [LeaseSeen(true)]
      ensures Rely(old(rows), rows, lease, old(lockMine), lockMine)
    {
      Interfere();
      var busy: bool := *;
      if busy { return Busy; }
      Note(LeaseSeen(lockMine));
      exc := if lockMine then NoExc else LostLease;
    }

    /** The train is built: its jobs ride in order, and its deploy commit is the tip. */
    ghost predicate Built(run: TrainRun)
      reads `story, run`merged, run`mergeShas, run`deploySha, run`head, run`base, run`reused
    {
      && run.Pinned() && run.merged != [] && Riding(run, |run.jobs|) && Whole(run, |run.jobs|)
      && run.deploySha == run.head == story.tree.head
      && if run.reused == NoCommit then OnTrack(run) else ReusedWhole(run)
    }

    /** Start `git push`. */
    method StartPush(run: TrainRun)
      requires Valid() && !story.parked && Built(run) && story.tree.gated && deploy && Part(batch, run.jobs, true)
      requires Ours(run) && Marked(run) && ArmedBy(log, Ids(run.merged), run.deploySha)
      modifies `log, `story
      ensures Valid() && |log| == |old(log)| + 1 && log[|old(log)|].PushStarted?
      ensures story == old(story).(pushes := old(story).pushes + 1, flying := Ids(run.merged))
    {
      hide LogTells, EventOk;
      var e := PushStarted(run.deploySha, run.merged, PinsOf(run.merged, run.mergeShas), run.reused != NoCommit);
      PushIsSound(run, e);
      LogPush(e);
    }

    /** A push starts. */
    method LogPush(e: Event)
      requires Valid() && e.PushStarted? && MayLog(e)
      modifies `log, `story
      ensures Valid() && log == old(log) + [e]
      ensures story == old(story).(pushes := old(story).pushes + 1, flying := Ids(e.riders))
    {
      Append(e);
    }

    lemma PushIsSound(run: TrainRun, e: Event)
      requires Calm() && !story.parked && Built(run) && story.tree.gated && deploy && Ours(run)
      requires Part(batch, run.jobs, true)
      requires ArmedBy(log, Ids(run.merged), run.deploySha)
      requires e == PushStarted(run.deploySha, run.merged, PinsOf(run.merged, run.mergeShas), run.reused != NoCommit)
      ensures MayLog(e)
    {
      PartIsPart(batch, run.jobs, run.merged);
      assert run.deployingValidated == DeploysValidated(batch);
      forall i | 0 <= i < |e.pins| && Expected(e.riders[i], run.deployingValidated) != NoCommit
        ensures e.pins[i] == Expected(e.riders[i], run.deployingValidated)
      {
        assert e.riders[i] in run.merged;
      }
      if run.reused == NoCommit {
        StraightIsFold(story.tree.base, story.tree.head, story.tree.tasks, story.tree.strays);
      }
    }

    /** The push command ends. */
    method GitPush() returns (end: PushEnd)
      requires Valid()
      modifies `log, `story
      ensures Sound() && log == old(log) + [PushEnded(end)]
      ensures story == old(story).(owed := OwedBy(PushEnded(end))) && end == outside.pushes(Asked(old(log)))
    {
      end := outside.pushes(Asked(log));
      Append(PushEnded(end));
    }

    /** Take the lock of this push, which a push that is still running holds. */
    method TakePushLock(sha: Commit) returns (taken: bool)
      requires Valid()
      modifies `log, `story
      ensures Sound() && log == old(log) + [if taken then PushLockTaken(sha) else PushLockBusy(sha)]
      ensures story == if taken then old(story) else old(story).(owed := OpenPush)
    {
      taken := *;
      if taken { Note(PushLockTaken(sha)); } else { Append(PushLockBusy(sha)); }
    }

    /** The push of this train was seen to land. */
    method Land(run: TrainRun)
      requires Sound() && story.owed == LandedPush
      requires landing == {} && run.merged != [] && story.flying == Ids(run.merged)
      requires log != [] && log[|log| - 1] == PushEnded(Accepted)
      modifies `log, `story, `landing, run`pushStatus
      ensures Valid() && log == old(log) + [PushLanded(Ids(run.merged))]
      ensures story == old(story).(landed := old(story).landed + IdSet(run.merged), flying := [], owed := Nothing)
      ensures landing == IdSet(run.merged) && landing != {} && run.pushStatus == Succeeded
    {
      LogLanding(run.merged);
      landing := IdSet(run.merged);
      assert run.merged[0].id in landing;
      run.pushStatus := Succeeded;
    }

    /** These jobs were seen to land. */
    method LogLanding(jobs: seq<Job>)
      requires LogKnown() && MayLog(PushLanded(Ids(jobs)))
      modifies `log, `story
      ensures LogKnown() && log == old(log) + [PushLanded(Ids(jobs))]
      ensures story == old(story).(landed := old(story).landed + IdSet(jobs), flying := [], owed := Nothing)
    {
      var e := PushLanded(Ids(jobs));
      TellsMore(batch, deploy, outside, log, Tale(story, line), e);
      LandTells(Tale(story, line), |log|, jobs);
      log, story := log + [e], story.(landed := story.landed + IdSet(jobs), flying := [], owed := Nothing);
    }

    /** At most a push was started and seen to land. */
    twostate predicate Pushing()
      reads `story
    {
      && story.owed != FailedGates
      && story == old(story).(
           pushes := story.pushes, landed := story.landed, flying := story.flying, owed := story.owed)
    }

    /** `_push_and_verify` and `deploy_and_verify`: preflight, durable marker, atomic push,
        post-push verification. */
    method PushAndVerify(run: TrainRun) returns (exc: Exc)
      requires Valid() && ParkFree() && landing == {} && run.pushStatus == NotRun && run.merged != []
      requires Built(run) && story.tree.gated && deploy && Ours(run) && Part(batch, run.jobs, true)
      modifies `rows, `lockMine, `held, `log, `story, `landing, run`pushStatus
      ensures Sound() && Evolved() && Pushing() && Answerable(exc)
      ensures landing == if run.pushStatus == Succeeded then IdSet(run.merged) else {}
      ensures run.pushStatus == Succeeded <==> landing != {}
      ensures exc == NoExc ==> run.pushStatus == Succeeded
      ensures exc == AlreadyLanded ==> run.pushStatus != Succeeded
    {
      hide LogTells, Built;
      exc := BeforePush(run);
      if exc != NoExc { return; }
      exc := PushNow(run);
    }

    /** The armed push, and what follows it. */
    method PushNow(run: TrainRun) returns (exc: Exc)
      requires Valid() && !story.parked && landing == {} && run.pushStatus == Pending && run.merged != []
      requires Built(run) && story.tree.gated && deploy && Ours(run) && Part(batch, run.jobs, true)
      requires Marked(run) && ArmedBy(log, Ids(run.merged), run.deploySha)
      modifies `rows, `lockMine, `held, `log, `story, `landing, run`pushStatus
      ensures Sound() && Evolved() && Pushing() && Answerable(exc)
      ensures landing == if run.pushStatus == Succeeded then IdSet(run.merged) else {}
      ensures run.pushStatus == Succeeded <==> landing != {}
      ensures exc == NoExc ==> run.pushStatus == Succeeded
      ensures exc == AlreadyLanded ==> run.pushStatus != Succeeded
    {
      StartPush(run);
      exc := AfterPush(run);
    }

    /** Every merged job that is still held carries the marker of the train's push. */
    ghost predicate Marked(run: TrainRun)
      reads `rows, run`merged, run`deploySha
    {
      forall j <- run.merged :: Holds(j.id) ==> rows[j.id].marker == run.deploySha
    }

    /** No merged job of a refused push has lost its claim or kept its marker. */
    ghost predicate Unmarked(run: TrainRun)
      reads `rows, run`merged
    {
      forall j <- run.merged :: Holds(j.id) && rows[j.id].marker == NoCommit
    }

    lemma MarkedAll(run: TrainRun)
      requires forall id <- Ids(run.merged) :: Holds(id) && rows[id].marker == run.deploySha
      ensures Marked(run)
    {
      forall j <- run.merged ensures Holds(j.id) ==> rows[j.id].marker == run.deploySha {
        var i :| 0 <= i < |run.merged| && run.merged[i] == j;
        assert Ids(run.merged)[i] == j.id;
      }
    }

    lemma UnmarkedAll(run: TrainRun)
      requires forall id <- Ids(run.merged) :: Holds(id) && rows[id].marker == NoCommit
      ensures Unmarked(run)
    {
      forall j <- run.merged ensures Holds(j.id) && rows[j.id].marker == NoCommit {
        var i :| 0 <= i < |run.merged| && run.merged[i] == j;
        assert Ids(run.merged)[i] == j.id;
      }
    }

    /** Everything before the remote is touched: preflight, durable marker, pins, push
        lock and, behind the lock, the lease check. */
    method BeforePush(run: TrainRun) returns (exc: Exc)
      requires Valid() && run.pushStatus == NotRun
      modifies `rows, `lockMine, `held, `log, `story, run`pushStatus
      ensures Sound() && Evolved()
      ensures run.pushStatus != Succeeded && exc != AlreadyLanded
      ensures story == old(story).(owed := story.owed) && Answerable(exc) && story.owed != FailedGates
      ensures exc == NoExc ==> lockMine && run.pushStatus == Pending && Marked(run)
      ensures exc == NoExc ==> ArmedBy(log, Ids(run.merged), run.deploySha)
      ensures exc == Canceling ==> run.pushStatus == NotRun
      ensures exc == NoExc ==> story == old(story)
    {
      exc := Risk();
      if exc != NoExc { return; }
      exc := WriteMarker(run);
      if exc != NoExc { return; }
      exc := LockAndCheck(run);
    }

    /** The pins and the push lock and, behind the lock, the lease check. */
    method LockAndCheck(run: TrainRun) returns (exc: Exc)
      requires Valid() && Marked(run) && MarkedBy(log, Ids(run.merged), run.deploySha)
      modifies `rows, `lockMine, `held, `log, `story
      ensures Sound() && Evolved() && exc != AlreadyLanded && exc != Canceling
      ensures story == old(story).(owed := story.owed) && Answerable(exc) && story.owed != FailedGates
      ensures exc == NoExc ==> lockMine && Marked(run) && ArmedBy(log, Ids(run.merged), run.deploySha)
      ensures exc == NoExc ==> story == old(story)
    {
      hide LogTells;
      exc := PinAndLock(run);
      if exc != NoExc { return; }
      ghost var marked, owned := rows, lockMine;
      ghost var before := log;
      exc := OwnershipPulse();
      MarkersStay(run, marked, owned);
      assert exc == NoExc ==> log[..|log| - 1] == before;
    }

    /** The local pins of the push, and its lock, which another push may hold. */
    method PinAndLock(run: TrainRun) returns (exc: Exc)
      requires Valid() && MarkedBy(log, Ids(run.merged), run.deploySha)
      modifies `log, `story
      ensures Sound()
      ensures (exc.NoExc? || exc.Refused? || exc.Ambiguous?)
      ensures story == old(story).(owed := story.owed) && Answerable(exc) && story.owed != FailedGates
      ensures exc == NoExc ==> LockedBy(log, Ids(run.merged), run.deploySha)
      ensures exc == NoExc ==> story == old(story)
    {
      var pinned: bool := *;
      if !pinned { return Refused; }
      Note(PinsWritten(Ids(run.merged), run.deploySha));
      assert log[..|log| - 1] == old(log);
      ghost var pins := log;
      var taken := TakePushLock(run.deploySha);
      assert log[..|log| - 1] == pins;
      exc := if taken then NoExc else Ambiguous;
    }

    lemma MarkersStay(run: TrainRun, before: map<JobId, Row>, lockBefore: bool)
      requires Rely(before, rows, lease, lockBefore, lockMine)
      requires forall j <- run.merged :: j.id in before && HeldRow(before[j.id], lease) ==>
        before[j.id].marker == run.deploySha
      ensures Marked(run)
    {
    }

    /** The durable marker of the push, for exactly the jobs that ride. */
    method WriteMarker(run: TrainRun) returns (exc: Exc)
      requires Valid() && run.pushStatus == NotRun
      modifies `rows, `lockMine, `held, `log, run`pushStatus
      ensures Valid() && Evolved()
      ensures exc.NoExc? || exc.LostLease? || exc.Canceling? || exc.Busy?
      ensures exc == NoExc ==> MarkedBy(log, Ids(run.merged), run.deploySha)
      ensures run.pushStatus == if exc == Canceling then NotRun else Pending
      ensures exc == NoExc ==> Marked(run)
    {
      run.pushStatus := Pending;
      exc := RecordPendingPush(Ids(run.merged), run.deploySha);
      if exc == Canceling {
        // refused before the marker was written: nothing was pushed
        run.pushStatus := NotRun;
      }
      if exc == NoExc { MarkedAll(run); }
    }

    /** How the push ended, and the verification after a push that landed. */
    method AfterPush(run: TrainRun) returns (exc: Exc)
      requires Valid() && landing == {} && run.merged != [] && run.pushStatus == Pending
      requires story.flying == Ids(run.merged)
      modifies `rows, `lockMine, `held, `log, `story, `landing, run`pushStatus
      ensures Sound() && Evolved() && Pushing() && Answerable(exc)
      ensures landing == if run.pushStatus == Succeeded then IdSet(run.merged) else {}
      ensures run.pushStatus == Succeeded <==> landing != {}
      ensures exc == NoExc ==> run.pushStatus == Succeeded
      ensures exc == AlreadyLanded ==> run.pushStatus == PushFailed
      ensures exc == Ambiguous ==> run.pushStatus == Pending
      ensures run.pushStatus == PushFailed && (exc.Refused? || exc.AlreadyLanded?) ==> Unmarked(run)
    {
      hide LogTells;
      exc := Risk();
      if exc.LostLease? || exc.Busy? || exc.Unexpected? { return; }
      var end := GitPush();
      exc := Conclude(run, end);
    }

    /** What each end of the push command leads to. */
    method Conclude(run: TrainRun, end: PushEnd) returns (exc: Exc)
      requires Sound() && story.owed == OwedBy(PushEnded(end)) && log != [] && log[|log| - 1] == PushEnded(end)
      requires landing == {} && run.merged != [] && run.pushStatus == Pending && story.flying == Ids(run.merged)
      modifies `rows, `lockMine, `held, `log, `story, `landing, run`pushStatus
      ensures Sound() && Evolved() && Pushing() && Answerable(exc)
      ensures landing == if run.pushStatus == Succeeded then IdSet(run.merged) else {}
      ensures run.pushStatus == if end == Accepted then Succeeded else if end == Rejected then PushFailed else Pending
      ensures run.pushStatus == Succeeded <==> landing != {}
      ensures exc == Ambiguous <==> end == Unclear
      ensures exc == NoExc ==> end == Accepted
      ensures exc == AlreadyLanded ==> end == Rejected
      ensures end == Rejected && (exc.Refused? || exc.AlreadyLanded?) ==> Unmarked(run)
    {
      hide LogTells;
      match end
      case Accepted =>
        Land(run);
        exc := Verify();
      case Unclear =>
        exc := Ambiguous;
      case Rejected =>
        run.pushStatus := PushFailed;
        exc := DropRejected(run);
    }

    /** The verify hooks after a push that landed. */
    method Verify() returns (exc: Exc)
      requires Valid()
      modifies `rows, `lockMine, `held, `log
      ensures Valid() && Evolved() && Raisable(exc)
    {
      exc := Risk();
      if exc == NoExc && hasVerifyHooks {
        exc := Risk();
        if exc == CommandFailed {
          // a failed hook is a warning: the push stays recorded as landed
          exc := NoExc;
        }
      }
    }

    /** Drop the markers of a refused push, and tell whether the remote already has its commit. */
    method DropRejected(run: TrainRun) returns (exc: Exc)
      requires Valid()
      modifies `rows, `lockMine, `held, `log
      ensures Valid() && Evolved()
      ensures (exc.LostLease? || exc.Busy? || exc.AlreadyLanded? || exc.Refused?)
      ensures (exc.AlreadyLanded? || exc.Refused?) ==> Unmarked(run)
    {
      exc := ClearRejectedPush(Ids(run.merged));
      if exc != NoExc { return; }
      UnmarkedAll(run);
      var movedToContain: bool := *;
      exc := if movedToContain then AlreadyLanded else Refused;
    }

    /** `_record_train`: finish the merged jobs as validated, under one new train, or as deployed. */
    method RecordTrain(run: TrainRun, ghost from: nat) returns (exc: Exc, results: seq<Result>)
      requires Valid() && Known(run.merged) && NoReady(from) && from <= nextTrain && Ours(run) && Recordable(run)
      requires landing == if run.deploy then IdSet(run.merged) else {}
      modifies `rows, `lockMine, `held, `ready, `log, `story, `nextTrain, run`results
      ensures Valid() && Evolved() && Quiet(false)
      ensures OneReady(from) && OldReadyKept(from)
      ensures run.deploy ==> NoNewReady()
      ensures exc == NoExc ==> Released(run.merged) && ReadyReported(results, from)
      ensures !Leaves(exc) ==> NoNewReady()
      ensures Raisable(exc)
    {
      results := run.results;
      var train := NoTrain;
      if !run.deploy {
        exc := Risk();
        if exc != NoExc { return; }
        train := Mine(nextTrain);
        nextTrain := nextTrain + 1;
      }
      exc, results := RecordAll(run, train, from);
    }

    method RecordAll(run: TrainRun, train: Train, ghost from: nat) returns (exc: Exc, results: seq<Result>)
      requires Valid() && Known(run.merged) && NoReady(from) && Ours(run) && Recordable(run)
      requires landing == if run.deploy then IdSet(run.merged) else {}
      requires if run.deploy then train == NoTrain else train.Mine? && from <= train.serial < nextTrain
      modifies `rows, `lockMine, `held, `ready, `log, `story, run`results
      ensures Valid() && Evolved() && Quiet(false)
      ensures OneReady(from) && OldReadyKept(from)
      ensures run.deploy ==> NoNewReady()
      ensures Leaves(exc)
      ensures exc == NoExc ==> Released(run.merged) && ReadyReported(results, from)
    {
      hide LogTells;
      for k := 0 to |run.merged|
        invariant Valid() && Evolved() && Quiet(false) && Known(run.merged)
        invariant run.deploy ==> NoNewReady()
        invariant OnlyReady(train, from) && OldReadyKept(from)
        invariant ReadyReported(run.results, from)
        invariant forall i | 0 <= i < k :: !Held(run.merged[i].id)
      {
        assert run.merged[k] in run.merged;
        exc := RecordOne(run, run.merged[k], train, from);
        results := run.results;
        if exc != NoExc { return; }
      }
      exc, results := NoExc, run.results;
    }

    /** The gates passed over the worktree of exactly the merged jobs, if they are to be validated. */
    ghost predicate Recordable(run: TrainRun)
      reads `story, run`merged
    {
      (!run.deploy ==> story.tree.gated && story.tree.merged == run.merged)
    }

    /** The only trains from serial `from` on with a validated row are `train`. */
    ghost predicate OnlyReady(train: Train, from: nat)
      reads `ready
    {
      forall n <- ready :: n < from || train == Mine(n)
    }

    method RecordOne(run: TrainRun, job: Job, train: Train, ghost from: nat) returns (exc: Exc)
      requires Valid() && job.id in rows
      requires if run.deploy then train == NoTrain && job.id in landing
               else train.Mine? && from <= train.serial < nextTrain && landing == {}
      requires Recordable(run) && job in run.merged
      requires OnlyReady(train, from) && ReadyReported(run.results, from)
      modifies `rows, `lockMine, `held, `ready, `log, `story, run`results
      ensures Valid() && Evolved() && Quiet(false) && OldReadyKept(from)
      ensures run.deploy ==> NoNewReady()
      ensures OnlyReady(train, from)
      ensures Leaves(exc)
      ensures exc == NoExc ==> !Held(job.id) && ReadyReported(run.results, from)
    {
      var r;
      ghost var before := run.results;
      IdsListed(run.merged);
      assert job.id in IdsIn(Ids(run.merged));
      exc, r := FinishJob(job.id, if run.deploy then Deployed else Validated, train);
      if exc != NoExc { return; }
      run.results := run.results + [r];
      assert forall e <- before :: e in run.results;
      assert r in run.results;
    }

    /** What a train or a part of one may have done when it ends, normally or not. */
    twostate predicate TrainDone(exc: Exc)
      reads this
    {
      && Sound() && Answerable(exc) && Evolved()
      && OneReady(old(nextTrain)) && OldReadyKept(old(nextTrain))
      && (deploy ==> NoNewReady())
      && (!deploy ==> ParkFree() && NeverPushed())
      && old(story).bisected <= story.bisected
    }

    twostate predicate NeverPushed()
      reads `story
    {
      story.pushes == old(story).pushes
    }

    /** How a train reports back when no exception leaves it. */
    twostate predicate Reports(exc: Exc, jobs: seq<Job>, results: seq<Result>)
      reads this
    {
      && Leaves(exc)
      && (exc == NoExc ==>
            && Released(jobs)
            && ParkReported(results)
            && ReadyReported(results, old(nextTrain)))
    }

    /** `process_batch`: run one claimed train to its end. */
    method ProcessBatch(jobs: seq<Job>) returns (exc: Exc, results: seq<Result>)
      requires Valid() && Known(jobs) && DistinctJobs(jobs) && ParkFree() && landing == {}
      requires Part(batch, jobs, deploy) && (|jobs| > 1 ==> line == NoLine)
      modifies this
      ensures TrainDone(exc)
      ensures Reports(exc, jobs, results)
      ensures exc == NoExc ==> Rested()
      decreases |jobs|, 5, 2
    {
      hide LogTells;
      results := [];
      if jobs == [] {
        exc := NoExc;
        return;
      }
      var run := new TrainRun(jobs, deploy);
      IsOurs(run);
      exc, results := RunTrain(run);
    }

    /** The `try` of `process_batch` and its handlers. */
    method RunTrain(run: TrainRun) returns (exc: Exc, results: seq<Result>)
      requires Valid() && Known(run.jobs) && DistinctJobs(run.jobs) && run.jobs != [] && ParkFree() && landing == {}
      requires Ours(run) && (|run.jobs| > 1 ==> line == NoLine)
      requires run.merged == [] && run.results == [] && run.reused == NoCommit
      requires run.pushStatus == NotRun && Part(batch, run.jobs, run.deploy)
      modifies this, run
      ensures TrainDone(exc)
      ensures Reports(exc, run.jobs, results)
      ensures exc == NoExc ==> Rested()
      decreases |run.jobs|, 5, 1
    {
      hide LogTells;
      exc, results := TryBatch(run);
      if !(exc.NoExc? || exc.LostLease?) {
        exc, results := Recover(run, exc);
      }
      if exc == NoExc {
        EndFrame(run);
      }
    }

    lemma IsOurs(run: TrainRun)
      requires run.deploy == deploy && Part(batch, run.jobs, deploy)
      ensures Ours(run)
    {
      ClaimOrderMembers(run.jobs, batch, |batch|);
    }

    /** There is a reason for everything that the handlers of this exception write. */
    ghost predicate Explained(run: TrainRun, raised: Exc)
      reads `story, run`merged
    {
      && Reasoned(IdSet(Affected(run)), ErrorStatus(raised))
      && Reasoned(IdSet(NotIn(run.jobs, Affected(run))), Queued)
      && (raised == Canceling || raised == AlreadyLanded ==> Reasoned(IdSet(run.jobs), ErrorStatus(raised)))
    }

    /** An exception stopped the train. */
    method LogStop(run: TrainRun, raised: Exc)
      requires Sound() && Answerable(raised) && FailedAsAffected(run)
      modifies `log, `story
      ensures Valid()
      ensures log == old(log) + [Stopped(raised, Ids(Affected(run)), Ids(NotIn(run.jobs, Affected(run))))]
      ensures story == old(story).(doomed := story.doomed, blamed := story.blamed, unsure := story.unsure,
                                   canceled := story.canceled, freed := story.freed, owed := Nothing)
      ensures !(raised.NoExc? || raised.LostLease?) ==> Explained(run, raised)
    {
      hide LogTells, EventOk;
      var affected, rest := Affected(run), NotIn(run.jobs, Affected(run));
      StopIsOk(run, Stopped(raised, Ids(affected), Ids(rest)));
      Append(Stopped(raised, Ids(affected), Ids(rest)));
      IdsListed(affected);
      IdsListed(rest);
      AffectedOrNot(run.jobs, affected);
    }

    lemma StopIsOk(run: TrainRun, e: Event)
      requires e.Stopped? && Answerable(e.exc) && FailedAsAffected(run) && e.jobs == Ids(Affected(run))
      ensures MayLog(e)
    {
    }

    /** The failed gate run that calls for an answer, if there is one, was of the jobs that the
        error settles: a validated train, or one job. */
    ghost predicate FailedAsAffected(run: TrainRun)
      reads `story, run`merged
    {
      story.owed == FailedGates ==>
        if ShipsWhole(batch, deploy) then Affected(run) == batch
        else |story.tree.merged| == 1 && Affected(run) == story.tree.merged
    }

    /** An exception ended the train: handle it, and keep of the outcome what the callers need. */
    method Recover(run: TrainRun, raised: Exc) returns (exc: Exc, results: seq<Result>)
      requires Sound() && Answerable(raised) && FailedAsAffected(run)
      requires Known(run.jobs) && !(raised.NoExc? || raised.LostLease?)
      requires Riding(run, |run.jobs|)
      requires raised != Busy || run.pushStatus == Succeeded ==> ParkFree() && LandingKnown(run)
      requires raised == AlreadyLanded ==> run.pushStatus != Succeeded
      modifies `rows, `lockMine, `held, `ready, `log, `story, run`results
      ensures Valid() && Evolved() && NoNewReady()
      ensures story == old(story).(doomed := story.doomed, blamed := story.blamed, unsure := story.unsure,
                                   canceled := story.canceled, freed := story.freed, owed := Nothing,
                                   parked := story.parked)
      ensures story.parked ==> old(story).parked || raised == Ambiguous
      ensures Leaves(exc)
      ensures raised == Busy && run.pushStatus != Succeeded ==> exc == Busy
      ensures exc == NoExc ==> Released(run.jobs) && ParkReported(results) && LandingKnown(run)
    {
      LogStop(run, raised);
      exc, results := HandleError(run, raised);
    }

    /** Every job of the frame is released, so nothing of its push is left to record. */
    ghost method EndFrame(run: TrainRun)
      requires Valid() && Released(run.jobs) && LandingKnown(run)
      requires Riding(run, |run.jobs|)
      modifies `landing
      ensures Valid() && landing == {}
    {
      Riders(run);
      forall id <- landing ensures !Held(id) {
        var j :| j in run.merged && j.id == id;
      }
      landing := {};
    }

    /** What each exception makes of the jobs it stopped. */
    function ErrorStatus(raised: Exc): Status {
      match raised
      case Canceling => Canceled
      case AlreadyLanded => Queued
      case Ambiguous => NeedsReconcile
      case Busy => Deployed
      case Refused => Blocked
      case _ => Failed
    }

    /** The exception handlers of `process_batch`. */
    method HandleError(run: TrainRun, raised: Exc) returns (exc: Exc, results: seq<Result>)
      requires Valid() && Known(run.jobs) && !(raised.NoExc? || raised.LostLease?)
      requires Riding(run, |run.jobs|)
      requires raised != Busy || run.pushStatus == Succeeded ==> ParkFree() && LandingKnown(run)
      requires raised == AlreadyLanded ==> run.pushStatus != Succeeded
      requires Explained(run, raised)
      modifies `rows, `lockMine, `held, `ready, `log, `story, run`results
      ensures Valid() && Evolved() && Quiet(raised == Ambiguous) && NoNewReady()
      ensures Leaves(exc)
      ensures raised == Busy && run.pushStatus != Succeeded ==> exc == Busy && log == old(log)
      ensures if raised == AlreadyLanded || (raised == Canceling && run.pushStatus != Succeeded)
              then WroteOnly(run.jobs, ErrorStatus(raised))
              else SettledOrRequeued(run, SettledAs(run, ErrorStatus(raised)))
      ensures exc == NoExc ==> Released(run.jobs) && ParkReported(results) && LandingKnown(run)
    {
      results := [];
      if raised == Canceling {
        if run.pushStatus == Succeeded {
          exc, results := FinishActiveAfterError(run, Canceled);
        } else {
          exc, results := FinishActiveJobs(run, Canceled);
        }
      } else if raised == AlreadyLanded {
        exc, results := FinishActiveJobs(run, Queued);
      } else if raised == Ambiguous {
        exc, results := FinishActiveAfterError(run, NeedsReconcile);
      } else if raised == Busy {
        // anything less certain than a push this frame saw land writes nothing
        if run.pushStatus != Succeeded {
          exc := Busy;
        } else {
          exc, results := FinishActiveAfterError(run, Deployed);
        }
      } else {
        exc, results := FinishActiveAfterError(run, if raised == Refused then Blocked else Failed);
      }
    }

    /** The body of `process_batch` inside its `try`. */
    method TryBatch(run: TrainRun) returns (exc: Exc, results: seq<Result>)
      requires Valid() && Known(run.jobs) && DistinctJobs(run.jobs) && run.jobs != [] && ParkFree() && landing == {}
      requires Ours(run) && (|run.jobs| > 1 ==> line == NoLine)
      requires run.merged == [] && run.results == [] && run.reused == NoCommit
      requires run.pushStatus == NotRun && Part(batch, run.jobs, run.deploy)
      modifies this, run
      ensures TrainDone(exc) && FailedAsAffected(run)
      ensures Riding(run, |run.jobs|)
      ensures exc == NoExc ==> Reports(exc, run.jobs, results)
      ensures !Leaves(exc) || run.pushStatus == Succeeded ==> ParkFree() && NoReady(old(nextTrain))
      ensures !(exc.LostLease? || exc.Busy?) || run.pushStatus == Succeeded ==> LandingKnown(run) && line == old(line)
      ensures exc == Ambiguous ==> run.deploy
      ensures exc == AlreadyLanded ==> run.pushStatus != Succeeded
      decreases |run.jobs|, 5, 0
    {
      var stop;
      exc, stop, results := Prepare(run);
      if exc != NoExc || stop { return; }
      exc, results := GateAndShip(run);
    }

    method GateAndShip(run: TrainRun) returns (exc: Exc, results: seq<Result>)
      requires Valid() && Known(run.jobs) && DistinctJobs(run.jobs) && ParkFree() && Assembled(run) && landing == {}
      requires Ours(run) && (|run.jobs| > 1 ==> line == NoLine)
      requires run.pushStatus == NotRun && Part(batch, run.jobs, run.deploy)
      modifies this, run`head, run`clean, run`pushStatus, run`results
      ensures TrainDone(exc) && FailedAsAffected(run)
      ensures exc == NoExc ==> Reports(exc, run.jobs, results)
      ensures !Leaves(exc) || run.pushStatus == Succeeded ==> ParkFree() && NoReady(old(nextTrain))
      ensures !(exc.LostLease? || exc.Busy?) || run.pushStatus == Succeeded ==> LandingKnown(run) && line == old(line)
      ensures exc == Ambiguous ==> run.deploy
      ensures exc == AlreadyLanded ==> run.pushStatus != Succeeded
      decreases |run.jobs|, 4
    {
      var stop;
      exc, stop, results := GateTrain(run);
      if exc != NoExc || stop { return; }
      exc, results := Ship(run);
    }

    /** Push a gated train in deploy mode, then record it. */
    method Ship(run: TrainRun) returns (exc: Exc, results: seq<Result>)
      requires Valid() && ParkFree() && Known(run.jobs) && Settled(run) && landing == {} && run.merged != []
      requires NoReady(nextTrain) && Ours(run)
      requires Built(run) && story.tree.gated && Part(batch, run.jobs, run.deploy)
      requires run.pushStatus == NotRun
      modifies `rows, `lockMine, `held, `ready, `log, `story, `landing, `nextTrain, run`pushStatus, run`results
      ensures story.owed != FailedGates
      ensures TrainDone(exc) && ParkFree() && LandingKnown(run)
      ensures exc == NoExc ==> Reports(exc, run.jobs, results)
      ensures !Leaves(exc) ==> NoReady(old(nextTrain))
      ensures run.pushStatus == Succeeded ==> NoReady(old(nextTrain))
      ensures exc == Ambiguous ==> run.deploy
      ensures exc == AlreadyLanded ==> run.pushStatus != Succeeded
    {
      hide LogTells, ReadyIn, HeldIn, Straight, RideAsRecorded;
      results := [];
      if run.deploy {
        exc := PushAndVerify(run);
        LandingCovers(run);
        if exc != NoExc { return; }
      }
      exc, results := RecordSettled(run);
    }

    lemma LandingCovers(run: TrainRun)
      requires Settled(run) && (run.pushStatus == Succeeded <==> landing != {})
      requires landing == {} || landing == IdSet(run.merged)
      ensures LandingKnown(run)
    {
      forall j <- run.jobs ensures landing != {} && Held(j.id) ==> j.id in landing {
        var i :| 0 <= i < |run.jobs| && run.jobs[i] == j;
      }
    }

    /** Record a train whose other jobs are settled. */
    method RecordSettled(run: TrainRun) returns (exc: Exc, results: seq<Result>)
      requires Valid() && Known(run.jobs) && Riding(run, |run.jobs|) && Settled(run) && NoReady(nextTrain)
      requires Ours(run) && Recordable(run)
      requires landing == if run.deploy then IdSet(run.merged) else {}
      modifies `rows, `lockMine, `held, `ready, `log, `story, `nextTrain, run`results
      ensures Valid() && Evolved() && Quiet(false)
      ensures OneReady(old(nextTrain)) && OldReadyKept(old(nextTrain))
      ensures run.deploy ==> NoNewReady()
      ensures exc == NoExc ==> Released(run.jobs) && ReadyReported(results, old(nextTrain))
      ensures !Leaves(exc) ==> NoNewReady()
      ensures Raisable(exc)
    {
      Riders(run);
      exc, results := RecordTrain(run, nextTrain);
      assert exc == NoExc ==> Released(run.jobs) by {
        assert forall j <- run.jobs :: j in run.merged || !Held(j.id);
      }
    }

    /** Claim writes, train identity check, worktree, restore or assembly. */
    method Prepare(run: TrainRun) returns (exc: Exc, stop: bool, results: seq<Result>)
      requires Valid() && Known(run.jobs) && DistinctJobs(run.jobs) && run.jobs != [] && landing == {} && Ours(run)
      requires Part(batch, run.jobs, run.deploy)
      requires run.merged == [] && run.results == [] && run.reused == NoCommit
      modifies `rows, `lockMine, `held, `ready, `log, `story
      modifies run`mergeShas, run`head, run`clean, run`merged, run`results
      modifies run`deploySha, run`reused, run`base
      ensures Valid() && Evolved() && Building() && NoNewReady()
      ensures Riding(run, |run.jobs|)
      ensures Raisable(exc)
      ensures exc == NoExc && stop ==> Released(run.jobs)
      ensures exc == NoExc && !stop ==> Assembled(run)
    {
      results, stop := [], false;
      exc := ClaimAll(run.jobs);
      if exc != NoExc { return; }
      if run.deployingValidated && !OneWholeTrain(run.jobs) {
        stop := true;
        exc, results := FinishAll(run.jobs, Blocked);
        return;
      }
      exc, stop := Build(run);
      results := run.results;
    }

    /** Prepare the worktree on the integration base, then restore or assemble the train. */
    method Build(run: TrainRun) returns (exc: Exc, stop: bool)
      requires Valid() && Known(run.jobs) && DistinctJobs(run.jobs) && landing == {} && Ours(run)
      requires run.merged == [] && run.reused == NoCommit
      modifies `rows, `lockMine, `held, `ready, `log, `story
      modifies run`mergeShas, run`head, run`clean, run`merged, run`results
      modifies run`deploySha, run`reused, run`base
      ensures Valid() && Evolved() && Building() && NoNewReady()
      ensures Riding(run, |run.jobs|)
      ensures Raisable(exc)
      ensures exc == NoExc && stop ==> Released(run.jobs)
      ensures exc == NoExc && !stop ==> Assembled(run)
    {
      hide LogTells;
      stop := false;
      exc := Risk();
      if exc != NoExc { return; }
      TakeBase(run);
      if run.deployingValidated {
        exc, stop := RestoreOrAssemble(run);
      } else {
        exc, stop := Assemble(run);
      }
    }

    /** The train's worktree is made at the tip of the integration branch. */
    method TakeBase(run: TrainRun)
      requires Valid() && run.merged == []
      modifies `log, `story, run`base, run`head, run`clean
      ensures Valid() && Building() && OnTrack(run)
    {
      run.base := *;
      run.head, run.clean := run.base, true;
      Append(BaseTaken(run.base));
    }

    method RestoreOrAssemble(run: TrainRun) returns (exc: Exc, stop: bool)
      requires Valid() && Known(run.jobs) && DistinctJobs(run.jobs) && landing == {}
      requires run.deployingValidated && Ours(run)
      requires OnTrack(run) && run.merged == [] && run.reused == NoCommit
      modifies `rows, `lockMine, `held, `ready, `log, `story
      modifies run`mergeShas, run`head, run`clean, run`merged, run`results
      modifies run`deploySha, run`reused
      ensures Valid() && Evolved() && Building() && NoNewReady()
      ensures Riding(run, |run.jobs|)
      ensures Raisable(exc)
      ensures exc == NoExc && stop ==> Released(run.jobs)
      ensures exc == NoExc && !stop ==> Assembled(run)
    {
      hide LogTells;
      exc, stop := RestoreValidated(run);
      if exc == NoExc && !stop {
        if run.reused == NoCommit {
          exc, stop := Assemble(run);
        } else {
          assert Settled(run);
        }
      }
    }

    /** The train is built: every job rides or is out, and the deploy commit is HEAD. */
    ghost predicate Assembled(run: TrainRun)
      reads `story, `held, run`merged, run`mergeShas, run`deploySha, run`head, run`base, run`reused
    {
      Built(run) && Settled(run)
    }

    /** Write `in_progress` on every claimed row again, which any of them may refuse. */
    method ClaimAll(jobs: seq<Job>) returns (exc: Exc)
      requires Valid() && Known(jobs) && landing == {}
      modifies `rows, `lockMine, `held, `ready, `log, `story
      ensures Valid() && Evolved() && Quiet(false) && NoNewReady()
      ensures exc.NoExc? || exc.LostLease? || exc.Canceling? || exc.Busy?
    {
      for k := 0 to |jobs|
        invariant Valid() && Evolved() && Quiet(false) && NoNewReady() && Known(jobs)
      {
        var now;
        exc, now := MarkJob(jobs[k].id, InProgress, NoTrain);
        if exc != NoExc { return; }
      }
      exc := NoExc;
    }

    /** `_gate_train`: run the gates, and sort out a failure. */
    method GateTrain(run: TrainRun) returns (exc: Exc, stop: bool, results: seq<Result>)
      requires Valid() && Known(run.jobs) && DistinctJobs(run.jobs) && ParkFree() && Assembled(run) && landing == {}
      requires Ours(run) && (|run.jobs| > 1 ==> line == NoLine)
      requires Part(batch, run.jobs, run.deploy)
      modifies this, run`head, run`clean
      ensures TrainDone(exc) && FailedAsAffected(run)
      ensures exc == NoExc && stop ==> Reports(exc, run.jobs, results)
      ensures exc == NoExc && !stop ==>
        && ParkFree() && NoReady(old(nextTrain))
        && Built(run) && story.tree.gated && Settled(run)
      ensures !Leaves(exc) ==> ParkFree() && NoReady(old(nextTrain))
      ensures !(exc.LostLease? || exc.Busy?) ==> Rested()
      ensures Raisable(exc)
      decreases |run.jobs|, 3, 1
    {
      stop, results := false, [];
      exc := Risk();
      if exc != NoExc { return; }
      exc, stop, results := TryGates(run);
    }

    /** Run the gates, and sort out their failure. */
    method TryGates(run: TrainRun) returns (exc: Exc, stop: bool, results: seq<Result>)
      requires Valid() && Known(run.jobs) && DistinctJobs(run.jobs) && ParkFree() && Assembled(run) && landing == {}
      requires Ours(run) && (|run.jobs| > 1 ==> line == NoLine)
      requires Part(batch, run.jobs, run.deploy)
      modifies this, run`head, run`clean
      ensures TrainDone(exc) && FailedAsAffected(run)
      ensures exc == NoExc && stop ==> Reports(exc, run.jobs, results)
      ensures exc == NoExc && !stop ==>
        && ParkFree() && NoReady(old(nextTrain))
        && Built(run) && story.tree.gated && Settled(run)
      ensures !Leaves(exc) ==> ParkFree() && NoReady(old(nextTrain))
      ensures !(exc.LostLease? || exc.Busy?) ==> Rested()
      ensures Raisable(exc)
      decreases |run.jobs|, 3, 0
    {
      stop, results := false, [];
      exc := RunTrainGates(run);
      if exc == CommandFailed {
        exc, results := GatesFailed(run);
        stop := true;
      }
    }

    /** The bisect of this number was of this train, and told how it ended. */
    ghost predicate Bisected(n: nat, run: TrainRun)
      reads `story, run`merged
    {
      (n, Ids(run.merged)) in story.bisected
    }

    /** The failed gate run that calls for an answer, if there is one, was of this train. */
    ghost predicate FailedHere(run: TrainRun)
      reads `story, run`merged
    {
      story.owed == FailedGates ==> run.deployingValidated || story.tree.merged == run.merged
    }

    /** The gates of the assembled train failed: a validated train fails whole, the failure of
        a train of one job is its own, and any other train is bisected. */
    method GatesFailed(run: TrainRun) returns (exc: Exc, results: seq<Result>)
      requires Sound() && Answerable(CommandFailed) && FailedHere(run)
      requires Known(run.jobs) && ParkFree() && Settled(run) && landing == {} && Ours(run)
      requires run.merged != [] && Riding(run, |run.jobs|) && DistinctJobs(run.jobs)
      requires Part(batch, run.jobs, run.deploy) && (|run.jobs| > 1 ==> line == NoLine)
      modifies this
      ensures TrainDone(exc) && FailedAsAffected(run)
      ensures if run.deployingValidated
              then FailedWhole(run)
              else if |run.merged| == 1 then exc == CommandFailed && log == old(log)
              else exc == NoExc ==> Bisected(old(bisects), run)
      ensures exc == NoExc ==> Reports(exc, run.jobs, results)
      ensures !Leaves(exc) ==> ParkFree() && NoReady(old(nextTrain))
      ensures !(exc.LostLease? || exc.Busy?) ==> Rested()
      ensures Raisable(exc)
      decreases |run.jobs|, 2, 2
    {
      hide LogTells;
      results := [];
      if run.deployingValidated {
        exc, results := FailWhole(run);
      } else if |run.merged| == 1 {
        exc := CommandFailed;
      } else {
        exc, results := BisectMerged(run);
      }
    }

    /** The log grew by the stop of all the train's jobs and then, in order, by their failures. */
    twostate predicate FailedWhole(run: TrainRun)
      reads `log
    {
      var stop := Stopped(CommandFailed, Ids(run.jobs), Ids(NotIn(run.jobs, run.jobs)));
      FinishedSince(old(log) + [stop], log, Ids(run.jobs), Failed)
    }

    /** The validated train fails whole. */
    method FailWhole(run: TrainRun) returns (exc: Exc, results: seq<Result>)
      requires Sound() && Answerable(CommandFailed) && Known(run.jobs) && landing == {} && Ours(run)
      requires run.deployingValidated && Part(batch, run.jobs, run.deploy)
      modifies `rows, `lockMine, `held, `ready, `log, `story
      ensures Valid() && Evolved() && NoNewReady()
      ensures story == old(story).(doomed := story.doomed, blamed := story.blamed, unsure := story.unsure,
                                   canceled := story.canceled, freed := story.freed, owed := Nothing)
      ensures FailedWhole(run)
      ensures Leaves(exc) && (exc == NoExc ==> Released(run.jobs))
    {
      hide LogTells;
      LogStop(run, CommandFailed);
      exc, results := FinishAll(run.jobs, Failed);
    }

    /** Two or more merged jobs are bisected; the verdicts of the assembly stay. */
    method BisectMerged(run: TrainRun) returns (exc: Exc, results: seq<Result>)
      requires Sound() && Answerable(CommandFailed) && FailedHere(run)
      requires Known(run.jobs) && ParkFree() && Settled(run) && landing == {} && Ours(run)
      requires |run.merged| >= 2 && Riding(run, |run.jobs|) && DistinctJobs(run.jobs) && !run.deployingValidated
      requires Part(batch, run.jobs, run.deploy) && line == NoLine
      modifies this
      ensures TrainDone(exc) && Calm()
      ensures exc == NoExc ==> Bisected(old(bisects), run) && Reports(exc, run.jobs, results)
      ensures !Leaves(exc) ==> ParkFree() && NoReady(old(nextTrain))
      ensures !(exc.LostLease? || exc.Busy?) ==> Rested()
      ensures Raisable(exc)
      decreases |run.jobs|, 2, 1
    {
      hide LogTells;
      ClaimOrderMembers(run.merged, run.jobs, |run.jobs|);
      ClaimOrderDistinct(run.merged, run.jobs, |run.jobs|);
      var isolated;
      exc, isolated := BisectFailedTrain(run);
      results := run.results + isolated;
      assert exc == NoExc ==> Released(run.jobs) by {
        assert forall j <- run.jobs :: j in run.merged || !Held(j.id);
      }
      assert forall r <- isolated :: r in results;
    }

    /** The failed gate run that calls for an answer, if there is one, was of this train, which
        is to be bisected. */
    ghost predicate ToBisect(run: TrainRun)
      reads `story, run`merged
    {
      || story.owed == Nothing
      || (&& story.owed == FailedGates && story.tree.merged == run.merged && |run.merged| >= 2
          && !ShipsWhole(batch, deploy))
    }

    /** A step of the bisect outside its probes. */
    method BisectRisk(run: TrainRun) returns (exc: Exc)
      requires Sound() && ToBisect(run)
      modifies `rows, `lockMine, `held, `log, `story
      ensures Sound() && Evolved() && Raisable(exc)
      ensures story == if exc == NoExc then old(story) else old(story).(owed := Nothing)
    {
      exc := Risk();
      if exc != NoExc { Append(BisectRaised(exc)); }
    }

    /** What a completed bisect of this train says. */
    ghost predicate Classified(run: TrainRun, isolation: Bisect.Isolation)
      reads `bisects, run`merged
    {
      var ids := Ids(run.merged);
      && bisects > 0 && SoundBlame(outside.bisects(bisects - 1), ids, isolation.singles, isolation.conflictSets)
      && |isolation.goods| < |run.merged| && isolation.goods == Bisect.InOrder(ids, Bisect.Members(isolation.goods))
      && Bisect.Members(Bisect.Blamed(isolation.singles, isolation.conflictSets) + isolation.goods)
           == Bisect.Members(ids)
    }

    /** The bisect itself, over the next of the outside world's answers. */
    method Probe(run: TrainRun) returns (flow: Bisect.Flow, isolation: Bisect.Isolation)
      requires Sound() && DistinctJobs(run.merged) && |run.merged| >= 2
      modifies `bisects
      ensures Sound() && bisects == old(bisects) + 1
      ensures flow == Bisect.Done ==> Classified(run, isolation)
      ensures flow == Bisect.Abort ==> SoundAbort(outside.bisects(bisects - 1), Ids(run.merged))
    {
      ghost var probed;
      flow, isolation, probed := Bisect.IsolateTrain(outside.bisects(bisects), Ids(run.merged));
      bisects := bisects + 1;
    }

    /** `_bisect_failed_train`. */
    method BisectFailedTrain(run: TrainRun) returns (exc: Exc, results: seq<Result>)
      requires Sound() && ToBisect(run) && Ours(run)
      requires Known(run.merged) && ParkFree() && DistinctJobs(run.merged) && landing == {}
      requires |run.merged| >= 2 && Riding(run, |run.jobs|) && line == NoLine
      requires Part(batch, run.jobs, run.deploy) && !run.deployingValidated
      modifies this
      ensures TrainDone(exc) && Calm()
      ensures exc == NoExc ==> Reports(exc, run.merged, results) && Bisected(old(bisects), run)
      ensures !Leaves(exc) ==> ParkFree() && NoReady(old(nextTrain))
      ensures !(exc.LostLease? || exc.Busy?) ==> Rested()
      ensures Raisable(exc)
      decreases |run.jobs|, 2, 0
    {
      hide LogTells;
      results := [];
      exc := BisectRisk(run);
      if exc != NoExc { return; }
      var flow, isolation := Probe(run);
      exc := BisectRisk(run);
      if exc != NoExc { return; }
      SplitsUp(run);
      exc, results := AfterBisect(run, flow, isolation);
    }

    /** What follows a bisect that stopped, gave up or completed. */
    method AfterBisect(run: TrainRun, flow: Bisect.Flow, isolation: Bisect.Isolation)
      returns (exc: Exc, results: seq<Result>)
      requires Sound() && ToBisect(run) && Ours(run)
      requires Known(run.merged) && ParkFree() && DistinctJobs(run.merged) && landing == {}
      requires 2 <= |run.merged| <= |run.jobs| && Splittable(run.merged) && line == NoLine
      requires bisects > 0 && (flow == Bisect.Done ==> Classified(run, isolation))
      requires flow == Bisect.Abort ==> SoundAbort(outside.bisects(bisects - 1), Ids(run.merged))
      modifies this
      ensures TrainDone(exc) && Calm()
      ensures exc == NoExc ==> Reports(exc, run.merged, results) && Bisected(old(bisects) - 1, run)
      ensures !Leaves(exc) ==> ParkFree() && NoReady(old(nextTrain))
      ensures !(exc.LostLease? || exc.Busy?) ==> Rested()
      ensures Raisable(exc)
      decreases |run.jobs|, 1, 1
    {
      hide LogTells, SoundBlame, SoundAbort, InClaimOrder;
      results := [];
      if flow == Bisect.Stop {
        exc := ProbeRaised(run);
      } else if flow == Bisect.Abort {
        exc, results := FallBack(run);
      } else {
        Sentence(run, isolation);
        exc, results := RunSurvivors(run, isolation);
      }
    }

    /** An inconclusive bisect falls back to linear isolation. */
    method FallBack(run: TrainRun) returns (exc: Exc, results: seq<Result>)
      requires Sound() && ToBisect(run) && Known(run.merged) && ParkFree() && landing == {} && line == NoLine
      requires 2 <= |run.merged| <= |run.jobs| && Splittable(run.merged)
      requires bisects > 0 && SoundAbort(outside.bisects(bisects - 1), Ids(run.merged))
      modifies this
      ensures TrainDone(exc)
      ensures Reports(exc, run.merged, results)
      ensures exc == NoExc ==> Rested() && Bisected(old(bisects) - 1, run)
      decreases |run.jobs|, 1, 0
    {
      hide LogTells;
      ghost var turns, since;
      GiveUp(run);
      exc, results, turns, since := ProcessIsolatedJobs(run.merged);
    }

    /** The bisect gives up, and the jobs of the train stand in line. */
    method GiveUp(run: TrainRun)
      requires Sound() && ToBisect(run) && line == NoLine
      requires bisects > 0 && SoundAbort(outside.bisects(bisects - 1), Ids(run.merged))
      modifies `log, `story, `line
      ensures Valid() && line == Turns(Ids(run.merged)) && Bisected(bisects - 1, run)
      ensures story == old(story).(owed := Nothing, bisected := story.bisected)
      ensures old(story).bisected <= story.bisected
    {
      MoveLine(BisectGaveUp(bisects - 1, Ids(run.merged)));
    }

    /** Whatever else a probe raised. */
    method ProbeRaised(run: TrainRun) returns (exc: Exc)
      requires Sound() && ToBisect(run)
      modifies `log, `story
      ensures Valid() && exc != NoExc && Raisable(exc)
      ensures story == old(story).(owed := Nothing)
    {
      exc := *;
      if exc == NoExc || !Raisable(exc) { exc := Canceling; }
      Append(BisectRaised(exc));
    }

    /** A completed bisect blames jobs for the train's failure. */
    method Sentence(run: TrainRun, isolation: Bisect.Isolation)
      requires Sound() && ToBisect(run) && Classified(run, isolation)
      modifies `log, `story
      ensures Valid() && Sentenced(isolation) && Bisected(bisects - 1, run)
      ensures story == old(story).(
        owed := Nothing, doomed := story.doomed, blamed := story.blamed, bisected := story.bisected)
      ensures old(story).bisected <= story.bisected
    {
      Append(Isolated(bisects - 1, Ids(run.merged), isolation.singles, isolation.conflictSets));
    }

    /** Log a step of an isolation. */
    method MoveLine(e: Event)
      requires Sound() && MayLog(e) && MovesLine(e)
      modifies `log, `story, `line
      ensures Valid() && log == old(log) + [e]
      ensures line == LineAfter(old(line), |old(log)|, e)
      ensures story == old(story).(owed := Nothing, bisected := old(story).bisected + BisectedBy(e))
    {
      TellsMore(batch, deploy, outside, log, Tale(story, line), e);
      LineTells(Tale(story, line), |log|, e);
      story := story.(owed := Nothing, bisected := story.bisected + BisectedBy(e));
      log, line := log + [e], LineAfter(line, |log|, e);
    }

    /** Jobs that may run as smaller trains: they are of no validated train that is deployed. */
    ghost predicate Splittable(jobs: seq<Job>) {
      InClaimOrder(jobs, batch, |batch|) && !ShipsWhole(batch, deploy)
    }

    lemma SplitsUp(run: TrainRun)
      requires Riding(run, |run.jobs|) && Part(batch, run.jobs, run.deploy) && Ours(run) && !run.deployingValidated
      ensures Splittable(run.merged) && |run.merged| <= |run.jobs|
    {
      ClaimOrderMembers(run.merged, run.jobs, |run.jobs|);
      assert run.jobs[..|run.jobs|] == run.jobs;
      ClaimOrderComposes(run.merged, run.jobs, |run.jobs|, batch, |batch|);
    }

    lemma FewerSplit(few: seq<Job>, jobs: seq<Job>)
      requires Splittable(jobs) && InClaimOrder(few, jobs, |jobs|)
      ensures Part(batch, few, deploy)
    {
      assert jobs[..|jobs|] == jobs;
      ClaimOrderComposes(few, jobs, |jobs|, batch, |batch|);
    }

    /** Finish what a completed bisect blames, then run the survivors as a fresh train. */
    method RunSurvivors(run: TrainRun, isolation: Bisect.Isolation) returns (exc: Exc, results: seq<Result>)
      requires Valid() && Known(run.merged) && ParkFree() && DistinctJobs(run.merged) && landing == {} && line == NoLine
      requires |run.merged| <= |run.jobs| && Splittable(run.merged) && Classified(run, isolation)
      requires Sentenced(isolation)
      modifies this
      ensures TrainDone(exc)
      ensures Reports(exc, run.merged, results)
      ensures exc == NoExc ==> Rested()
      decreases |run.jobs|, 1, 0
    {
      var blamed := Bisect.Blamed(isolation.singles, isolation.conflictSets);
      Bisect.MembersConcat(blamed, isolation.goods);
      assert forall id <- blamed :: id in Bisect.Members(Ids(run.merged));
      exc, results := FinishClassified(isolation);
      if exc != NoExc { return; }
      var goods := Keep(run.merged, Bisect.Members(isolation.goods));
      SurvivorsSplit(run.merged, isolation);
      var nested;
      exc, nested := ProcessBatch(goods);
      results := results + nested;
      assert exc == NoExc ==> Released(run.merged) by {
        SplitByGoods(run.merged, blamed, isolation.goods);
      }
      assert forall r <- nested :: r in results;
    }

    /** The survivors are fewer jobs of the batch, in order. */
    lemma SurvivorsSplit(merged: seq<Job>, isolation: Bisect.Isolation)
      requires DistinctJobs(merged) && Splittable(merged) && |isolation.goods| < |merged|
      requires isolation.goods == Bisect.InOrder(Ids(merged), Bisect.Members(isolation.goods))
      ensures
        var goods := Keep(merged, Bisect.Members(isolation.goods));
        DistinctJobs(goods) && Part(batch, goods, deploy) && |goods| < |merged|
    {
      var goods := Keep(merged, Bisect.Members(isolation.goods));
      KeepInOrder(merged, Bisect.Members(isolation.goods));
      KeepDistinct(merged, Bisect.Members(isolation.goods));
      KeepInClaimOrder(merged, Bisect.Members(isolation.goods));
      FewerSplit(goods, merged);
      assert |Ids(goods)| == |goods|;
    }

    /** The bisect is a reason for its verdicts. */
    ghost predicate Sentenced(isolation: Bisect.Isolation)
      reads `story
    {
      && IdsIn(isolation.singles) <= story.doomed
      && IdsIn(Bisect.Flatten(isolation.conflictSets)) <= story.blamed
    }

    /** Finish what a completed bisect blames. */
    method FinishClassified(isolation: Bisect.Isolation) returns (exc: Exc, results: seq<Result>)
      requires Valid() && landing == {} && Sentenced(isolation)
      requires forall id <- Bisect.Blamed(isolation.singles, isolation.conflictSets) :: id in rows
      modifies `rows, `lockMine, `held, `ready, `log, `story
      ensures Valid() && Evolved() && Quiet(false) && NoNewReady()
      ensures Leaves(exc)
      ensures JudgedSince(old(log), log, isolation)
      ensures exc == NoExc ==>
        && |log| == |old(log)| + |Bisect.Blamed(isolation.singles, isolation.conflictSets)|
        && forall id <- Bisect.Blamed(isolation.singles, isolation.conflictSets) :: !Held(id)
    {
      hide LogTells;
      exc, results := FinishIds(isolation.singles, Failed);
      ghost var failed := log;
      if exc == NoExc {
        var blocked;
        exc, blocked := FinishIds(Bisect.Flatten(isolation.conflictSets), Blocked);
        results := results + blocked;
      }
      JudgedInTurn(old(log), failed, log, isolation);
      if exc == NoExc {
        var busy: bool := *;
        if busy { exc := Busy; }
      }
    }

    /** `_process_isolated_jobs`: one-job trains in order, stopping where FIFO must hold. The
        jobs that had no turn go back to the queue, in order, right before the end. */
    method ProcessIsolatedJobs(jobs: seq<Job>)
      returns (exc: Exc, results: seq<Result>, turns: nat, ghost since: seq<Event>)
      requires Valid() && Known(jobs) && ParkFree() && |jobs| >= 2 && landing == {} && Splittable(jobs)
      requires line == Turns(Ids(jobs))
      modifies this
      ensures TrainDone(exc)
      ensures Reports(exc, jobs, results)
      ensures exc == NoExc ==> landing == {} && line == NoLine
      ensures exc == NoExc ==> turns <= |jobs| && RestBack(since, log, Ids(jobs)[turns..])
      decreases |jobs|, 0, 1
    {
      var stop;
      exc, results, turns, stop := TakeTurns(jobs);
      since := log;
      if exc != NoExc { return; }
      if stop {
        exc, results := StopIsolation(jobs, turns - 1, results);
      } else {
        MoveLine(IsolationEnded);
      }
    }

    /** The jobs have their turns until isolation must stop. */
    method TakeTurns(jobs: seq<Job>) returns (exc: Exc, results: seq<Result>, turns: nat, stop: bool)
      requires Valid() && Known(jobs) && ParkFree() && |jobs| >= 2 && landing == {} && Splittable(jobs)
      requires line == Turns(Ids(jobs))
      modifies this
      ensures TrainDone(exc)
      ensures Leaves(exc) && turns <= |jobs|
      ensures exc == NoExc ==>
        && landing == {} && Released(jobs[..turns]) && line == Turns(Ids(jobs)[turns..])
        && if stop then turns > 0 && exists r <- results :: r.status == if deploy then NeedsReconcile else Validated
           else turns == |jobs| && ParkFree() && NoNewReady()
      decreases |jobs|, 0, 0
    {
      hide LogTells;
      results, turns, stop := [], 0, false;
      while turns < |jobs|
        invariant turns <= |jobs| && !stop
        invariant Valid() && Evolved() && NoNewReady() && ParkFree() && Known(jobs) && landing == {}
        invariant (!deploy ==> NeverPushed()) && old(story).bisected <= story.bisected
        invariant Released(jobs[..turns]) && line == Turns(Ids(jobs)[turns..])
      {
        var finished;
        exc, stop, finished := TakeTurn(jobs, turns);
        results := results + finished;
        if exc != NoExc { return; }
        assert jobs[..turns + 1] == jobs[..turns] + [jobs[turns]];
        turns := turns + 1;
        if stop { return; }
      }
      exc := NoExc;
    }

    /** The next job has its turn. */
    method TakeTurn(jobs: seq<Job>, k: nat) returns (exc: Exc, stop: bool, finished: seq<Result>)
      requires Valid() && Known(jobs) && ParkFree() && k < |jobs| && landing == {} && Splittable(jobs)
      requires line == Turns(Ids(jobs)[k..])
      modifies this
      ensures TrainDone(exc)
      ensures Leaves(exc)
      ensures exc == NoExc ==> !Held(jobs[k].id) && landing == {} && line == Turns(Ids(jobs)[k + 1..])
      ensures exc == NoExc && !stop ==> ParkFree() && NoNewReady()
      ensures exc == NoExc && stop ==> exists r <- finished :: r.status == if deploy then NeedsReconcile else Validated
      decreases 1, 7
    {
      OneInClaimOrder(jobs, k, |jobs|);
      FewerSplit([jobs[k]], jobs);
      assert Ids(jobs)[k..][1..] == Ids(jobs)[k + 1..];
      MoveLine(TurnTaken(jobs[k].id));
      exc, stop, finished := IsolateOne(jobs[k]);
    }

    /** One isolated job, and whether isolation must stop after it. */
    method IsolateOne(job: Job) returns (exc: Exc, stop: bool, finished: seq<Result>)
      requires Valid() && job.id in rows && ParkFree() && landing == {} && Part(batch, [job], deploy)
      modifies this
      ensures TrainDone(exc)
      ensures Leaves(exc)
      ensures exc == NoExc ==> !Held(job.id) && Rested()
      ensures exc == NoExc && !stop ==> ParkFree() && NoNewReady()
      ensures exc == NoExc && stop ==> exists r <- finished :: r.status == if deploy then NeedsReconcile else Validated
      decreases 1, 6
    {
      exc, finished := ProcessBatch([job]);
      assert job in [job];
      stop := exists r <- finished :: r.status == if deploy then NeedsReconcile else Validated;
    }

    /** The untouched suffix goes back to the queue, in order. */
    method StopIsolation(jobs: seq<Job>, k: nat, soFar: seq<Result>) returns (exc: Exc, results: seq<Result>)
      requires Valid() && Known(jobs) && k < |jobs| && Released(jobs[..k + 1]) && landing == {}
      requires line == Turns(Ids(jobs)[k + 1..])
      modifies `rows, `lockMine, `held, `ready, `log, `story, `line
      ensures Valid() && Evolved() && Quiet(false) && NoNewReady()
      ensures Leaves(exc)
      ensures exc == NoExc ==> Released(jobs) && line == NoLine && RestBack(old(log), log, Ids(jobs)[k + 1..])
      ensures forall r <- soFar :: r in results
    {
      results := soFar;
      var busy: bool := *;
      if busy {
        exc := Busy;
        return;
      }
      var requeued;
      assert Ids(jobs[k + 1..]) == Ids(jobs)[k + 1..];
      exc, requeued := ReturnRest(jobs[k + 1..]);
      results := soFar + requeued;
      assert jobs == jobs[..k + 1] + jobs[k + 1..];
      if exc == NoExc {
        RestIsBack(old(log), log, Ids(jobs)[k + 1..]);
        MoveLine(IsolationEnded);
      }
    }

    /** Return the jobs that had no turn. */
    method ReturnRest(rest: seq<Job>) returns (exc: Exc, results: seq<Result>)
      requires Valid() && Known(rest) && landing == {} && line == Turns(Ids(rest))
      modifies `rows, `lockMine, `held, `ready, `log, `story, `line
      ensures Valid() && Evolved() && Quiet(false) && NoNewReady()
      ensures Leaves(exc)
      ensures exc == NoExc ==> Released(rest)
      ensures line == Returning(Ids(rest), |old(log)| + 1)
      ensures old(log) + [RestReturned] <= log && RequeuedInOrder(log[|old(log)| + 1..], Ids(rest))
    {
      MoveLine(RestReturned);
      exc, results := Requeue(rest);
    }
  }

  /** One claimed batch from the claim to the end, over every choice of the environment. */
  method RunBatch(jobs: seq<Job>, deploy: bool, claimed: map<JobId, Row>, lease: Token,
                  outside: Outside, reuse: bool, failOnMismatch: bool, verify: bool)
    returns (exc: Exc, results: seq<Result>, rows: map<JobId, Row>, log: seq<Event>)
    requires lease != "" && DistinctJobs(jobs)
    requires (forall j <- jobs :: j.id in claimed) && (forall id <- claimed :: !claimed[id].train.Mine?)
    // only a lost lease or a busy queue leaves by exception; otherwise no job is stranded
    ensures Leaves(exc)
    ensures exc == NoExc ==> forall j <- jobs :: j.id in rows && !HeldRow(rows[j.id], lease)
    // what is pushed: the gated tip, some of these jobs at their recorded commits, and nothing else
    ensures OnlyGatedShips(jobs, log)
    ensures !deploy ==> NoPush(log)
    // merges, gates and pushes end as the world says, and what ships is what passed its gates
    ensures AnswersAreTheWorlds(outside, log) && OnlyPassedShips(outside, log)
    // a failed gate run fails one job or a validated train, and has any other train bisected; an
    // unclear push parks its train, and an accepted one is recorded as landed
    ensures NothingGoesUnanswered(jobs, deploy, outside, log)
    // a push is started for marked and pinned jobs, behind its lock, by the holder of the lease
    ensures PushesAreArmed(log)
    // a job is recorded as deployed exactly when a push of it ended well and so was seen to land
    ensures HonestWrites(log) && LandingsFollowPushes(log)
    // every other verdict and every stop has a reason, and bisects blame and give up soundly
    ensures JustVerdicts(jobs, deploy, log) && ParksAreCaused(log) && SoundIsolations(outside, log)
    // isolated jobs take their turns in order, and the rest goes back to the queue in order
    ensures IsolationsKeepOrder(log)
    ensures exc == NoExc ==> LineOf(log) == NoLine
    // one open question
    ensures NoPushAfterPark(log)
    ensures exc == NoExc && !NoPark(log) ==>
      (exists r <- results :: r.status == NeedsReconcile) || forall id <- rows :: !HeldRow(rows[id], lease)
    // one train
    ensures forall a <- rows, b <- rows :: ReadyRow(rows[a]) && ReadyRow(rows[b]) ==> rows[a].train == rows[b].train
    ensures deploy ==> forall a <- rows :: !ReadyRow(rows[a])
  {
    WholeInClaimOrder(jobs, |jobs|);
    assert jobs[..|jobs|] == jobs;
    var runner := new Runner(jobs, deploy, lease, outside, claimed, reuse, failOnMismatch, verify);
    exc, results := runner.ProcessBatch(jobs);
    rows, log := runner.rows, runner.log;
    TellsTruth(jobs, deploy, outside, log, Tale(runner.story, runner.line));
    LogOkMeans(jobs, deploy, outside, log);
    StoryCounts(log);
  }

  lemma ResolveKept(jobs: seq<Job>, k: nat)
    requires DistinctJobs(jobs) && k < |jobs|
    ensures forall j <- jobs[..k] :: j.id != jobs[k].id
  {
  }

  /** The jobs whose id is kept, in order. */
  function Keep(jobs: seq<Job>, ids: set<JobId>): (r: seq<Job>)
    ensures |r| <= |jobs| && forall j <- r :: j in jobs && j.id in ids
  {
    if jobs == [] then []
    else if jobs[0].id in ids then [jobs[0]] + Keep(jobs[1..], ids)
    else Keep(jobs[1..], ids)
  }

  /** Every merged job is blamed or survives. */
  lemma SplitByGoods(merged: seq<Job>, blamed: seq<JobId>, goods: seq<JobId>)
    requires Bisect.Members(blamed) + Bisect.Members(goods) == Bisect.Members(Ids(merged))
    ensures forall j <- merged :: j.id in blamed || j in Keep(merged, Bisect.Members(goods))
  {
    forall j <- merged ensures j.id in blamed || j in Keep(merged, Bisect.Members(goods)) {
      var i :| 0 <= i < |merged| && merged[i] == j;
      assert Ids(merged)[i] == j.id;
      assert j.id in Bisect.Members(Ids(merged));
      if j.id in Bisect.Members(goods) {
        KeepHas(merged, Bisect.Members(goods), j);
      }
    }
  }

  lemma {:induction false} KeepDistinct(jobs: seq<Job>, ids: set<JobId>)
    requires DistinctJobs(jobs)
    ensures DistinctJobs(Keep(jobs, ids))
  {
    if jobs != [] {
      KeepDistinct(jobs[1..], ids);
      assert forall j <- Keep(jobs[1..], ids) :: j in jobs[1..];
    }
  }

  lemma {:induction false} KeepHas(jobs: seq<Job>, ids: set<JobId>, job: Job)
    requires job in jobs && job.id in ids
    ensures job in Keep(jobs, ids)
  {
    if job != jobs[0] {
      KeepHas(jobs[1..], ids, job);
    }
  }

  lemma IdsCons(job: Job, rest: seq<Job>)
    ensures Ids([job] + rest) == [job.id] + Ids(rest)
  {
  }

  lemma {:induction false} KeepInOrder(jobs: seq<Job>, ids: set<JobId>)
    ensures Ids(Keep(jobs, ids)) == Bisect.InOrder(Ids(jobs), ids)
  {
    if jobs != [] {
      var job, rest := jobs[0], jobs[1..];
      assert jobs == [job] + rest;
      IdsCons(job, rest);
      assert Ids(jobs)[1..] == Ids(rest);
      KeepInOrder(rest, ids);
      if job.id in ids {
        IdsCons(job, Keep(rest, ids));
      }
    }
  }

  lemma {:induction false} RidesInAll(jobs: seq<Job>, merged: seq<Job>, k: nat)
    requires k <= |jobs| && InClaimOrder(merged, jobs, k)
    ensures InClaimOrder(merged, jobs, |jobs|)
    decreases |jobs| - k
  {
    if k < |jobs| {
      ClaimOrderLonger(merged, jobs, k);
      RidesInAll(jobs, merged, k + 1);
    }
  }

  lemma RidesNext(jobs: seq<Job>, merged: seq<Job>, k: nat)
    requires DistinctJobs(jobs) && k < |jobs| && InClaimOrder(merged, jobs, k)
    ensures forall j <- merged :: j.id != jobs[k].id
  {
    ClaimOrderMembers(merged, jobs, k);
  }

  lemma {:induction false} ClaimOrderDistinct(chosen: seq<Job>, claimed: seq<Job>, k: nat)
    requires k <= |claimed| && InClaimOrder(chosen, claimed, k) && DistinctJobs(claimed)
    ensures DistinctJobs(chosen)
    decreases k
  {
    if chosen != [] {
      assert EndsInClaimOrder(chosen, claimed, k);
      var last := |chosen| - 1;
      if chosen[last] == claimed[k - 1] {
        ClaimOrderDistinct(chosen[..last], claimed, k - 1);
        RidesNext(claimed, chosen[..last], k - 1);
        assert forall i | 0 <= i < last :: chosen[i] in chosen[..last];
      } else {
        ClaimOrderDistinct(chosen, claimed, k - 1);
      }
    }
  }

  /** A part of a part is a part. */
  lemma PartIsPart(batch: seq<Job>, jobs: seq<Job>, merged: seq<Job>)
    requires Part(batch, jobs, true) && InClaimOrder(merged, jobs, |jobs|)
    requires DeploysValidated(jobs) ==> |merged| == |jobs|
    ensures Part(batch, merged, true)
    ensures DeploysValidated(jobs) <==> DeploysValidated(batch)
  {
    assert jobs[..|jobs|] == jobs;
    ClaimOrderComposes(merged, jobs, |jobs|, batch, |batch|);
    ClaimOrderMembers(merged, jobs, |jobs|);
    ClaimOrderMembers(jobs, batch, |batch|);
    assert batch[..|batch|] == batch;
  }

  /** What goes in front of the claimed jobs may go in front of the chosen ones. */
  lemma {:induction false} ClaimOrderFront(chosen: seq<Job>, claimed: seq<Job>, k: nat, job: Job)
    requires k <= |claimed| && InClaimOrder(chosen, claimed, k)
    ensures InClaimOrder(chosen, [job] + claimed, k + 1)
    ensures InClaimOrder([job] + chosen, [job] + claimed, k + 1)
    decreases k
  {
    var more := [job] + claimed;
    if k == 0 {
      assert chosen == [] && [job] + chosen == [job];
      OneInClaimOrder(more, 0, 1);
    } else {
      assert more[k] == claimed[k - 1];
      if chosen != [] && chosen[|chosen| - 1] == claimed[k - 1] {
        var rest := chosen[..|chosen| - 1];
        assert EndsInClaimOrder(chosen, claimed, k);
        ClaimOrderFront(rest, claimed, k - 1, job);
        ClaimOrderNext(rest, more, k);
        ClaimOrderNext([job] + rest, more, k);
        assert rest + [more[k]] == chosen && ([job] + rest) + [more[k]] == [job] + chosen;
      } else {
        assert chosen != [] ==> EndsInClaimOrder(chosen, claimed, k);
        ClaimOrderFront(chosen, claimed, k - 1, job);
        ClaimOrderLonger(chosen, more, k);
        ClaimOrderLonger([job] + chosen, more, k);
      }
    }
  }

  lemma {:induction false} KeepInClaimOrder(jobs: seq<Job>, ids: set<JobId>)
    ensures InClaimOrder(Keep(jobs, ids), jobs, |jobs|)
  {
    if jobs != [] {
      KeepInClaimOrder(jobs[1..], ids);
      ClaimOrderFront(Keep(jobs[1..], ids), jobs[1..], |jobs| - 1, jobs[0]);
      assert [jobs[0]] + jobs[1..] == jobs;
    }
  }

  /** Every job is affected, or among the others. */
  lemma AffectedOrNot(jobs: seq<Job>, affected: seq<Job>)
    ensures IdSet(jobs) <= IdSet(affected) + IdSet(NotIn(jobs, affected))
  {
    forall j <- jobs ensures j.id in IdSet(affected) + IdSet(NotIn(jobs, affected)) {
      NotInCovers(jobs, affected, j);
    }
  }

  lemma IdsListed(jobs: seq<Job>)
    ensures IdsIn(Ids(jobs)) == IdSet(jobs)
  {
    forall id <- IdSet(jobs) ensures id in Ids(jobs) {
      var j :| j in jobs && j.id == id;
      var i :| 0 <= i < |jobs| && jobs[i] == j;
      assert Ids(jobs)[i] == id;
    }
  }

  lemma LandTells(t: Tale, n: nat, jobs: seq<Job>)
    ensures TaleAfter(t, n, PushLanded(Ids(jobs)))
         == t.(story := t.story.(landed := t.story.landed + IdSet(jobs), flying := [], owed := Nothing))
  {
    IdsListed(jobs);
    NothingAdded(t.story);
  }

  lemma WriteTells(t: Tale, n: nat, id: JobId, status: Status, asked: bool)
    requires t.story.owed == Nothing
    ensures TaleAfter(t, n, Wrote(id, status, asked))
         == t.(story := t.story.(parked := t.story.parked || status == NeedsReconcile))
  {
    NothingAdded(t.story);
  }

  lemma NothingAdded(s: Story)
    ensures s.landed + {} == s.landed && s.doomed + {} == s.doomed && s.blamed + {} == s.blamed
    ensures s.unsure + {} == s.unsure && s.bisected + {} == s.bisected
    ensures s.canceled + {} == s.canceled && s.freed + {} == s.freed
  {
  }

  /** Only what a bisect or a stopped train says is a reason for a verdict; a job may also be
      blamed for its branch or its merge. */
  predicate TellsOnly(before: Story, after: Story, e: Event) {
    && after.landed == before.landed
    && (e.Isolated? || e.Stopped? || (after.doomed == before.doomed && after.unsure == before.unsure))
    && (e.Stopped? || (after.canceled == before.canceled && after.freed == before.freed))
    && (e.Isolated? || e.BisectGaveUp? || after.bisected == before.bisected)
    && (e.Isolated? || e.Stopped? || e.HeadMoved? || e.MergeRan? || after.blamed == before.blamed)
  }

  lemma NoneLanded(t: Tale, n: nat, e: Event)
    requires !e.PushLanded? && !e.Wrote? && !MovesLine(e)
    ensures TellsOnly(t.story, Told(t.story, e), e)
    ensures TaleAfter(t, n, e) == Tale(Told(t.story, e), t.line)
  {
    NothingAdded(t.story);
  }

  /** A step on the way to a push. */
  predicate ArmsPush(e: Event) { e.MarkersWritten? || e.PinsWritten? || e.PushLockTaken? || e.LeaseSeen? }

  lemma NothingTold(t: Tale, n: nat, e: Event)
    requires ArmsPush(e) && t.story.owed == Nothing
    ensures TaleAfter(t, n, e) == t
  {
    NothingAdded(t.story);
  }

  /** A step of an isolation job by job. */
  predicate MovesLine(e: Event) { e.BisectGaveUp? || e.TurnTaken? || e.RestReturned? || e.IsolationEnded? }

  lemma LineTells(t: Tale, n: nat, e: Event)
    requires MovesLine(e)
    ensures
      var s := t.story;
      TaleAfter(t, n, e) == Tale(s.(owed := Nothing, bisected := s.bisected + BisectedBy(e)), LineAfter(t.line, n, e))
  {
    NothingAdded(t.story);
  }

  /** The log ends with the end of an isolation and, right before it, the return of these jobs. */
  predicate RestBack(before: seq<Event>, log: seq<Event>, ids: seq<JobId>) {
    if ids == [] && log == before + [IsolationEnded] then true
    else
      && before + [RestReturned] <= log && |log| >= |before| + 2 && log[|log| - 1] == IsolationEnded
      && RequeuedInOrder(log[|before| + 1..|log| - 1], ids)
  }

  lemma RestIsBack(before: seq<Event>, returned: seq<Event>, ids: seq<JobId>)
    requires before + [RestReturned] <= returned && RequeuedInOrder(returned[|before| + 1..], ids)
    ensures RestBack(before, returned + [IsolationEnded], ids)
  {
    var log := returned + [IsolationEnded];
    assert log[|before| + 1..|log| - 1] == returned[|before| + 1..];
  }

  /** The worktree in the log is that of these merges, and they made `tip`. */
  ghost predicate Tracks(
    tree: Assembly, base: Commit, head: Commit, tip: Commit, merged: seq<Job>, shas: map<JobId, Commit>)
    requires forall j <- merged :: j.id in shas
  {
    && tree.head == head && tree.base == base && tree.merged == merged && tree.tasks == PinsOf(merged, shas)
    && Straight(base, tip, tree.tasks, tree.strays)
  }

  /** The jobs that count as merged after the merge of one more. */
  function MergedAfter(merged: seq<Job>, job: Job, outcome: MergeOutcome): seq<Job> {
    if outcome.CleanMerge? then merged + [job] else merged
  }

  lemma MergeTracks(tree: Assembly, base: Commit, head: Commit, merged: seq<Job>, shas: map<JobId, Commit>,
                    job: Job, outcome: MergeOutcome)
    requires (forall j <- merged :: j.id in shas) && job.id in shas
    requires forall j <- MergedAfter(merged, job, outcome) :: j.id in shas
    requires Tracks(tree, base, head, head, merged, shas)
    ensures
      var moved := if outcome.FailedInPlace? then head else Merged(head, shas[job.id]);
      Tracks(AfterMerge(tree, job, shas[job.id], outcome), base, moved, if outcome.DirtyMerge? then head else moved,
             MergedAfter(merged, job, outcome), shas)
  {
    if outcome.CleanMerge? {
      PinsAppend(merged, shas, job);
    }
    if !outcome.DirtyMerge? {
      StraightMerge(tree, job, shas[job.id], outcome);
    }
  }

  lemma PinsAppend(merged: seq<Job>, shas: map<JobId, Commit>, job: Job)
    requires (forall j <- merged :: j.id in shas) && job.id in shas && forall j <- merged + [job] :: j.id in shas
    ensures PinsOf(merged + [job], shas) == PinsOf(merged, shas) + [shas[job.id]]
  {
  }

  lemma MergeKeeps(jobs: seq<Job>, merged: seq<Job>, shas: map<JobId, Commit>, validated: bool, k: nat,
                   outcome: MergeOutcome)
    requires k < |jobs| && InClaimOrder(merged, jobs, k)
    requires RideAsRecorded(merged, shas, validated) && jobs[k].id in shas
    requires Expected(jobs[k], validated) != NoCommit ==> shas[jobs[k].id] == Expected(jobs[k], validated)
    ensures
      var after := MergedAfter(merged, jobs[k], outcome);
      && InClaimOrder(after, jobs, k + 1) && RideAsRecorded(after, shas, validated)
      && forall j <- after :: j.id in shas
  {
    ClaimOrderLonger(merged, jobs, k);
    ClaimOrderNext(merged, jobs, k);
  }

  lemma KeepPins(merged: seq<Job>, shas: map<JobId, Commit>, job: Job, sha: Commit)
    requires forall j <- merged :: j.id in shas && j.id != job.id
    ensures PinsOf(merged, shas[job.id := sha]) == PinsOf(merged, shas)
  {
  }

  /** The jobs of `jobs` whose id is not among the ids of `others`, in order. */
  function NotIn(jobs: seq<Job>, others: seq<Job>): (r: seq<Job>)
    ensures forall j <- r :: j in jobs && forall o <- others :: o.id != j.id
  {
    if jobs == [] then []
    else if exists o <- others :: o.id == jobs[0].id then NotIn(jobs[1..], others)
    else [jobs[0]] + NotIn(jobs[1..], others)
  }

  lemma {:induction false} NotInCovers(jobs: seq<Job>, others: seq<Job>, job: Job)
    requires job in jobs
    ensures job in NotIn(jobs, others) || exists o <- others :: o.id == job.id
  {
    if job != jobs[0] {
      NotInCovers(jobs[1..], others, job);
    }
  }

  /** At most one row was written: with `status`, or with `canceled` when a request stood in the way. */
  predicate WroteAtMost(before: seq<Event>, after: seq<Event>, id: JobId, status: Status) {
    after == before || GrewByWrite(before, after, id, status) || GrewByWrite(before, after, id, Canceled)
  }

  predicate GrewByWrite(before: seq<Event>, after: seq<Event>, id: JobId, status: Status) {
    |after| == |before| + 1 && before <= after && IsWrite(after[|before|], id, status)
  }

  predicate IsWrite(e: Event, id: JobId, status: Status) { e.Wrote? && e.id == id && e.status == status }

  /** The log grew by writes for the listed jobs only, with `status` or `canceled`. */
  predicate WritesSince(before: seq<Event>, log: seq<Event>, jobs: seq<Job>, status: Status) {
    && before <= log
    && forall i | |before| <= i < |log| ::
         log[i].Wrote? && log[i].id in IdSet(jobs) && log[i].status in {status, Canceled}
  }

  /** The log grew by writes for the train's jobs only: the affected ones with `status`, the
      others with `queued`, or `canceled`. */
  predicate SettledSince(before: seq<Event>, log: seq<Event>, jobs: seq<Job>, affected: seq<Job>, status: Status) {
    && before <= log
    && forall i | |before| <= i < |log| ::
         && log[i].Wrote? && log[i].id in IdSet(jobs)
         && log[i].status in {if log[i].id in IdSet(affected) then status else Queued, Canceled}
  }

  lemma SettlesAffected(before: seq<Event>, log: seq<Event>, jobs: seq<Job>, affected: seq<Job>, status: Status)
    requires WritesSince(before, log, affected, status) && forall j <- affected :: j in jobs
    ensures SettledSince(before, log, jobs, affected, status)
  {
  }

  lemma ThenRequeues(before: seq<Event>, settled: seq<Event>, log: seq<Event>,
                     jobs: seq<Job>, affected: seq<Job>, status: Status)
    requires SettledSince(before, settled, jobs, affected, status)
    requires WritesSince(settled, log, NotIn(jobs, affected), Queued)
    ensures SettledSince(before, log, jobs, affected, status)
  {
    forall i | |before| <= i < |log|
      ensures
        && log[i].Wrote? && log[i].id in IdSet(jobs)
        && log[i].status in {if log[i].id in IdSet(affected) then status else Queued, Canceled}
    {
      if i < |settled| { assert log[i] == settled[i]; }
    }
  }

  /** The log grew by the writes of the first listed jobs, in order. */
  predicate FinishedSince(before: seq<Event>, log: seq<Event>, ids: seq<JobId>, status: Status) {
    && before <= log && |log| <= |before| + |ids|
    && forall i | |before| <= i < |log| ::
         IsWrite(log[i], ids[i - |before|], status) || IsWrite(log[i], ids[i - |before|], Canceled)
  }

  /** The log grew by the verdicts on the blamed jobs, in order: `failed` for a job that fails
      alone, `blocked` for a member of a conflict set. */
  predicate JudgedSince(before: seq<Event>, log: seq<Event>, isolation: Bisect.Isolation) {
    var blamed := Bisect.Blamed(isolation.singles, isolation.conflictSets);
    && before <= log && |log| <= |before| + |blamed|
    && forall i | |before| <= i < |log| ::
         var k := i - |before|;
         || IsWrite(log[i], blamed[k], if k < |isolation.singles| then Failed else Blocked)
         || IsWrite(log[i], blamed[k], Canceled)
  }

  lemma JudgedInTurn(before: seq<Event>, failed: seq<Event>, log: seq<Event>, isolation: Bisect.Isolation)
    requires FinishedSince(before, failed, isolation.singles, Failed)
    requires FinishedSince(failed, log, Bisect.Flatten(isolation.conflictSets), Blocked)
    requires log == failed || |failed| == |before| + |isolation.singles|
    ensures JudgedSince(before, log, isolation)
  {
    var blamed := Bisect.Blamed(isolation.singles, isolation.conflictSets);
    forall i | |before| <= i < |log|
      ensures
        var k := i - |before|;
        || IsWrite(log[i], blamed[k], if k < |isolation.singles| then Failed else Blocked)
        || IsWrite(log[i], blamed[k], Canceled)
    {
      if i < |failed| { assert log[i] == failed[i]; }
    }
  }

  lemma NextFinish(before: seq<Event>, log: seq<Event>, after: seq<Event>,
                   ids: seq<JobId>, k: nat, status: Status)
    requires k < |ids| && |log| == |before| + k && FinishedSince(before, log, ids, status)
    requires WroteAtMost(log, after, ids[k], status)
    ensures FinishedSince(before, after, ids, status)
  {
  }

  lemma NextWrite(before: seq<Event>, log: seq<Event>, after: seq<Event>, jobs: seq<Job>, k: nat, status: Status)
    requires k < |jobs| && WritesSince(before, log, jobs, status) && WroteAtMost(log, after, jobs[k].id, status)
    ensures WritesSince(before, after, jobs, status)
  {
    assert jobs[k] in jobs;
  }

  lemma NextRequeue(before: seq<Event>, log: seq<Event>, after: seq<Event>, ids: seq<JobId>, k: nat)
    requires before <= log && k < |ids|
    requires RequeuedInOrder(log[|before|..], ids[..k]) && WroteAtMost(log, after, ids[k], Queued)
    ensures before <= after && RequeuedInOrder(after[|before|..], ids[..k + 1])
  {
    assert ids[..k + 1] == ids[..k] + [ids[k]];
    if after == log {
      RequeueSkips(log[|before|..], ids[..k], ids[k]);
    } else {
      RequeueAppends(log[|before|..], ids[..k], ids[k], after[|log|]);
      assert after[|before|..] == log[|before|..] + [after[|log|]];
    }
  }

  lemma {:induction false} RequeueCut(evs: seq<Event>, ids: seq<JobId>, k: nat)
    requires k <= |ids| && RequeuedInOrder(evs, ids[..k])
    ensures RequeuedInOrder(evs, ids)
    decreases |ids| - k
  {
    if k == |ids| {
      assert ids[..k] == ids;
    } else {
      RequeueSkips(evs, ids[..k], ids[k]);
      assert ids[..k + 1] == ids[..k] + [ids[k]];
      RequeueCut(evs, ids, k + 1);
    }
  }
}
