/**
  One reconcile (`recovery.reconcile`): it reads the parked jobs, asks the recorded targets of
  their pushes, and only then writes, each job by a compare-and-swap on the status it was read
  in. Other processes move jobs at any time.
 */
module Reconcile {
  import opened Git
  import opened JobTable
  import opened Classification

  /** Where an interrupted push went, as its marker recorded it; no destination for a marker of
      an old version. */
  datatype Target = Target(remote: string, refs: seq<string>, destination: string)

  /** A job as reconcile read it. */
  datatype Parked = Parked(id: JobId, status: Status, marker: Commit, cancelRequested: bool, target: Target)

  /** What is found out about one job: its commit, each push ref, and its audit ref. */
  datatype Findings = Findings(resolvable: bool, answers: seq<Ancestor>, audit: AuditView)

  /** What a target answers: nothing, or the findings of each job of its group. */
  datatype Answer = Silent | Answers(findings: JobId -> Findings)

  // ------------------------------------------------------------------ classifying a job

  /** `_classify`. */
  method ClassifyJob(f: Findings, cancelRequested: bool) returns (d: Decision)
    ensures d == Classify(f.resolvable, (set a <- f.answers), f.audit, cancelRequested)
  {
    var unknown, contained, missing := false, false, false;
    for i := 0 to |f.answers|
      invariant unknown <==> exists k :: 0 <= k < i && f.answers[k] == Unknown
      invariant contained <==> exists k :: 0 <= k < i && f.answers[k] == Yes
      invariant missing <==> exists k :: 0 <= k < i && f.answers[k] != Yes
    {
      if f.answers[i] == Unknown { unknown := true; }
      if f.answers[i] == Yes { contained := true; } else { missing := true; }
    }
    ghost var answers := set a <- f.answers;
    assert unknown <==> Unknown in answers;
    assert contained <==> Yes in answers;
    if missing {
      var k :| 0 <= k < |f.answers| && f.answers[k] != Yes;
      assert f.answers[k] in answers;
    }
    if !f.resolvable { return DecideBlocked; }
    if unknown { return DecideBlocked; }
    if f.audit == Other { return DecideBlocked; }
    if f.answers != [] && !missing {
      assert f.answers[0] in answers;
      assert answers == {Yes};
      return DecideDeployed;
    }
    assert answers != {Yes};
    if !contained {
      if f.audit == Matches { return DecideBlocked; }
      return if cancelRequested then DecideCanceled else DecideQueued;
    }
    return DecideBlocked;
  }

  /** Reconcile never decides to ship again, or to drop, what the remote shows in any way. */
  lemma DecisionsAreSafe(resolvable: bool, answers: set<Ancestor>, audit: AuditView, cancelRequested: bool)
    ensures
      var d := Classify(resolvable, answers, audit, cancelRequested);
      && (d == DecideDeployed <==> resolvable && audit != Other && answers == {Yes})
      && (d in {DecideQueued, DecideCanceled} <==> resolvable && audit == Absent && answers <= {No})
      && (d == DecideCanceled ==> cancelRequested) && (d == DecideQueued ==> !cancelRequested)
  {
    if Yes !in answers && Unknown !in answers {
      forall a <- answers ensures a == No {
        match a case Yes => case No => case Unknown =>
      }
    }
  }

  // ------------------------------------------------------------------ the run

  datatype Write = Write(id: JobId, before: Row, after: Row)

  datatype Summary = Summary(deployed: nat, queued: nat, canceled: nat, blocked: nat)

  datatype Result =
    | Finished(applied: seq<bool>, summary: Summary)
    | PushInFlight | LegacyMarker | RemoteUnreachable | QueueBusy

  function Counted(s: Summary, d: Decision): Summary {
    match d
    case DecideDeployed => s.(deployed := s.deployed + 1)
    case DecideQueued => s.(queued := s.queued + 1)
    case DecideCanceled => s.(canceled := s.canceled + 1)
    case DecideBlocked => s.(blocked := s.blocked + 1)
  }

  /** The decisions that were applied, counted. */
  function Summarize(decisions: seq<Decision>, applied: seq<bool>): Summary
    requires |applied| == |decisions|
  {
    if decisions == [] then Summary(0, 0, 0, 0)
    else
      var n := |decisions| - 1;
      var before := Summarize(decisions[..n], applied[..n]);
      if applied[n] then Counted(before, decisions[n]) else before
  }

  function StatusOf(d: Decision): Status {
    match d
    case DecideDeployed => Deployed
    case DecideQueued => Queued
    case DecideCanceled => Canceled
    case DecideBlocked => Blocked
  }

  /** A conflict that stays one needs no write. */
  predicate NeedsNoWrite(job: Parked, d: Decision) { d == DecideBlocked && job.status == Blocked }

  /** The decision for a job: that of its target's answer, and if the target stays silent, that
      the conflict stays as it is. */
  function DecisionOf(job: Parked, answer: Answer): Decision
  {
    match answer
    case Silent => DecideBlocked
    case Answers(findings) =>
      var f := findings(job.id);
      Classify(f.resolvable, (set a <- f.answers), f.audit, job.cancelRequested)
  }

  /** What reconcile takes up: every parked job, and a conflict whose target is on record. */
  predicate Selectable(row: Row, target: Target) {
    row.status == NeedsReconcile || (IsReconcileConflict(row) && target.destination != "")
  }

  function Snapshot(id: JobId, row: Row, target: Target): Parked {
    Parked(id, row.status, row.marker, row.cancelRequested, target)
  }

  /** The writes of the first `n` decisions: one for each that was applied and changes the job,
      from the status the job was read in to the one decided. */
  ghost predicate WritesOf(jobs: seq<Parked>, decisions: seq<Decision>, applied: seq<bool>, n: nat, writes: seq<Write>)
    requires n <= |applied| && n <= |decisions| && n <= |jobs|
  {
    if n == 0 then writes == []
    else if applied[n - 1] && !(decisions[n - 1] == DecideBlocked && jobs[n - 1].status == Blocked) then
      && writes != []
      && WriteOf(jobs[n - 1], decisions[n - 1], writes[|writes| - 1])
      && WritesOf(jobs, decisions, applied, n - 1, writes[..|writes| - 1])
    else WritesOf(jobs, decisions, applied, n - 1, writes)
  }

  predicate WriteOf(job: Parked, d: Decision, w: Write) {
    w.id == job.id && w.before.status == job.status && Decided(d, w.before, w.after)
  }

  /** The row that a decision writes: deployed with its train, queued as a new job, canceled with
      the request, or blocked with the marker and a request that is still to be honored. */
  predicate Decided(d: Decision, before: Row, after: Row) {
    match d
    case DecideDeployed => after == Row(Deployed, "", false, NoCommit, before.train)
    case DecideQueued => after == Row(Queued, "", false, NoCommit, NoTrain)
    case DecideCanceled => after == Row(Canceled, "", before.cancelRequested, NoCommit, before.train)
    case DecideBlocked =>
      after == Row(Blocked, "", before.marker != NoCommit && before.cancelRequested, before.marker, before.train)
  }

  lemma {:induction false} WritesOfPrefix(jobs: seq<Parked>, decisions: seq<Decision>, applied: seq<bool>,
                                          more: seq<bool>, n: nat, writes: seq<Write>)
    requires n <= |applied| <= |more| && n <= |decisions| && n <= |jobs| && more[..|applied|] == applied
    requires WritesOf(jobs, decisions, applied, n, writes)
    ensures WritesOf(jobs, decisions, more, n, writes)
  {
    if n > 0 {
      assert more[n - 1] == applied[n - 1] by { assert more[..|applied|][n - 1] == applied[n - 1]; }
      var wrote := applied[n - 1] && !NeedsNoWrite(jobs[n - 1], decisions[n - 1]);
      WritesOfPrefix(jobs, decisions, applied, more, n - 1, if wrote then writes[..|writes| - 1] else writes);
    }
  }

  class Table {
    const ids: seq<JobId>             // in order
    var rows: map<JobId, Row>
    var targets: map<JobId, Target>
    ghost var writes: seq<Write>      // of this reconcile

    constructor (ids: seq<JobId>, rows: map<JobId, Row>, targets: map<JobId, Target>)
      ensures this.ids == ids && this.rows == rows && this.targets == targets && writes == []
    {
      this.ids, this.rows, this.targets := ids, rows, targets;
      writes := [];
    }

    /** Other processes do whatever they do to the rows. */
    method Others()
      modifies `rows
    {
      rows := *;
    }

    /** The parked jobs and the conflicts that can be checked, in order. */
    method Select() returns (jobs: seq<Parked>)
      ensures forall k :: 0 <= k < |jobs| ==> IsSelected(jobs[k])
      ensures forall m :: 0 <= m < |ids| && Wanted(ids[m]) ==> HasJob(jobs, ids[m])
      ensures DistinctIds(ids) ==> EachOnce(jobs)
    {
      jobs := [];
      for i := 0 to |ids|
        invariant forall k :: 0 <= k < |jobs| ==> IsSelected(jobs[k])
        invariant forall m :: 0 <= m < i && Wanted(ids[m]) ==> HasJob(jobs, ids[m])
        invariant DistinctIds(ids) ==> EachOnce(jobs) && forall k, m :: 0 <= k < |jobs| && i <= m < |ids| ==>
          jobs[k].id != ids[m]
      {
        var id := ids[i];
        if Wanted(id) {
          ghost var before := jobs;
          jobs := jobs + [Snapshot(id, rows[id], targets[id])];
          assert jobs[|before|].id == id && forall k :: 0 <= k < |before| ==> jobs[k] == before[k];
        }
      }
    }

    predicate Wanted(id: JobId)
      reads this
    {
      id in rows && id in targets && Selectable(rows[id], targets[id])
    }

    ghost predicate IsSelected(job: Parked)
      reads this
    {
      job.id in ids && Wanted(job.id) && job == Snapshot(job.id, rows[job.id], targets[job.id])
    }

    /** `_apply`: a compare-and-swap on the status the job was read in. */
    method Apply(job: Parked, d: Decision) returns (busy: bool, applied: bool)
      modifies `rows, `writes
      ensures busy ==> !applied
      ensures applied && !(d == DecideBlocked && job.status == Blocked) ==>
        && job.id in old(rows) && job.id in rows
        && writes == old(writes) + [Write(job.id, old(rows)[job.id], rows[job.id])]
        && WriteOf(job, d, writes[|writes| - 1]) && rows == old(rows)[job.id := rows[job.id]]
      ensures !applied || (d == DecideBlocked && job.status == Blocked) ==> rows == old(rows) && writes == old(writes)
      ensures !busy ==> (applied <==> job.id in old(rows) && old(rows)[job.id].status == job.status)
    {
      if NeedsNoWrite(job, d) {
        return false, job.id in rows && rows[job.id].status == Blocked;
      }
      var contended: bool := *;
      if contended { return true, false; }
      if job.id !in rows || rows[job.id].status != job.status { return false, false; }
      var row := MarkRow(rows[job.id], StatusOf(d), NoTrain);
      writes := writes + [Write(job.id, rows[job.id], row)];
      rows := rows[job.id := row];
      return false, true;
    }

    /** Whether a push of a job may still land, and whether a marker names no destination. */
    method Precheck(jobs: seq<Parked>, inFlight: Commit -> bool) returns (flying: bool, legacy: bool)
      ensures flying <==> exists k :: 0 <= k < |jobs| && inFlight(jobs[k].marker)
      ensures !flying ==> (legacy <==> exists k :: 0 <= k < |jobs| && jobs[k].target.destination == "")
    {
      flying, legacy := false, false;
      for i := 0 to |jobs|
        invariant forall k :: 0 <= k < i ==> !inFlight(jobs[k].marker)
      {
        if inFlight(jobs[i].marker) { return true, false; }
      }
      for i := 0 to |jobs|
        invariant forall k :: 0 <= k < i ==> jobs[k].target.destination != ""
      {
        if jobs[i].target.destination == "" { return false, true; }
      }
    }

    /** Every group is classified before anything is written. */
    method ClassifyAll(jobs: seq<Parked>, ask: Target -> Answer) returns (reachable: bool, decisions: seq<Decision>)
      modifies `rows
      ensures reachable <==> !Unanswered(jobs, ask)
      ensures reachable ==> DecisionsAre(jobs, decisions, ask)
    {
      var targets := DistinctTargets(jobs);
      reachable, decisions := true, [];
      for i := 0 to |targets|
        invariant forall k, m :: 0 <= k < |jobs| && 0 <= m < i && jobs[k].target == targets[m] ==>
          !(jobs[k].status == NeedsReconcile && ask(jobs[k].target) == Silent)
      {
        Others();
        if ask(targets[i]) == Silent {
          for j := 0 to |jobs|
            invariant forall k :: 0 <= k < j && jobs[k].target == targets[i] ==> jobs[k].status != NeedsReconcile
          {
            if jobs[j].target == targets[i] && jobs[j].status == NeedsReconcile { return false, []; }
          }
        }
      }
      for i := 0 to |jobs|
        invariant |decisions| == i
        invariant forall k :: 0 <= k < i ==> decisions[k] == DecisionOf(jobs[k], ask(jobs[k].target))
      {
        var answer := ask(jobs[i].target);
        if answer == Silent {
          decisions := decisions + [DecideBlocked];
        } else {
          var d := ClassifyJob(answer.findings(jobs[i].id), jobs[i].cancelRequested);
          decisions := decisions + [d];
        }
      }
    }

    method DistinctTargets(jobs: seq<Parked>) returns (targets: seq<Target>)
      ensures forall k :: 0 <= k < |jobs| ==> jobs[k].target in targets
      ensures forall m, n :: 0 <= m < n < |targets| ==> targets[m] != targets[n]
    {
      targets := [];
      for i := 0 to |jobs|
        invariant forall k :: 0 <= k < i ==> jobs[k].target in targets
        invariant forall m, n :: 0 <= m < n < |targets| ==> targets[m] != targets[n]
      {
        if jobs[i].target !in targets {
          targets := targets + [jobs[i].target];
        }
      }
    }

    /** The decisions are written in order. */
    method ApplyAll(jobs: seq<Parked>, decisions: seq<Decision>) returns (busy: bool, applied: seq<bool>)
      requires |decisions| == |jobs| && writes == []
      modifies `rows, `writes
      ensures if busy then |applied| < |jobs| else |applied| == |jobs|
      ensures WritesOf(jobs, decisions, applied, |applied|, writes)
    {
      busy, applied := false, [];
      for i := 0 to |jobs|
        invariant |applied| == i && WritesOf(jobs, decisions, applied, i, writes)
      {
        Others();
        ghost var before := writes;
        var ok;
        busy, ok := Apply(jobs[i], decisions[i]);
        if busy { return; }
        WritesOfPrefix(jobs, decisions, applied, applied + [ok], i, before);
        applied := applied + [ok];
        if ok && !NeedsNoWrite(jobs[i], decisions[i]) { assert writes[..|writes| - 1] == before; }
      }
    }

    /** `reconcile`. Nothing is written while a push may still land, a marker is of an old
        version, or a target of a parked job stays silent. Otherwise each decision is the one
        its target's answer calls for, each write is the compare-and-swap of one decision, and
        the summary counts exactly the decisions that took effect. */
    method Run(apply: bool, inFlight: Commit -> bool, ask: Target -> Answer)
      returns (jobs: seq<Parked>, decisions: seq<Decision>, r: Result)
      requires writes == []
      modifies `rows, `writes
      ensures forall k :: 0 <= k < |jobs| ==> old(IsSelected(jobs[k]))
      ensures forall m :: 0 <= m < |ids| && old(Wanted(ids[m])) ==> HasJob(jobs, ids[m])
      ensures DistinctIds(ids) ==> EachOnce(jobs)
      ensures r == PushInFlight <==> Flying(jobs, inFlight)
      ensures r == LegacyMarker <==> !Flying(jobs, inFlight) && Legacy(jobs)
      ensures r == RemoteUnreachable <==> !Flying(jobs, inFlight) && !Legacy(jobs) && Unanswered(jobs, ask)
      ensures r.Finished? || r == QueueBusy ==> DecisionsAre(jobs, decisions, ask)
      ensures r.Finished? ==> |r.applied| == |jobs| && r.summary == Summarize(decisions, r.applied)
      ensures r.Finished? && apply ==> WritesOf(jobs, decisions, r.applied, |jobs|, writes)
      ensures r.Finished? && !apply ==> forall k :: 0 <= k < |jobs| ==> r.applied[k]
      ensures !apply || !(r.Finished? || r == QueueBusy) ==> writes == []
      ensures r == QueueBusy ==> apply && StoppedMidway(jobs, decisions, writes)
    {
      jobs := Select();
      decisions := [];
      var flying, legacy := Precheck(jobs, inFlight);
      if flying { return jobs, [], PushInFlight; }
      if legacy { return jobs, [], LegacyMarker; }
      var reachable;
      reachable, decisions := ClassifyAll(jobs, ask);
      if !reachable { return jobs, [], RemoteUnreachable; }
      var applied := seq(|jobs|, _ => true);
      if apply {
        var busy;
        busy, applied := ApplyAll(jobs, decisions);
        if busy {
          assert WritesOf(jobs, decisions, applied, |applied|, writes);
          return jobs, decisions, QueueBusy;
        }
      }
      r := Finished(applied, Summarize(decisions, applied));
    }
  }

  /** A reconcile on a queue of its own, so that all its writes are seen. */
  method ReconcileOnce(ids: seq<JobId>, rows: map<JobId, Row>, targets: map<JobId, Target>, apply: bool,
                       inFlight: Commit -> bool, ask: Target -> Answer)
    returns (jobs: seq<Parked>, decisions: seq<Decision>, r: Result, ghost writes: seq<Write>)
    // what is taken up, each job once: the parked jobs and the conflicts with a recorded target
    ensures forall k :: 0 <= k < |jobs| ==>
      && jobs[k].id in ids && jobs[k].id in rows && jobs[k].id in targets
      && TakenUp(rows[jobs[k].id], targets[jobs[k].id], jobs[k])
    ensures forall id <- ids :: id in rows && id in targets && !HasJob(jobs, id) ==>
      rows[id].status != NeedsReconcile
      && (rows[id].status == Blocked && rows[id].marker != NoCommit ==> targets[id].destination == "")
    ensures DistinctIds(ids) ==> EachOnce(jobs)
    ensures Flying(jobs, inFlight) || Legacy(jobs) || Unanswered(jobs, ask) <==>
            r in {PushInFlight, LegacyMarker, RemoteUnreachable}
    ensures r in {PushInFlight, LegacyMarker, RemoteUnreachable} ==> writes == []
    ensures r.Finished? || r == QueueBusy ==> DecisionsAre(jobs, decisions, ask)
    ensures r.Finished? ==> |r.applied| == |jobs| && r.summary == Summarize(decisions, r.applied)
    ensures r.Finished? && apply ==> WritesOf(jobs, decisions, r.applied, |jobs|, writes)
    ensures r.Finished? && !apply ==> forall k :: 0 <= k < |jobs| ==> r.applied[k]
    ensures !apply ==> writes == []
    // a queue that turns busy stops the writes at some job, and what was written stays written
    ensures r == QueueBusy ==> apply && StoppedMidway(jobs, decisions, writes)
  {
    var table := new Table(ids, rows, targets);
    jobs, decisions, r := table.Run(apply, inFlight, ask);
    writes := table.writes;
  }

  /** The job is parked, or a conflict with a recorded target, and was read as it stands. */
  predicate TakenUp(row: Row, target: Target, job: Parked) {
    && (row.status == NeedsReconcile
        || (row.status == Blocked && row.marker != NoCommit && target.destination != ""))
    && job.status == row.status && job.marker == row.marker && job.cancelRequested == row.cancelRequested
    && job.target == target
  }

  predicate DistinctIds(ids: seq<JobId>) { forall i, j :: 0 <= i < j < |ids| ==> ids[i] != ids[j] }

  predicate EachOnce(jobs: seq<Parked>) { forall i, j :: 0 <= i < j < |jobs| ==> jobs[i].id != jobs[j].id }

  predicate HasJob(jobs: seq<Parked>, id: JobId) { exists k :: 0 <= k < |jobs| && jobs[k].id == id }

  /** The writes are those of the decisions on some of the first jobs, up to the one that met a
      busy queue. */
  ghost predicate StoppedMidway(jobs: seq<Parked>, decisions: seq<Decision>, writes: seq<Write>)
    requires |decisions| == |jobs|
  {
    exists applied: seq<bool> :: |applied| < |jobs| && WritesOf(jobs, decisions, applied, |applied|, writes)
  }

  predicate Flying(jobs: seq<Parked>, inFlight: Commit -> bool) {
    exists k :: 0 <= k < |jobs| && inFlight(jobs[k].marker)
  }

  predicate Legacy(jobs: seq<Parked>) { exists k :: 0 <= k < |jobs| && jobs[k].target.destination == "" }

  predicate Unanswered(jobs: seq<Parked>, ask: Target -> Answer) {
    exists k :: 0 <= k < |jobs| && jobs[k].status == NeedsReconcile && ask(jobs[k].target) == Silent
  }

  predicate DecisionsAre(jobs: seq<Parked>, decisions: seq<Decision>, ask: Target -> Answer) {
    |decisions| == |jobs| && forall k :: 0 <= k < |jobs| ==> decisions[k] == DecisionOf(jobs[k], ask(jobs[k].target))
  }

  /** The summary counts the decisions that were applied, each kind by itself. */
  function CountOf(decisions: seq<Decision>, applied: seq<bool>, d: Decision): nat
    requires |applied| == |decisions|
  {
    if decisions == [] then 0
    else
      var n := |decisions| - 1;
      CountOf(decisions[..n], applied[..n], d) + if applied[n] && decisions[n] == d then 1 else 0
  }

  lemma {:induction false} SummaryCountsWhatTookEffect(decisions: seq<Decision>, applied: seq<bool>)
    requires |applied| == |decisions|
    ensures Summarize(decisions, applied) == Summary(
      CountOf(decisions, applied, DecideDeployed), CountOf(decisions, applied, DecideQueued),
      CountOf(decisions, applied, DecideCanceled), CountOf(decisions, applied, DecideBlocked))
  {
    if decisions != [] {
      SummaryCountsWhatTookEffect(decisions[..|decisions| - 1], applied[..|decisions| - 1]);
    }
  }

  /** A preview of a stopped runner's queue sees what the applied run sees after the split. */
  lemma PreviewSeesWhatTheRunSees(row: Row, target: Target)
    ensures
      var parked := row.status == InProgress && row.marker != NoCommit;
      && (Selectable(SplitRow(row), target) <==> Selectable(row, target) || parked)
      && (parked ==> SplitRow(row).status == NeedsReconcile && SplitRow(row).marker == row.marker
                     && SplitRow(row).cancelRequested == row.cancelRequested)
      && (Selectable(row, target) ==> SplitRow(row) == row)
  {
  }
}
