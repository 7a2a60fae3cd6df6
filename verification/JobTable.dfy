/** Commits by content: which task commits were merged onto which base, in which order. */
module Git {

  datatype Commit = NoCommit | Root(name: string) | Merged(onto: Commit, task: Commit)

  /** The integration base with the given task commits merged in order. */
  function Fold(base: Commit, tasks: seq<Commit>): Commit {
    if tasks == [] then base
    else Merged(Fold(base, tasks[..|tasks| - 1]), tasks[|tasks| - 1])
  }

  lemma FoldAppend(base: Commit, tasks: seq<Commit>, task: Commit)
    ensures Fold(base, tasks + [task]) == Merged(Fold(base, tasks), task)
  {
    assert (tasks + [task])[..|tasks|] == tasks;
  }

  function Size(c: Commit): nat {
    if c.Merged? then 1 + Size(c.onto) else 0
  }

  lemma {:induction false} FoldSize(base: Commit, tasks: seq<Commit>)
    ensures Size(Fold(base, tasks)) == Size(base) + |tasks|
  {
    if tasks != [] { FoldSize(base, tasks[..|tasks| - 1]); }
  }

  /** A fold determines its task list: no other list over the same base gives the same commit. */
  lemma {:induction false} FoldInjective(base: Commit, a: seq<Commit>, b: seq<Commit>)
    requires Fold(base, a) == Fold(base, b)
    ensures a == b
  {
    FoldSize(base, a);
    FoldSize(base, b);
    if a != [] {
      FoldInjective(base, a[..|a| - 1], b[..|b| - 1]);
      assert a == a[..|a| - 1] + [a[|a| - 1]] && b == b[..|b| - 1] + [b[|b| - 1]];
    }
  }
}

/**
  The queue rows and the writes every runner and recovery path makes to them
  (`persistence/jobs.py`, `persistence/leases.py`, `persistence/recovery.py`).
 */
module JobTable {
  import opened Git

  type JobId = int
  /** A claim or lease token; the empty string is no token. */
  type Token = string

  datatype Status =
    | Queued | InProgress | Blocked | Failed | Validated | NeedsReconcile | Deployed | Canceled

  /** The identity of a validated train: one this runner created, or any other. */
  datatype Train = NoTrain | Mine(serial: nat) | Foreign(name: string)

  /** The columns that decide ownership, cancellation, recovery and deployment. `marker`
      is `pending_deploy_sha`, `NoCommit` when it is empty. */
  datatype Row = Row(
    status: Status,
    token: Token,
    cancelRequested: bool,
    marker: Commit,
    train: Train)

  /** The UPDATE of `mark_job`. */
  function MarkRow(row: Row, status: Status, train: Train): Row {
    Row(
      status,
      if status == InProgress then row.token else "",
      match status
      case InProgress | Canceled | NeedsReconcile => row.cancelRequested
      case Blocked => row.marker != NoCommit && row.cancelRequested
      case _ => false,
      if status in {Deployed, Canceled, Queued} then NoCommit else row.marker,
      if status == Queued then NoTrain else if train != NoTrain then train else row.train)
  }

  /** Statuses `mark_job` may write under a claim although a cancel was requested. */
  predicate IgnoresCancel(status: Status) {
    status in {Canceled, Deployed, NeedsReconcile}
  }

  /** The orphan split, `_requeue_orphans`: what becomes of one stopped runner's claim. */
  function SplitRow(row: Row): Row {
    if row.status != InProgress then row
    else if row.marker != NoCommit then row.(status := NeedsReconcile, token := "")
    else if row.cancelRequested then row.(status := Canceled, token := "")
    else Row(Queued, "", false, NoCommit, NoTrain)
  }

  /** What a stopped runner's claim must become, and that other rows stay: the remote decides what
      may have been pushed; otherwise a cancel that was asked for is honored, and any other job
      is a new one in the queue. */
  predicate Recovered(before: Row, after: Row) {
    && (before.status != InProgress ==> after == before)
    && (before.status == InProgress ==>
          && after.token == ""
          && (after.status == NeedsReconcile <==> before.marker != NoCommit)
          && (after.status == Canceled <==> before.marker == NoCommit && before.cancelRequested)
          && (after.status == Queued <==> before.marker == NoCommit && !before.cancelRequested)
          && after.marker == before.marker && after.cancelRequested == before.cancelRequested
          && after.train == if after.status == Queued then NoTrain else before.train)
  }

  lemma SplitRecovers(row: Row)
    ensures Recovered(row, SplitRow(row))
  {
  }

  /** What a decided status leaves in the columns: a parked or conflicting job keeps its marker
      and a cancel request for the reconcile to honor, a settled one keeps no marker, and a job
      that is queued again is a new one. */
  lemma MarkRowKeepsWhatIsStillOpen(row: Row, status: Status, train: Train)
    ensures
      var after := MarkRow(row, status, train);
      && after.status == status && (after.token != "" ==> status == InProgress && after.token == row.token)
      && (status in {NeedsReconcile, Blocked, InProgress, Failed, Validated} ==> after.marker == row.marker)
      && (status in {Deployed, Canceled, Queued} ==> after.marker == NoCommit)
      && (after.cancelRequested ==> row.cancelRequested)
      && (row.cancelRequested && CarriesOpenPush(after) ==> after.cancelRequested)
      && (after.cancelRequested ==> CarriesOpenPush(after) || status in {InProgress, NeedsReconcile, Canceled})
      && (status == Queued ==> after.train == NoTrain)
      && (status != Queued ==> after.train == if train == NoTrain then row.train else train)
  {
    match status
    case InProgress | Canceled | NeedsReconcile =>
    case Blocked =>
    case _ =>
  }

  /** A blocked job that kept its push marker: its push may have landed. */
  predicate IsReconcileConflict(row: Row) {
    row.status == Blocked && row.marker != NoCommit
  }

  /** Statuses in which a recorded push is still open. */
  predicate CarriesOpenPush(row: Row) {
    row.marker != NoCommit && row.status in {InProgress, NeedsReconcile, Blocked}
  }
}
