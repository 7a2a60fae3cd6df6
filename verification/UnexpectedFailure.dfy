/**
  A run in which a landed job is recorded as failed: the push has landed when an error that no
  handler expects is raised, and the handler of last resort records the train as failed. No
  reconcile takes the job up, and anyone may dismiss it, which drops its marker.
 */
module UnexpectedFailure {
  import opened Git
  import opened JobTable
  import opened DeployProtocol
  import opened DeploySafety
  import opened OvertakenReconcile

  const PUSH := PushId("a", 0)
  const PINNED := S3.(pins := map[1 := X])
  const LOCKED := PINNED.(runners := map["a" := Runner({1}, X, MAIN, Locked, 0)])
  const STARTED := LOCKED.(
    runners := map["a" := Runner({1}, X, MAIN, Pushing, 0)],
    pushes := map[PUSH := Push(X, {1}, MAIN, true, false)])
  const LANDED := STARTED.(
    pushes := map[PUSH := Push(X, {1}, MAIN, true, true)],
    tips := map["main" := X], audit := {X}, history := {("main", X)})
  const RAISED := LANDED.(runners := map["a" := Runner({1}, X, MAIN, Closing(Failed), 0)])
  const FAILED := RAISED.(rows := Job1(Row(Failed, "", false, X, NoTrain)))

  lemma ReachPinned()
    ensures Reached(PINNED)
  {
    assert Takes(S3, Pin("a", 1), PINNED);
    Reach3();
    Go(S3, Pin("a", 1), PINNED);
  }

  lemma ReachLocked()
    ensures Reached(LOCKED)
  {
    assert Takes(PINNED, TakePushLock("a"), LOCKED);
    ReachPinned();
    Go(PINNED, TakePushLock("a"), LOCKED);
  }

  lemma ReachStarted()
    ensures Reached(STARTED)
  {
    assert Takes(LOCKED, CheckLease("a"), STARTED);
    ReachLocked();
    Go(LOCKED, CheckLease("a"), STARTED);
  }

  lemma FirstPushLands()
    ensures AfterLand(STARTED, PUSH) == LANDED
  {
    LandsOnOneRef(STARTED, PUSH, "main");
  }

  lemma ReachLanded()
    ensures Reached(LANDED)
  {
    FirstPushLands();
    assert Takes(STARTED, Land(PUSH), LANDED);
    ReachStarted();
    Go(STARTED, Land(PUSH), LANDED);
  }

  /** The push has landed, no reconcile will look at the job, and it may be dismissed, after
      which nothing tells of the push. */
  ghost predicate Lost(s: State, id: PushId, j: JobId) {
    && id in s.pushes && s.pushes[id].landed && j in s.pushes[id].jobs
    && !CoveredBy(s, j, s.pushes[id].sha) && j !in Selected(s)
    && MayWithdraw(s, j) && WriteStatus(s, j, Canceled, NoCommit).rows[j].marker == NoCommit
  }

  lemma Raises()
    ensures Takes(LANDED, SeeUnexpected("a"), RAISED)
    ensures Reached(RAISED)
  {
    assert Takes(LANDED, SeeUnexpected("a"), RAISED);
    ReachLanded();
    Go(LANDED, SeeUnexpected("a"), RAISED);
  }

  lemma Closes()
    ensures Takes(RAISED, Close("a", 1), FAILED)
    ensures Reached(FAILED)
  {
    assert Takes(RAISED, Close("a", 1), FAILED);
    Raises();
    Go(RAISED, Close("a", 1), FAILED);
  }

  lemma FailedIsLost()
    ensures Lost(FAILED, PUSH, 1)
  {
  }

  lemma LandedIsCovered()
    ensures Covered(LANDED) && !Calm(LANDED, SeeUnexpected("a"))
  {
    assert CoveredBy(LANDED, 1, X);
  }

  /** The unexpected error is raised after the push has landed, and the job is lost. */
  lemma UnexpectedErrorLosesALandedJob()
    ensures Init(EMPTY) && Reached(LANDED) && Covered(LANDED)
    ensures Takes(LANDED, SeeUnexpected("a"), RAISED) && !Calm(LANDED, SeeUnexpected("a"))
    ensures Takes(RAISED, Close("a", 1), FAILED)
    ensures Reached(FAILED) && Lost(FAILED, PUSH, 1)
  {
    ReachLanded();
    LandedIsCovered();
    Raises();
    Closes();
    FailedIsLost();
  }
}
