/**
  One claim ships several trains: any job that a runner still holds can ride a push alone, and
  the runner goes on with the rest of its claim under the same lease. This is what the survivors
  of a bisect and jobs that are isolated one by one do.
 */
module TrainsOfOneClaim {
  import opened Git
  import opened JobTable
  import opened DeployProtocol
  import opened DeploySafety
  import opened OvertakenReconcile

  /** The runner holds the lease and is free to ship this job of its claim. */
  predicate ReadyToShip(s: State, t: Token, j: JobId, sha: Commit) {
    && AtPc(s, t, Working) && s.lock == t && Holds(s.rows, t, j) && !s.rows[j].cancelRequested
    && sha != NoCommit && !PushLockHeld(s, sha)
  }

  /** Marked and pinned, with the push lock taken. */
  function Prepared(s: State, t: Token, j: JobId, sha: Commit, ref: Ref): State
    requires t in s.runners
  {
    WithPc(AfterPin(AfterRecordMarker(s, t, {j}, sha, {ref}), t, j), t, Locked)
  }

  lemma Prepares(s: State, t: Token, j: JobId, sha: Commit, ref: Ref)
    requires Reached(s) && ReadyToShip(s, t, j, sha)
    ensures Reached(Prepared(s, t, j, sha, ref))
  {
    var marked := AfterRecordMarker(s, t, {j}, sha, {ref});
    Go(s, RecordMarker(t, {j}, sha, {ref}), marked);
    Go(marked, Pin(t, j), AfterPin(marked, t, j));
    LockStaysFree(s, t, j, sha, ref);
    TakesTheLock(AfterPin(marked, t, j), t, j);
  }

  lemma TakesTheLock(s: State, t: Token, j: JobId)
    requires Reached(s) && AtPc(s, t, Marked) && s.runners[t].refs != {} && s.runners[t].riders == {j}
    requires j in s.pins && s.pins[j] == s.runners[t].sha && !PushLockHeld(s, s.runners[t].sha)
    ensures Reached(WithPc(s, t, Locked))
  {
    Go(s, TakePushLock(t), WithPc(s, t, Locked));
  }

  lemma LockStaysFree(s: State, t: Token, j: JobId, sha: Commit, ref: Ref)
    requires ReadyToShip(s, t, j, sha)
    ensures !PushLockHeld(AfterPin(AfterRecordMarker(s, t, {j}, sha, {ref}), t, j), sha)
  {
    var pinned := AfterPin(AfterRecordMarker(s, t, {j}, sha, {ref}), t, j);
    forall u <- pinned.runners ensures pinned.runners[u].sha != sha || pinned.runners[u].pc !in {Locked, Pushing} {
      assert u != t ==> pinned.runners[u] == s.runners[u];
    }
  }

  /** Pushed and landed. */
  function Pushed(s: State, t: Token): State
    requires t in s.runners && s.lock == t
  {
    AfterLand(AfterCheckLease(s, t), CurrentPush(s, t))
  }

  lemma Pushes(s: State, t: Token)
    requires Reached(s) && AtPc(s, t, Locked) && s.lock == t
    ensures Reached(Pushed(s, t))
  {
    Go(s, CheckLease(t), AfterCheckLease(s, t));
    Go(AfterCheckLease(s, t), Land(CurrentPush(s, t)), Pushed(s, t));
  }

  /** Seen to have landed. */
  function Landed(s: State, t: Token): State
    requires t in s.runners && CurrentPush(s, t) in s.pushes
  {
    WithPc(AfterPushExits(s, CurrentPush(s, t)), t, Closing(Deployed))
  }

  lemma Lands(s: State, t: Token)
    requires Reached(s) && AtPc(s, t, Pushing) && CurrentPush(s, t) in s.pushes
    requires s.pushes[CurrentPush(s, t)].running && s.pushes[CurrentPush(s, t)].landed
    ensures Reached(Landed(s, t))
  {
    var exited := AfterPushExits(s, CurrentPush(s, t));
    Go(s, PushExits(CurrentPush(s, t)), exited);
    Go(exited, SeeSuccess(t), Landed(s, t));
  }

  lemma Closes(s: State, t: Token, j: JobId)
    requires Reached(s) && MayClose(s, t, j)
    ensures Reached(AfterClose(s, t, j))
  {
    Go(s, Close(t, j), AfterClose(s, t, j));
  }

  lemma GoesOn(s: State, t: Token)
    requires Reached(s) && MayTakeNextTrain(s, t)
    ensures Reached(AfterNextTrain(s, t))
  {
    Go(s, NextTrain(t), AfterNextTrain(s, t));
  }

  /** The whole way of one job. */
  function Alone(s: State, t: Token, j: JobId, sha: Commit, ref: Ref): State
    requires ReadyToShip(s, t, j, sha)
  {
    AfterNextTrain(AfterClose(Landed(Pushed(Prepared(s, t, j, sha, ref), t), t), t, j), t)
  }

  /** What shipping one job leaves: its push has landed and is recorded, and nothing else of the
      claim has changed but the number of its next train. */
  predicate ShippedAlone(s: State, end: State, t: Token, j: JobId, sha: Commit, ref: Ref) {
    && t in s.runners && CurrentPush(s, t) in end.pushes
    && end.pushes == s.pushes[CurrentPush(s, t) := Push(sha, {j}, {ref}, false, true)]
    && j in end.rows && end.rows[j].status == Deployed && end.lock == s.lock
    && (forall i <- s.rows :: i != j ==> i in end.rows && end.rows[i] == s.rows[i])
    && end.runners == s.runners[t := IDLE.(serial := s.runners[t].serial + 1)]
  }

  lemma LandedAlone(s: State, t: Token, j: JobId, sha: Commit, ref: Ref)
    requires ReadyToShip(s, t, j, sha)
    ensures
      var landed := Landed(Pushed(Prepared(s, t, j, sha, ref), t), t);
      && landed.pushes == s.pushes[CurrentPush(s, t) := Push(sha, {j}, {ref}, false, true)]
      && landed.runners == s.runners[t := Runner({j}, sha, {ref}, Closing(Deployed), s.runners[t].serial)]
      && landed.rows == s.rows[j := s.rows[j].(marker := sha)] && landed.lock == s.lock
  {
    assert WithMarker(s.rows, {j}, sha) == s.rows[j := s.rows[j].(marker := sha)];
  }

  lemma AloneShips(s: State, t: Token, j: JobId, sha: Commit, ref: Ref)
    requires ReadyToShip(s, t, j, sha)
    ensures ShippedAlone(s, Alone(s, t, j, sha, ref), t, j, sha, ref)
  {
    LandedAlone(s, t, j, sha, ref);
  }

  /** In every reachable state, any job that a runner still holds can ship alone. */
  lemma HeldJobShipsAlone(s: State, t: Token, j: JobId, sha: Commit, ref: Ref) returns (end: State)
    requires Reached(s) && ReadyToShip(s, t, j, sha)
    ensures Reached(end) && ShippedAlone(s, end, t, j, sha, ref)
  {
    end := Alone(s, t, j, sha, ref);
    AloneShips(s, t, j, sha, ref);
    Prepares(s, t, j, sha, ref);
    Pushes(Prepared(s, t, j, sha, ref), t);
    var pushed := Pushed(Prepared(s, t, j, sha, ref), t);
    Lands(pushed, t);
    Closes(Landed(pushed, t), t, j);
    GoesOn(AfterClose(Landed(pushed, t), t, j), t);
  }

  /** And then another one under the same lease: each job rides exactly one of two pushes. */
  lemma OneClaimShipsTwoTrains(s: State, t: Token, i: JobId, j: JobId, first: Commit, second: Commit, ref: Ref)
    returns (end: State)
    requires Reached(s) && i != j && ReadyToShip(s, t, i, first) && ReadyToShip(s, t, j, second)
    ensures Reached(end) && end.rows.Keys >= {i, j}
    ensures
      var n := s.runners[t].serial;
      && PushId(t, n) in end.pushes && end.pushes[PushId(t, n)] == Push(first, {i}, {ref}, false, true)
      && PushId(t, n + 1) in end.pushes && end.pushes[PushId(t, n + 1)] == Push(second, {j}, {ref}, false, true)
      && end.rows[i].status == Deployed && end.rows[j].status == Deployed
  {
    var mid := HeldJobShipsAlone(s, t, i, first, ref);
    assert ReadyToShip(mid, t, j, second) by {
      assert !PushLockHeld(mid, second);
    }
    end := HeldJobShipsAlone(mid, t, j, second, ref);
  }

  /** A job whose runner crashed before its marker, and that nobody canceled, can be claimed and
      shipped by the next runner. */
  lemma CrashedJobShipsAgain(s: State, t: Token, u: Token, j: JobId, sha: Commit, ref: Ref) returns (end: State)
    requires Reached(s) && ReadyToShip(s, t, j, sha) && s.rows[j].marker == NoCommit
    requires u != "" && u !in s.used && t !in s.reconciles
    ensures Reached(end) && end.lock == u
    ensures PushId(u, 0) in end.pushes && end.pushes[PushId(u, 0)] == Push(sha, {j}, {ref}, false, true)
    ensures j in end.rows && end.rows[j].status == Deployed
  {
    var crashed := AfterCrash(s, t);
    Go(s, Crash(t), crashed);
    var claimed := AfterClaim(crashed, u, {j});
    Go(crashed, Claim(u, {j}, false), claimed);
    assert ReadyToShip(claimed, u, j, sha) by {
      assert !PushLockHeld(claimed, sha);
    }
    end := HeldJobShipsAlone(claimed, u, j, sha, ref);
  }
}
