/**
  A run in which reconcile requeues a job whose push has landed: its lease expired while no
  job was in progress, a second reconcile settled the job, a second runner shipped it and
  died, and the first reconcile then wrote its old decision, because the job's status was
  again the one it had read.
 */
module OvertakenReconcile {
  import opened Git
  import opened JobTable
  import opened Classification
  import opened DeployProtocol
  import opened DeploySafety

  const X := Root("x")
  const Y := Root("y")
  const MAIN := {"main"}

  function Same(): (Commit, Commit) -> bool { (a, b) => a == b }

  lemma {:induction false} RunsExtended(contains: (Commit, Commit) -> bool, s: State, steps: seq<Step>, mid: State,
                                        step: Step)
    requires Runs(contains, s, steps, mid) && Enabled(mid, step)
    ensures Runs(contains, s, steps + [step], Next(contains, mid, step))
    decreases |steps|
  {
    if steps == [] {
      assert [step][1..] == [];
    } else {
      RunsExtended(contains, Next(contains, s, steps[0]), steps[1..], mid, step);
      assert (steps + [step])[1..] == steps[1..] + [step];
    }
  }

  const EMPTY := State(map[], map[], map[], map[], "", {}, map[], map[], map[], map[], {}, {})

  ghost predicate Reached(s: State) {
    exists steps :: Runs(Same(), EMPTY, steps, s)
  }

  ghost predicate Takes(s: State, step: Step, next: State) {
    Enabled(s, step) && Next(Same(), s, step) == next
  }

  lemma Go(s: State, step: Step, next: State)
    requires Reached(s) && Takes(s, step, next)
    ensures Reached(next)
  {
    var steps :| Runs(Same(), EMPTY, steps, s);
    RunsExtended(Same(), EMPTY, steps, s, step);
  }

  lemma LandsOnOneRef(s: State, id: PushId, ref: Ref)
    requires id in s.pushes && s.pushes[id].refs == {ref}
    ensures
      var p := s.pushes[id];
      AfterLand(s, id) == s.(
        tips := s.tips[ref := p.sha], history := s.history + {(ref, p.sha)}, audit := s.audit + {p.sha},
        pushes := s.pushes[id := p.(landed := true)])
  {
    var p := s.pushes[id];
    assert s.tips + (map r <- p.refs :: p.sha) == s.tips[ref := p.sha];
    assert (set r <- p.refs :: (r, p.sha)) == {(ref, p.sha)};
  }

  // ------------------------------------------------------------------ the only job's row

  function Job1(row: Row): Rows { map[1 := row] }

  const QUEUED := Row(Queued, "", false, NoCommit, NoTrain)

  function Claimed(t: Token, marker: Commit): Row { Row(InProgress, t, false, marker, NoTrain) }

  function Parked(marker: Commit): Row { Row(NeedsReconcile, "", false, marker, NoTrain) }

  const FRESH := Reconcile(false, map[], {}, map[], map[])
  /** What either reconcile reads: the first runner's push, on a remote that has nothing. */
  const SELECTED := FRESH.(selected := true, jobs := map[1 := Snap(NeedsReconcile, X, MAIN, false)])
  const FULL := SELECTED.(checked := {1}, seen := map["main" := NoTip], audits := map[X := false])

  const FIRST := PushId("d", 0)

  // ------------------------------------------------------------------ the run

  const S1 := State(Job1(QUEUED), map[], map[], map[], "", {}, map[], map[], map[], map[], {}, {})
  const S2 := State(Job1(Claimed("a", NoCommit)), map[], map[], map[], "a", {"a"},
    map["a" := IDLE], map[], map[], map[], {}, {})
  // The first runner dies after its marker, before its push.
  const S3 := State(Job1(Claimed("a", X)), map[1 := MAIN], map[], map[], "a", {"a"},
    map["a" := Runner({1}, X, MAIN, Marked, 0)], map[], map[], map[], {}, {})
  const S4 := State(Job1(Claimed("a", X)), map[1 := MAIN], map[], map[], "a", {"a"},
    map[], map[], map[], map[], {}, {})
  // The first reconcile reads the remote.
  const S5 := State(Job1(Parked(X)), map[1 := MAIN], map[], map[], "b", {"a", "b"},
    map[], map["b" := FRESH], map[], map[], {}, {})
  const S6 := State(Job1(Parked(X)), map[1 := MAIN], map[], map[], "b", {"a", "b"},
    map[], map["b" := SELECTED], map[], map[], {}, {})
  const S7 := State(Job1(Parked(X)), map[1 := MAIN], map[], map[], "b", {"a", "b"},
    map[], map["b" := SELECTED.(checked := {1})], map[], map[], {}, {})
  const S8 := State(Job1(Parked(X)), map[1 := MAIN], map[], map[], "b", {"a", "b"},
    map[], map["b" := SELECTED.(checked := {1}, seen := map["main" := NoTip])], map[], map[], {}, {})
  const S9 := State(Job1(Parked(X)), map[1 := MAIN], map[], map[], "b", {"a", "b"},
    map[], map["b" := FULL], map[], map[], {}, {})
  // A second reconcile takes the expired lease and requeues the job.
  const S10 := State(Job1(Parked(X)), map[1 := MAIN], map[], map[], "c", {"a", "b", "c"},
    map[], map["b" := FULL, "c" := FRESH], map[], map[], {}, {})
  const S11 := State(Job1(Parked(X)), map[1 := MAIN], map[], map[], "c", {"a", "b", "c"},
    map[], map["b" := FULL, "c" := SELECTED], map[], map[], {}, {})
  const S12 := State(Job1(Parked(X)), map[1 := MAIN], map[], map[], "c", {"a", "b", "c"},
    map[], map["b" := FULL, "c" := SELECTED.(checked := {1})], map[], map[], {}, {})
  const S13 := State(Job1(Parked(X)), map[1 := MAIN], map[], map[], "c", {"a", "b", "c"},
    map[], map["b" := FULL, "c" := SELECTED.(checked := {1}, seen := map["main" := NoTip])], map[], map[], {}, {})
  const S14 := State(Job1(Parked(X)), map[1 := MAIN], map[], map[], "c", {"a", "b", "c"},
    map[], map["b" := FULL, "c" := FULL], map[], map[], {}, {})
  const S15 := State(Job1(QUEUED), map[1 := MAIN], map[], map[], "c", {"a", "b", "c"},
    map[], map["b" := FULL, "c" := FULL.(jobs := map[])], map[], map[], {}, {})
  const S16 := State(Job1(QUEUED), map[1 := MAIN], map[], map[], "", {"a", "b", "c"},
    map[], map["b" := FULL], map[], map[], {}, {})
  // A second runner ships the job and dies before it records the deploy.
  const S17 := State(Job1(Claimed("d", NoCommit)), map[1 := MAIN], map[], map[], "d", {"a", "b", "c", "d"},
    map["d" := IDLE], map["b" := FULL], map[], map[], {}, {})
  const S18 := State(Job1(Claimed("d", Y)), map[1 := MAIN], map[], map[], "d", {"a", "b", "c", "d"},
    map["d" := Runner({1}, Y, MAIN, Marked, 0)], map["b" := FULL], map[], map[], {}, {})
  const S19 := State(Job1(Claimed("d", Y)), map[1 := MAIN], map[], map[1 := Y], "d", {"a", "b", "c", "d"},
    map["d" := Runner({1}, Y, MAIN, Marked, 0)], map["b" := FULL], map[], map[], {}, {})
  const S20 := State(Job1(Claimed("d", Y)), map[1 := MAIN], map[], map[1 := Y], "d", {"a", "b", "c", "d"},
    map["d" := Runner({1}, Y, MAIN, Locked, 0)], map["b" := FULL], map[], map[], {}, {})
  const S21 := State(Job1(Claimed("d", Y)), map[1 := MAIN], map[], map[1 := Y], "d", {"a", "b", "c", "d"},
    map["d" := Runner({1}, Y, MAIN, Pushing, 0)], map["b" := FULL],
    map[FIRST := Push(Y, {1}, MAIN, true, false)], map[], {}, {})
  const S22 := State(Job1(Claimed("d", Y)), map[1 := MAIN], map[], map[1 := Y], "d", {"a", "b", "c", "d"},
    map["d" := Runner({1}, Y, MAIN, Pushing, 0)], map["b" := FULL],
    map[FIRST := Push(Y, {1}, MAIN, true, true)], map["main" := Y], {Y}, {("main", Y)})
  const S23 := State(Job1(Claimed("d", Y)), map[1 := MAIN], map[], map[1 := Y], "d", {"a", "b", "c", "d"},
    map[], map["b" := FULL],
    map[FIRST := Push(Y, {1}, MAIN, true, true)], map["main" := Y], {Y}, {("main", Y)})
  const S24 := State(Job1(Parked(Y)), map[1 := MAIN], map[], map[1 := Y], "e", {"a", "b", "c", "d", "e"},
    map[], map["b" := FULL, "e" := FRESH],
    map[FIRST := Push(Y, {1}, MAIN, true, true)], map["main" := Y], {Y}, {("main", Y)})

  lemma Reach1()
    ensures Reached(S1)
  {
    assert Takes(EMPTY, Enqueue(1), S1);
    assert Runs(Same(), EMPTY, [], EMPTY);
    Go(EMPTY, Enqueue(1), S1);
  }

  lemma Reach2()
    ensures Reached(S2)
  {
    assert Takes(S1, Claim("a", {1}, false), S2);
    Reach1();
    Go(S1, Claim("a", {1}, false), S2);
  }

  lemma Reach3()
    ensures Reached(S3)
  {
    assert Takes(S2, RecordMarker("a", {1}, X, MAIN), S3);
    Reach2();
    Go(S2, RecordMarker("a", {1}, X, MAIN), S3);
  }

  lemma Reach4()
    ensures Reached(S4)
  {
    assert Takes(S3, Crash("a"), S4);
    Reach3();
    Go(S3, Crash("a"), S4);
  }

  lemma Reach5()
    ensures Reached(S5)
  {
    assert Takes(S4, Acquire("b", false), S5);
    Reach4();
    Go(S4, Acquire("b", false), S5);
  }

  lemma Step6()
    ensures Takes(S5, Select("b"), S6)
  {
    assert Selected(S5) == SELECTED.jobs;
    assert AfterSelect(S5, "b") == S6;
  }

  lemma Reach6()
    ensures Reached(S6)
  {
    Step6();
    Reach5();
    Go(S5, Select("b"), S6);
  }

  lemma Reach7()
    ensures Reached(S7)
  {
    assert {} + {1} == {1};
    assert AfterCheckFlight(S6, "b", 1) == S7;
    assert Takes(S6, CheckFlight("b", 1), S7);
    Reach6();
    Go(S6, CheckFlight("b", 1), S7);
  }

  lemma Reach8()
    ensures Reached(S8)
  {
    assert Takes(S7, ReadRef("b", "main"), S8);
    Reach7();
    Go(S7, ReadRef("b", "main"), S8);
  }

  lemma Step9()
    ensures Takes(S8, ReadAudit("b", X), S9)
  {
    assert AfterReadAudit(S8, "b", X) == S9;
  }

  lemma Reach9()
    ensures Reached(S9)
  {
    Step9();
    Reach8();
    Go(S8, ReadAudit("b", X), S9);
  }

  lemma Step10()
    ensures Takes(S9, Acquire("c", true), S10)
  {
    assert Split(S9.rows) == S9.rows;
  }

  lemma Reach10()
    ensures Reached(S10)
  {
    Step10();
    Reach9();
    Go(S9, Acquire("c", true), S10);
  }

  lemma Step11()
    ensures Takes(S10, Select("c"), S11)
  {
    assert Selected(S10) == SELECTED.jobs;
    assert AfterSelect(S10, "c") == S11;
  }

  lemma Reach11()
    ensures Reached(S11)
  {
    Step11();
    Reach10();
    Go(S10, Select("c"), S11);
  }

  lemma Reach12()
    ensures Reached(S12)
  {
    assert {} + {1} == {1};
    assert AfterCheckFlight(S11, "c", 1) == S12;
    assert Takes(S11, CheckFlight("c", 1), S12);
    Reach11();
    Go(S11, CheckFlight("c", 1), S12);
  }

  lemma Reach13()
    ensures Reached(S13)
  {
    assert Takes(S12, ReadRef("c", "main"), S13);
    Reach12();
    Go(S12, ReadRef("c", "main"), S13);
  }

  lemma Reach14()
    ensures Reached(S14)
  {
    assert AfterReadAudit(S13, "c", X) == S14;
    assert Takes(S13, ReadAudit("c", X), S14);
    Reach13();
    Go(S13, ReadAudit("c", X), S14);
  }

  lemma Reach15()
    ensures Reached(S15)
  {
    SecondDecisionWritten();
    assert Takes(S14, Apply("c", 1, true, {}), S15);
    Reach14();
    Go(S14, Apply("c", 1, true, {}), S15);
  }

  lemma Reach16()
    ensures Reached(S16)
  {
    assert Takes(S15, EndReconcile("c"), S16);
    Reach15();
    Go(S15, EndReconcile("c"), S16);
  }

  lemma Reach17()
    ensures Reached(S17)
  {
    assert Takes(S16, Claim("d", {1}, false), S17);
    Reach16();
    Go(S16, Claim("d", {1}, false), S17);
  }

  lemma Reach18()
    ensures Reached(S18)
  {
    assert Takes(S17, RecordMarker("d", {1}, Y, MAIN), S18);
    Reach17();
    Go(S17, RecordMarker("d", {1}, Y, MAIN), S18);
  }

  lemma Reach19()
    ensures Reached(S19)
  {
    assert Takes(S18, Pin("d", 1), S19);
    Reach18();
    Go(S18, Pin("d", 1), S19);
  }

  lemma Reach20()
    ensures Reached(S20)
  {
    assert Takes(S19, TakePushLock("d"), S20);
    Reach19();
    Go(S19, TakePushLock("d"), S20);
  }

  lemma Reach21()
    ensures Reached(S21)
  {
    assert Takes(S20, CheckLease("d"), S21);
    Reach20();
    Go(S20, CheckLease("d"), S21);
  }

  lemma Reach22()
    ensures Reached(S22)
  {
    PushLands();
    assert Takes(S21, Land(FIRST), S22);
    Reach21();
    Go(S21, Land(FIRST), S22);
  }

  lemma Reach23()
    ensures Reached(S23)
  {
    assert Takes(S22, Crash("d"), S23);
    Reach22();
    Go(S22, Crash("d"), S23);
  }

  lemma Step24()
    ensures Takes(S23, Acquire("e", false), S24)
  {
  }

  lemma Reach24()
    ensures Reached(S24)
  {
    Step24();
    Reach23();
    Go(S23, Acquire("e", false), S24);
  }

  lemma SecondDecisionWritten()
    ensures MayApply(S14, "c", 1, true) && AfterApply(Same(), S14, "c", 1, true, {}) == S15
  {
    OldDecision(S14, "c");
    assert AfterApply(Same(), S14, "c", 1, true, {}).rows == Job1(QUEUED);
    assert FULL.jobs - {1} == map[];
  }

  lemma PushLands()
    ensures AfterLand(S21, FIRST) == S22
  {
    LandsOnOneRef(S21, FIRST, "main");
  }

  /** Both reconciles decide to queue the job again. */
  lemma OldDecision(s: State, t: Token)
    requires MayApply(s, t, 1, true) && s.reconciles[t] == FULL
    ensures DecisionAt(Same(), s, t, 1, true, {}) == DecideQueued
  {
    var answers := Answers(Same(), FULL, FULL.jobs[1], {});
    assert AnswerOf(Same(), FULL.seen["main"], X, false) in answers;
    assert answers == {No};
  }

  /** The overtaken reconcile writes, and the landed job is queued again. */
  lemma OvertakenReconcileRequeuesALandedJob()
    ensures Init(EMPTY) && Reached(S24) && Covered(S24)
    ensures Enabled(S24, Apply("b", 1, true, {})) && !Fenced(S24, Apply("b", 1, true, {}))
    ensures RequeuedThoughLanded(Next(Same(), S24, Apply("b", 1, true, {})))
  {
    Reach24();
    OldDecisionWritten();
  }

  ghost predicate RequeuedThoughLanded(s: State) {
    && (exists id <- s.pushes, j <- s.pushes[id].jobs ::
          s.pushes[id].landed && j in s.rows && s.rows[j].status == Queued)
    && !Covered(s)
  }

  lemma OldDecisionWritten()
    ensures MayApply(S24, "b", 1, true)
    ensures RequeuedThoughLanded(AfterApply(Same(), S24, "b", 1, true, {}))
  {
    OldDecision(S24, "b");
    var end := AfterApply(Same(), S24, "b", 1, true, {});
    assert end.rows == Job1(QUEUED);
    assert FIRST in end.pushes && end.pushes[FIRST].landed && 1 in end.pushes[FIRST].jobs;
    assert !CoveredBy(end, 1, Y);
  }
}
