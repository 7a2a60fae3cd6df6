/**
  Isolation of a failed multi-job train by subset gate probes
  (`GitRunner._bisect_failed_train`).

  A probe assembles one subset of the train, in train order, on the recorded base and
  runs the gates over it. Every subset is probed at most once, because its answer is
  cached, so one answer per subset also covers gates that would answer differently if
  they were asked again. The answer of the train's own gate run, which started the
  bisect, is not one of these.
 */
module Bisect {

  type JobId = int

  datatype GateRun = Green | Red | Stopped

  /** The answers of the outside world: merges onto the base, and gate runs. `Stopped`
      is any other exception (a cancel request, a lost lease, a busy queue). */
  datatype World = World(
    mergeClean: (seq<JobId>, JobId) -> bool,
    gates: seq<JobId> -> GateRun)

  datatype Verdict = Passes | Fails | Conflicts | Stops

  predicate MergesClean(world: World, members: seq<JobId>) {
    forall i | 0 <= i < |members| :: world.mergeClean(members[..i], members[i])
  }

  function Judge(world: World, members: seq<JobId>): Verdict {
    if !MergesClean(world, members) then Conflicts
    else match world.gates(members)
      case Green => Passes
      case Red => Fails
      case Stopped => Stops
  }

  function Members(s: seq<JobId>): set<JobId> {
    set x | x in s
  }

  lemma MembersConcat(a: seq<JobId>, b: seq<JobId>)
    ensures Members(a + b) == Members(a) + Members(b)
  {
  }

  /** The chosen jobs in train order: `sorted(subset, key=order)` in the source. */
  function InOrder(train: seq<JobId>, keep: set<JobId>): (r: seq<JobId>)
    ensures Members(r) == Members(train) * keep
  {
    if train == [] then []
    else
      var rest := InOrder(train[1..], keep);
      assert train == [train[0]] + train[1..];
      MembersConcat([train[0]], train[1..]);
      MembersConcat([train[0]], rest);
      if train[0] in keep then [train[0]] + rest else rest
  }

  function VerdictOf(world: World, train: seq<JobId>, subset: set<JobId>): Verdict {
    Judge(world, InOrder(train, subset))
  }

  predicate Distinct(s: seq<JobId>) {
    forall i, j | 0 <= i < j < |s| :: s[i] != s[j]
  }

  function Flatten(groups: seq<seq<JobId>>): seq<JobId> {
    if groups == [] then [] else groups[0] + Flatten(groups[1..])
  }

  /** Every job a classification blames: the solo failures, then the conflict sets. */
  function Blamed(singles: seq<JobId>, conflictSets: seq<seq<JobId>>): seq<JobId> {
    singles + Flatten(conflictSets)
  }

  // ---------------------------------------------------------------- attribution

  /** A job that may be marked failed: it fails the gates on its own. */
  predicate FailsAlone(world: World, train: seq<JobId>, job: JobId) {
    VerdictOf(world, train, {job}) == Fails
  }

  /** A set that may be blocked as a semantic conflict. */
  predicate IsConflictSet(world: World, train: seq<JobId>, group: seq<JobId>) {
    && |group| >= 2
    && Distinct(group)
    && VerdictOf(world, train, Members(group)) == Fails
    && forall j <- group :: VerdictOf(world, train, {j}) == Passes
  }

  /** Each member was needed when the set was shrunk: some passing probe held all the
      others and not this one. */
  ghost predicate EachMemberNeeded(world: World, train: seq<JobId>, group: seq<JobId>) {
    forall j <- group :: Needed(world, train, group, j)
  }

  predicate Attributed(world: World, train: seq<JobId>, singles: seq<JobId>, conflictSets: seq<seq<JobId>>) {
    && (forall j <- singles :: FailsAlone(world, train, j))
    && (forall g <- conflictSets :: IsConflictSet(world, train, g))
  }

  ghost predicate Minimized(world: World, train: seq<JobId>, conflictSets: seq<seq<JobId>>) {
    forall g <- conflictSets :: EachMemberNeeded(world, train, g)
  }

  /** Adding jobs to a failing subset never makes it pass. */
  ghost predicate FailureIsMonotone(world: World, train: seq<JobId>) {
    forall s: set<JobId>, t: set<JobId> ::
      s <= t && VerdictOf(world, train, s) == Fails ==> VerdictOf(world, train, t) != Passes
  }

  lemma PickOutside(part: set<JobId>, whole: set<JobId>) returns (x: JobId)
    requires part < whole
    ensures x in whole && x !in part
  {
    assert exists y :: y in whole && y !in part by {
      if forall y <- whole :: y in part {
        assert false;
      }
    }
    x :| x in whole && x !in part;
  }

  /** No proper subset of a conflict set fails, when failure is monotone. */
  lemma ProperSubsetsDoNotFail(world: World, train: seq<JobId>, group: seq<JobId>, part: set<JobId>)
    requires FailureIsMonotone(world, train)
    requires EachMemberNeeded(world, train, group)
    requires part < Members(group)
    ensures VerdictOf(world, train, part) != Fails
  {
    var spare := PickOutside(part, Members(group));
    assert Needed(world, train, group, spare);
    var probed: set<JobId> :|
      && VerdictOf(world, train, probed) == Passes
      && spare !in probed && Members(group) - {spare} <= probed;
    assert part <= probed;
  }

  /** Removing jobs from a passing subset leaves a passing subset. */
  ghost predicate PassingIsInherited(world: World, train: seq<JobId>) {
    forall s: set<JobId>, t: set<JobId> ::
      s <= t && VerdictOf(world, train, t) == Passes ==> VerdictOf(world, train, s) == Passes
  }

  lemma ProperSubsetsPass(world: World, train: seq<JobId>, group: seq<JobId>, part: set<JobId>)
    requires PassingIsInherited(world, train)
    requires EachMemberNeeded(world, train, group)
    requires part < Members(group)
    ensures VerdictOf(world, train, part) == Passes
  {
    var spare := PickOutside(part, Members(group));
    assert Needed(world, train, group, spare);
    var probed: set<JobId> :|
      && VerdictOf(world, train, probed) == Passes
      && spare !in probed && Members(group) - {spare} <= probed;
    assert part <= probed;
  }

  // ---------------------------------------------------------------- sequences

  lemma FlattenAppend(groups: seq<seq<JobId>>, g: seq<JobId>)
    ensures Flatten(groups + [g]) == Flatten(groups) + g
  {
    if groups == [] {
      assert [g] == [g] + [];
      assert Flatten([]) == [];
    } else {
      assert (groups + [g])[1..] == groups[1..] + [g];
      FlattenAppend(groups[1..], g);
    }
  }

  lemma DistinctConcat(a: seq<JobId>, b: seq<JobId>)
    requires Distinct(a) && Distinct(b) && Members(a) !! Members(b)
    ensures Distinct(a + b)
    ensures Members(a + b) == Members(a) + Members(b)
  {
    forall i, j | 0 <= i < j < |a + b| ensures (a + b)[i] != (a + b)[j] {
      if i < |a| <= j {
        assert a[i] in Members(a) && b[j - |a|] in Members(b);
      }
    }
  }

  lemma DistinctParts(a: seq<JobId>, b: seq<JobId>)
    requires Distinct(a + b)
    ensures Distinct(a) && Distinct(b) && Members(a) !! Members(b)
  {
    assert forall i | 0 <= i < |a| :: a[i] == (a + b)[i];
    assert forall j | 0 <= j < |b| :: b[j] == (a + b)[|a| + j];
    forall i, j | 0 <= i < |a| && 0 <= j < |b| ensures a[i] != b[j] {
      assert (a + b)[i] != (a + b)[|a| + j];
    }
  }

  lemma DistinctCardinality(s: seq<JobId>)
    requires Distinct(s)
    ensures |Members(s)| == |s|
  {
    if s != [] {
      DistinctParts(s[..1], s[1..]);
      assert s == s[..1] + s[1..];
      DistinctCardinality(s[1..]);
      assert Members(s) == {s[0]} + Members(s[1..]);
    }
  }

  /** Blaming more jobs, none of them blamed before, keeps the blamed list duplicate-free. */
  lemma BlameSingles(singles: seq<JobId>, conflictSets: seq<seq<JobId>>, more: seq<JobId>)
    requires Distinct(Blamed(singles, conflictSets)) && Distinct(more)
    requires Members(more) !! Members(Blamed(singles, conflictSets))
    ensures Distinct(Blamed(singles + more, conflictSets))
    ensures Members(Blamed(singles + more, conflictSets)) == Members(Blamed(singles, conflictSets)) + Members(more)
  {
    var f := Flatten(conflictSets);
    DistinctParts(singles, f);
    assert Members(Blamed(singles, conflictSets)) == Members(singles) + Members(f) by { DistinctConcat(singles, f); }
    DistinctConcat(singles, more);
    DistinctConcat(singles + more, f);
  }

  lemma BlameGroup(singles: seq<JobId>, conflictSets: seq<seq<JobId>>, g: seq<JobId>)
    requires Distinct(Blamed(singles, conflictSets)) && Distinct(g)
    requires Members(g) !! Members(Blamed(singles, conflictSets))
    ensures Distinct(Blamed(singles, conflictSets + [g]))
    ensures Members(Blamed(singles, conflictSets + [g])) == Members(Blamed(singles, conflictSets)) + Members(g)
  {
    FlattenAppend(conflictSets, g);
    assert Blamed(singles, conflictSets + [g]) == Blamed(singles, conflictSets) + g;
    DistinctConcat(Blamed(singles, conflictSets), g);
  }

  // ---------------------------------------------------------------- the search

  /** How a step of the search ends: normally, with `_BisectAbort`, or with another exception. */
  datatype Flow = Done | Abort | Stop

  datatype Answer = Answer(passed: bool) | NoAnswer(flow: Flow)

  class Search {
    const world: World
    const train: seq<JobId>
    var probeCache: map<set<JobId>, bool>
    var probeCount: nat
    var singles: seq<JobId>
    var conflictSets: seq<seq<JobId>>

    ghost predicate CacheSound()
      reads `probeCache
    {
      forall s <- probeCache :: VerdictOf(world, train, s) == if probeCache[s] then Passes else Fails
    }

    ghost function Culprits(): set<JobId>
      reads `singles, `conflictSets
    {
      Members(Blamed(singles, conflictSets))
    }

    /** The classification so far is duplicate-free, inside the train, and sound. */
    ghost predicate BlameSound()
      reads `singles, `conflictSets
    {
      && Attributed(world, train, singles, conflictSets)
      && Minimized(world, train, conflictSets)
      && Distinct(Blamed(singles, conflictSets))
      && Culprits() <= Members(train)
    }

    twostate predicate CacheGrows()
      reads `probeCache
    {
      Grown(old(probeCache), probeCache)
    }

    ghost predicate Failed(subset: seq<JobId>)
      reads `probeCache
    {
      Members(subset) in probeCache && !probeCache[Members(subset)]
    }

    ghost predicate AllProbed(jobs: seq<JobId>)
      reads `probeCache
    {
      forall j <- jobs :: {j} in probeCache
    }

    /** A reason to give up, or to stop, that the outside world gave. */
    ghost predicate Inconclusive(flow: Flow, subset: seq<JobId>) {
      && (flow == Abort ==>
            || VerdictOf(world, train, Members(subset)) == Passes
            || exists part :: part <= Members(train) && VerdictOf(world, train, part) == Conflicts)
      && (flow == Stop ==> exists part :: part <= Members(train) && VerdictOf(world, train, part) == Stops)
    }

    constructor (world: World, train: seq<JobId>)
      ensures this.world == world && this.train == train
      ensures probeCache == map[] && probeCount == 0 && singles == [] && conflictSets == []
    {
      this.world, this.train := world, train;
      probeCache, probeCount, singles, conflictSets := map[], 0, [], [];
    }

    /** `probe`: answer from the cache, or assemble the subset and run its gates. */
    method Probe(subset: seq<JobId>) returns (r: Answer)
      requires CacheSound()
      modifies `probeCache, `probeCount
      ensures CacheSound() && CacheGrows()
      ensures probeCache == if r.Answer? then old(probeCache)[Members(subset) := r.passed] else old(probeCache)
      ensures probeCount == old(probeCount) + if Members(subset) in old(probeCache) then 0 else 1
      ensures r.Answer? ==>
        && Members(subset) in probeCache && probeCache[Members(subset)] == r.passed
      ensures r.NoAnswer? ==>
        && Members(subset) !in old(probeCache)
        && VerdictOf(world, train, Members(subset)) == (if r.flow == Abort then Conflicts else Stops)
        && r.flow != Done
    {
      var key := Members(subset);
      var members := InOrder(train, key);
      if key in probeCache {
        assert probeCache[key := probeCache[key]] == probeCache;
        return Answer(probeCache[key]);
      }
      probeCount := probeCount + 1;
      var merged := 0;
      while merged < |members|
        invariant 0 <= merged <= |members|
        invariant forall i | 0 <= i < merged :: world.mergeClean(members[..i], members[i])
      {
        if !world.mergeClean(members[..merged], members[merged]) {
          return NoAnswer(Abort);
        }
        merged := merged + 1;
      }
      var run := world.gates(members);
      if run == Stopped {
        return NoAnswer(Stop);
      }
      probeCache := probeCache[key := run == Green];
      return Answer(run == Green);
    }

    /** The greedy loop of `minimize_joint_failure`: drop each job the failure does not need. */
    method Shrink(subset: seq<JobId>) returns (flow: Flow, minimal: seq<JobId>)
      requires CacheSound() && Failed(subset)
      requires Distinct(subset) && |subset| >= 2 && Members(subset) <= Members(train)
      modifies `probeCache, `probeCount
      ensures CacheSound() && CacheGrows()
      ensures probeCount <= old(probeCount) + |subset|
      ensures Inconclusive(flow, subset)
      ensures flow == Done ==>
        && Distinct(minimal) && |minimal| >= 1 && Members(minimal) <= Members(subset)
        && Failed(minimal)
        && (|minimal| >= 2 ==> EachMemberNeeded(world, train, minimal))
        && FailuresHold(old(probeCache), probeCache, Members(minimal))
    {
      hide FailuresHold;
      HoldNone(probeCache, Members(subset));
      minimal := subset;
      var i := 0;
      while i < |subset| && |minimal| != 1
        invariant 0 <= i <= |subset| && |minimal| >= 1
        invariant CacheSound() && CacheGrows() && Failed(minimal)
        invariant Distinct(minimal) && Members(minimal) <= Members(subset)
        invariant forall k | i <= k < |subset| :: subset[k] in minimal
        invariant forall k | 0 <= k < i :: subset[k] in minimal ==> Needed(world, train, minimal, subset[k])
        invariant probeCount <= old(probeCount) + i
        invariant FailuresHold(old(probeCache), probeCache, Members(minimal))
      {
        var job := subset[i];
        var reduced := Without(minimal, job);
        WithoutMembers(minimal, job);
        assert Members(reduced) <= Members(train);
        ghost var before := probeCache;
        var less := Probe(reduced);
        if less.NoAnswer? { return less.flow, minimal; }
        HoldNext(old(probeCache), before, Members(minimal), Members(reduced), less.passed);
        if less.passed {
          assert Needed(world, train, minimal, job) by {
            assert VerdictOf(world, train, Members(reduced)) == Passes;
          }
        } else {
          forall k | 0 <= k < i && subset[k] in reduced
            ensures Needed(world, train, reduced, subset[k])
          {
            assert subset[k] in Members(reduced);
            StillNeeded(world, train, minimal, reduced, subset[k]);
          }
          forall k | i < k < |subset| ensures subset[k] in reduced {
            assert subset[k] in Members(minimal) - {job};
          }
          minimal := reduced;
        }
        i := i + 1;
      }
      flow := Done;
      if |minimal| >= 2 {
        forall j <- minimal ensures Needed(world, train, minimal, j) {
          assert j in Members(subset);
          var k :| 0 <= k < |subset| && subset[k] == j;
        }
      }
    }

    /** The members of `group` that fail alone, in order. */
    method SoloFailures(group: seq<JobId>) returns (flow: Flow, failures: seq<JobId>)
      requires CacheSound() && Distinct(group) && Members(group) <= Members(train)
      modifies `probeCache, `probeCount
      ensures CacheSound() && CacheGrows()
      ensures probeCount <= old(probeCount) + if old(AllProbed(group)) then 0 else |group|
      ensures Inconclusive(flow, group)
      ensures flow == Done ==>
        && Distinct(failures) && (forall j <- failures :: j in Members(group))
        && (forall j <- failures :: FailsAlone(world, train, j))
        && (forall j <- group :: j in failures || VerdictOf(world, train, {j}) == Passes)
        && FailuresHit(old(probeCache), probeCache, Members(failures))
    {
      hide FailuresHit, VerdictOf;
      HitNone(probeCache, {});
      failures := [];
      assert Members(failures) == {};
      var n := 0;
      while n < |group|
        invariant 0 <= n <= |group|
        invariant CacheSound() && CacheGrows()
        invariant Distinct(failures)
        invariant forall j <- failures :: j in Members(group) && FailsAlone(world, train, j)
        invariant forall k | n <= k < |group| :: group[k] !in failures
        invariant forall k | 0 <= k < n :: group[k] in failures || VerdictOf(world, train, {group[k]}) == Passes
        invariant probeCount <= old(probeCount) + if old(AllProbed(group)) then 0 else n
        invariant FailuresHit(old(probeCache), probeCache, Members(failures))
      {
        var job := group[n];
        assert Members([job]) == {job};
        assert job in Members(group);
        ghost var before := probeCache;
        var solo := Probe([job]);
        if solo.NoAnswer? { return solo.flow, failures; }
        HitNext(old(probeCache), before, Members(failures), job, solo.passed);
        if !solo.passed {
          assert FailsAlone(world, train, job);
          MembersConcat(failures, [job]);
          failures := failures + [job];
        }
        n := n + 1;
      }
      flow := Done;
    }

    method BlameAlone(jobs: seq<JobId>)
      requires BlameSound()
      requires Distinct(jobs) && Members(jobs) <= Members(train) && Members(jobs) !! Culprits()
      requires forall j <- jobs :: FailsAlone(world, train, j)
      modifies `singles
      ensures BlameSound() && singles == old(singles) + jobs
      ensures Culprits() == old(Culprits()) + Members(jobs)
    {
      BlameSingles(singles, conflictSets, jobs);
      singles := singles + jobs;
    }

    method BlameTogether(group: seq<JobId>)
      requires BlameSound()
      requires Members(group) <= Members(train) && Members(group) !! Culprits()
      requires IsConflictSet(world, train, group) && EachMemberNeeded(world, train, group)
      modifies `conflictSets
      ensures BlameSound() && conflictSets == old(conflictSets) + [group]
      ensures Culprits() == old(Culprits()) + Members(group)
    {
      BlameGroup(singles, conflictSets, group);
      conflictSets := conflictSets + [group];
    }

    /** `minimize_joint_failure`: both halves of `subset` pass alone, so the failure is joint. */
    method MinimizeJointFailure(subset: seq<JobId>) returns (flow: Flow, ghost culprits: set<JobId>)
      requires CacheSound() && BlameSound()
      requires Distinct(subset) && |subset| >= 2
      requires Members(subset) <= Members(train) && Members(subset) !! Culprits()
      modifies this
      ensures CacheSound() && CacheGrows()
      ensures probeCount <= old(probeCount)
                            + (if Members(subset) in old(probeCache) then 0 else 1)
                            + |subset| + if old(AllProbed(subset)) then 0 else |subset|
      ensures Inconclusive(flow, subset)
      ensures flow == Done ==>
        && BlameSound() && Culprits() == old(Culprits()) + culprits
        && culprits != {} && culprits <= Members(subset) && FailuresHit(old(probeCache), probeCache, culprits)
    {
      hide FailuresHit, FailuresHold;
      culprits := {};
      var whole := Probe(subset);
      if whole.NoAnswer? { flow := whole.flow; return; }
      if whole.passed { flow := Abort; return; }

      ghost var known := probeCache;
      var minimal;
      flow, minimal := Shrink(subset);
      if flow != Done { return; }
      ghost var shrunk := probeCache;
      DistinctSubset(minimal, subset);
      assert old(AllProbed(subset)) ==> AllProbed(minimal) by {
        assert forall j <- minimal :: j in Members(subset);
      }
      flow, culprits := BlameMinimal(minimal);
      assert Inconclusive(flow, minimal) ==> Inconclusive(flow, subset) by {
        assert VerdictOf(world, train, Members(minimal)) == Fails;
      }
      if flow == Done {
        HitWhole(old(probeCache), known, shrunk, Members(subset), Members(minimal), culprits);
        HitThen(old(probeCache), shrunk, probeCache, culprits, culprits);
        assert culprits + culprits == culprits;
      }
    }

    /** Blame what the shrinking left: one job, the members that fail alone, or all of
        them together. */
    method BlameMinimal(minimal: seq<JobId>) returns (flow: Flow, ghost culprits: set<JobId>)
      requires CacheSound() && BlameSound() && Failed(minimal)
      requires Distinct(minimal) && |minimal| >= 1
      requires Members(minimal) <= Members(train) && Members(minimal) !! Culprits()
      requires |minimal| >= 2 ==> EachMemberNeeded(world, train, minimal)
      modifies this
      ensures CacheSound() && CacheGrows()
      ensures probeCount <= old(probeCount) + if old(AllProbed(minimal)) then 0 else |minimal|
      ensures Inconclusive(flow, minimal)
      ensures flow == Done ==>
        && BlameSound() && Culprits() == old(Culprits()) + culprits
        && culprits != {} && culprits <= Members(minimal) && FailuresHit(old(probeCache), probeCache, culprits)
        && forall j <- minimal :: j in culprits || VerdictOf(world, train, {j}) == Passes
    {
      hide FailuresHit, VerdictOf;
      culprits := Members(minimal);
      assert minimal[0] in culprits;
      HitNone(probeCache, culprits);
      if |minimal| == 1 {
        assert Members(minimal) == {minimal[0]};
        BlameAlone(minimal);
        flow := Done;
        return;
      }
      var soloFailures;
      flow, soloFailures := SoloFailures(minimal);
      if flow != Done { return; }
      if soloFailures != [] {
        culprits := Members(soloFailures);
        assert soloFailures[0] in culprits;
        BlameAlone(soloFailures);
        return;
      }
      HitMore(old(probeCache), probeCache, Members(soloFailures), culprits);
      BlameTogether(minimal);
    }

    /** The solo probes of a train of at most three jobs: blame the first that fails. */
    method FirstSoloFailure(subset: seq<JobId>)
      returns (flow: Flow, found: bool, ghost culprits: set<JobId>, ghost at: nat)
      requires CacheSound() && BlameSound()
      requires Members(subset) <= Members(train) && Members(subset) !! Culprits()
      modifies `probeCache, `probeCount, `singles
      ensures CacheSound() && CacheGrows() && BlameSound()
      ensures probeCount <= old(probeCount) + |subset|
      ensures Inconclusive(flow, subset)
      ensures flow == Done && !found ==> AllProbed(subset)
      ensures Culprits() == old(Culprits()) + culprits && culprits <= Members(subset)
      ensures if flow == Done && found then culprits != {} else culprits == {}
      ensures FailuresHit(old(probeCache), probeCache, culprits)
      ensures flow == Done && found ==>
        at < |subset| && FirstAlone(world, train, subset, at) && singles == old(singles) + [subset[at]]
      ensures flow == Done && !found ==> PassAlone(world, train, subset, |subset|) && singles == old(singles)
    {
      hide FailuresHit, VerdictOf;
      HitNone(probeCache, {});
      culprits, at := {}, 0;
      var n := 0;
      while n < |subset|
        invariant 0 <= n <= |subset| && singles == old(singles)
        invariant PassAlone(world, train, subset, n) && FailuresHit(old(probeCache), probeCache, {})
        invariant CacheSound() && CacheGrows() && BlameSound() && Culprits() == old(Culprits())
        invariant forall k | 0 <= k < n :: {subset[k]} in probeCache
        invariant probeCount <= old(probeCount) + n
      {
        var job := subset[n];
        assert job in Members(subset);
        assert Members([job]) == {job};
        ghost var before := probeCache;
        var solo := Probe([job]);
        if solo.NoAnswer? { flow, found := solo.flow, false; return; }
        HitNext(old(probeCache), before, {}, job, solo.passed);
        if !solo.passed {
          BlameAlone([job]);
          culprits, at := {job}, n;
          assert {} + {job} == culprits;
          flow, found := Done, true;
          return;
        }
        n := n + 1;
      }
      flow, found := Done, false;
    }

    /** `descend`: find what makes `subset`, known to fail as a combination, fail. */
    method Descend(subset: seq<JobId>) returns (flow: Flow, ghost culprits: set<JobId>)
      requires CacheSound() && BlameSound()
      requires Distinct(subset) && |subset| >= 1 && |train| >= 2
      requires Members(subset) <= Members(train) && Members(subset) !! Culprits()
      requires subset == train || (Failed(subset) && |train| > 3)
      modifies this
      ensures CacheSound() && CacheGrows()
      ensures probeCount <= old(probeCount) + 4 * |subset| - 2
      ensures Inconclusive(flow, train)
      ensures flow == Done ==>
        && BlameSound() && Culprits() == old(Culprits()) + culprits
        && culprits != {} && culprits <= Members(subset) && FailuresHit(old(probeCache), probeCache, culprits)
        && (|train| > 3 ==> Traced(world, train, subset, culprits))
      ensures flow == Done && |train| <= 3 ==> forall k | 0 <= k < |train| ::
        FirstAlone(world, train, train, k) ==>
          singles == old(singles) + [train[k]] && conflictSets == old(conflictSets)
      decreases |subset|, 3
    {
      hide FailuresHit, Traced;
      culprits := {};
      if |subset| == 1 {
        culprits := {subset[0]};
        HitNone(probeCache, culprits);
        OneTraces(world, train, subset, culprits);
        assert Members(subset) == culprits;
        BlameAlone(subset);
        flow := Done;
        return;
      }
      if |train| <= 3 {
        flow, culprits := DescendSmall(subset);
      } else {
        flow, culprits := DescendHalves(subset);
      }
    }

    /** A small train: the first job that fails alone, or else the joint failure. */
    method DescendSmall(subset: seq<JobId>) returns (flow: Flow, ghost culprits: set<JobId>)
      requires CacheSound() && BlameSound()
      requires subset == train && Distinct(train) && |train| >= 2 && Culprits() == {}
      modifies this
      ensures CacheSound() && CacheGrows()
      ensures probeCount <= old(probeCount) + 4 * |subset| - 2
      ensures Inconclusive(flow, train)
      ensures flow == Done ==>
        && BlameSound() && Culprits() == culprits
        && culprits != {} && culprits <= Members(subset) && FailuresHit(old(probeCache), probeCache, culprits)
      ensures flow == Done ==> forall k | 0 <= k < |train| ::
        FirstAlone(world, train, train, k) ==>
          singles == old(singles) + [train[k]] && conflictSets == old(conflictSets)
    {
      hide FailuresHit;
      var found;
      ghost var at;
      flow, found, culprits, at := FirstSoloFailure(subset);
      if flow == Done && !found {
        ghost var known := probeCache;
        flow, culprits := MinimizeJointFailure(subset);
        if flow == Done {
          HitThen(old(probeCache), known, probeCache, {}, culprits);
          assert {} + culprits == culprits;
        }
      }
    }

    /** The halving step for trains of more than three jobs. */
    method DescendHalves(subset: seq<JobId>) returns (flow: Flow, ghost culprits: set<JobId>)
      requires CacheSound() && BlameSound()
      requires Distinct(subset) && |subset| >= 2 && |train| > 3
      requires Members(subset) <= Members(train) && Members(subset) !! Culprits()
      requires subset == train || Failed(subset)
      modifies this
      ensures CacheSound() && CacheGrows()
      ensures probeCount <= old(probeCount) + 4 * |subset| - 2
      ensures Inconclusive(flow, train)
      ensures flow == Done ==>
        && BlameSound() && Culprits() == old(Culprits()) + culprits
        && culprits != {} && culprits <= Members(subset) && FailuresHit(old(probeCache), probeCache, culprits)
        && (|train| > 3 ==> Traced(world, train, subset, culprits))
      decreases |subset|, 2
    {
      hide FailuresHit, Traced;
      culprits := {};
      var mid := |subset| / 2;
      var left, right := subset[..mid], subset[mid..];
      SplitMembers(subset, mid);
      var leftPassed, rightPassed;
      flow, leftPassed, rightPassed := ProbeBoth(left, right);
      if flow != Done { return; }
      ghost var known := probeCache;
      flow, culprits := DescendOn(subset, left, leftPassed, right, rightPassed);
      if flow == Done {
        HalvesHit(old(probeCache), known, probeCache, Members(left), leftPassed, Members(right), rightPassed, culprits);
        HalvesTrace(world, train, subset, leftPassed, rightPassed, culprits);
      }
    }

    method ProbeBoth(left: seq<JobId>, right: seq<JobId>)
      returns (flow: Flow, leftPassed: bool, rightPassed: bool)
      requires CacheSound() && Members(left) + Members(right) <= Members(train)
      modifies `probeCache, `probeCount
      ensures CacheSound() && CacheGrows()
      ensures probeCount <= old(probeCount) + 2
      ensures Inconclusive(flow, train)
      ensures flow == Done ==>
        && probeCache == old(probeCache)[Members(left) := leftPassed][Members(right) := rightPassed]
        && Members(left) in probeCache && probeCache[Members(left)] == leftPassed
    {
      var leftRun := Probe(left);
      if leftRun.NoAnswer? { return leftRun.flow, false, false; }
      var rightRun := Probe(right);
      if rightRun.NoAnswer? { return rightRun.flow, false, false; }
      return Done, leftRun.passed, rightRun.passed;
    }

    /** The joint failure of two passing halves, or that of each half that failed. */
    method DescendOn(subset: seq<JobId>, left: seq<JobId>, leftPassed: bool, right: seq<JobId>, rightPassed: bool)
      returns (flow: Flow, ghost culprits: set<JobId>)
      requires CacheSound() && BlameSound()
      requires Distinct(subset) && |subset| >= 2 && |train| > 3
      requires Members(subset) <= Members(train) && Members(subset) !! Culprits()
      requires Distinct(left) && Distinct(right) && |left| >= 1 && |right| >= 1 && |left| + |right| == |subset|
      requires Members(left) + Members(right) == Members(subset) && Members(left) !! Members(right)
      requires (!leftPassed ==> Failed(left)) && (!rightPassed ==> Failed(right))
      requires subset == train || Failed(subset)
      modifies this
      ensures CacheSound() && CacheGrows()
      ensures probeCount <= old(probeCount) + 4 * |subset| - 4
      ensures Inconclusive(flow, train)
      ensures flow == Done ==>
        && BlameSound() && Culprits() == old(Culprits()) + culprits
        && culprits != {} && culprits <= Members(subset) && FailuresHit(old(probeCache), probeCache, culprits)
        && (!leftPassed ==> Traced(world, train, left, culprits) && Members(left) * culprits != {})
        && (!rightPassed ==> Traced(world, train, right, culprits) && Members(right) * culprits != {})
      decreases |subset|, 1
    {
      hide FailuresHit, Traced;
      if leftPassed && rightPassed {
        flow, culprits := MinimizeJointFailure(subset);
      } else {
        flow, culprits := DescendEach(left, leftPassed, right, rightPassed);
      }
    }

    /** Descend into each half that failed. */
    method DescendEach(left: seq<JobId>, leftPassed: bool, right: seq<JobId>, rightPassed: bool)
      returns (flow: Flow, ghost culprits: set<JobId>)
      requires CacheSound() && BlameSound()
      requires Distinct(left) && Distinct(right) && |left| >= 1 && |right| >= 1 && |train| > 3
      requires Members(left) + Members(right) <= Members(train)
      requires Members(left) !! Members(right) !! Culprits()
      requires (!leftPassed ==> Failed(left)) && (!rightPassed ==> Failed(right))
      requires !leftPassed || !rightPassed
      modifies this
      ensures CacheSound() && CacheGrows()
      ensures probeCount <= old(probeCount) + 4 * (|left| + |right|) - 4
      ensures Inconclusive(flow, train)
      ensures flow == Done ==>
        && BlameSound() && Culprits() == old(Culprits()) + culprits
        && culprits != {} && culprits <= Members(left) + Members(right)
        && FailuresHit(old(probeCache), probeCache, culprits)
        && (!leftPassed ==> Traced(world, train, left, culprits) && Members(left) * culprits != {})
        && (!rightPassed ==> Traced(world, train, right, culprits) && Members(right) * culprits != {})
      decreases |left| + |right|, 0
    {
      hide FailuresHit, Traced;
      flow, culprits := DescendUnlessPassed(left, leftPassed);
      if flow != Done { return; }
      ghost var more, first := culprits, culprits;
      ghost var known := probeCache;
      flow, more := DescendUnlessPassed(right, rightPassed);
      culprits := first + more;
      if flow == Done {
        HitThen(old(probeCache), known, probeCache, first, more);
        if !leftPassed { TracedGrows(world, train, left, first, culprits); }
        if !rightPassed { TracedGrows(world, train, right, more, culprits); }
      }
    }

    method DescendUnlessPassed(half: seq<JobId>, passed: bool) returns (flow: Flow, ghost culprits: set<JobId>)
      requires CacheSound() && BlameSound()
      requires Distinct(half) && |half| >= 1 && |train| > 3
      requires Members(half) <= Members(train) && Members(half) !! Culprits()
      requires !passed ==> Failed(half)
      modifies this
      ensures CacheSound() && CacheGrows()
      ensures probeCount <= old(probeCount) + 4 * |half| - 2
      ensures Inconclusive(flow, train)
      ensures flow == Done ==>
        && BlameSound() && Culprits() == old(Culprits()) + culprits
        && (culprits == {} <==> passed) && culprits <= Members(half)
        && FailuresHit(old(probeCache), probeCache, culprits)
        && (!passed ==> Traced(world, train, half, culprits))
      decreases |half|, 4
    {
      hide FailuresHit, Traced;
      HitNone(probeCache, {});
      flow, culprits := Done, {};
      if !passed {
        flow, culprits := Descend(half);
      }
    }
  }

  type Cache = map<set<JobId>, bool>

  /** Every failure that the later cache adds has one of these jobs. */
  predicate FailuresHit(before: Cache, after: Cache, jobs: set<JobId>) {
    forall s <- after :: s !in before && !after[s] ==> !(s !! jobs)
  }

  /** Every failure that the later cache adds has all of these jobs. */
  predicate FailuresHold(before: Cache, after: Cache, jobs: set<JobId>) {
    forall s <- after :: s !in before && !after[s] ==> jobs <= s
  }

  predicate Grown(before: Cache, after: Cache) { forall s <- before :: s in after && after[s] == before[s] }

  lemma HoldNone(cache: Cache, jobs: set<JobId>)
    ensures FailuresHold(cache, cache, jobs)
  {
  }

  lemma HoldNext(before: Cache, cache: Cache, jobs: set<JobId>, key: set<JobId>, passed: bool)
    requires FailuresHold(before, cache, jobs) && key <= jobs
    ensures FailuresHold(before, cache[key := passed], if passed then jobs else key)
  {
  }

  lemma HitNone(cache: Cache, jobs: set<JobId>)
    ensures FailuresHit(cache, cache, jobs)
  {
  }

  lemma AllHit(cache: Cache, jobs: set<JobId>)
    requires FailuresHit(map[], cache, jobs)
    ensures forall s <- cache :: !cache[s] ==> !(s !! jobs)
  {
  }

  lemma HitNext(before: Cache, cache: Cache, jobs: set<JobId>, job: JobId, passed: bool)
    requires FailuresHit(before, cache, jobs)
    ensures FailuresHit(before, cache[{job} := passed], if passed then jobs else jobs + {job})
  {
    var after := cache[{job} := passed];
    forall s <- after | s !in before && !after[s] ensures !(s !! if passed then jobs else jobs + {job}) {
      if s == {job} { assert job in s; }
    }
  }

  lemma HitMore(before: Cache, after: Cache, jobs: set<JobId>, more: set<JobId>)
    requires FailuresHit(before, after, jobs) && jobs <= more
    ensures FailuresHit(before, after, more)
  {
  }

  lemma HitThen(a: Cache, b: Cache, c: Cache, jobs: set<JobId>, more: set<JobId>)
    requires FailuresHit(a, b, jobs) && FailuresHit(b, c, more) && Grown(b, c)
    ensures FailuresHit(a, c, jobs + more)
  {
    forall s <- c | s !in a && !c[s] ensures !(s !! jobs + more) {
      if s in b { assert !(s !! jobs); } else { assert !(s !! more); }
    }
  }

  lemma HitWhole(before: Cache, known: Cache, shrunk: Cache, whole: set<JobId>, minimal: set<JobId>,
                 culprits: set<JobId>)
    requires known == before[whole := false] && FailuresHold(known, shrunk, minimal) && Grown(known, shrunk)
    requires culprits != {} && culprits <= minimal <= whole
    ensures FailuresHit(before, shrunk, culprits)
  {
    var c := PickOutside({}, culprits);
    forall s <- shrunk | s !in before && !shrunk[s] ensures !(s !! culprits) {
      assert c in s;
    }
  }

  lemma HalvesHit(before: Cache, known: Cache, after: Cache, left: set<JobId>, leftPassed: bool,
                  right: set<JobId>, rightPassed: bool, culprits: set<JobId>)
    requires known == before[left := leftPassed][right := rightPassed]
    requires !leftPassed ==> left * culprits != {}
    requires !rightPassed ==> right * culprits != {}
    requires FailuresHit(known, after, culprits) && Grown(known, after)
    ensures FailuresHit(before, after, culprits)
  {
    assert FailuresHit(before, known, culprits);
    HitThen(before, known, after, culprits, culprits);
    assert culprits + culprits == culprits;
  }

  /** The first `n` jobs pass alone. */
  predicate PassAlone(world: World, train: seq<JobId>, jobs: seq<JobId>, n: nat)
    requires n <= |jobs|
  {
    forall i | 0 <= i < n :: VerdictOf(world, train, {jobs[i]}) == Passes
  }

  /** This job is the first that fails alone. */
  predicate FirstAlone(world: World, train: seq<JobId>, jobs: seq<JobId>, k: nat)
    requires k < |jobs|
  {
    FailsAlone(world, train, jobs[k]) && PassAlone(world, train, jobs, k)
  }

  /** The failure of the part is traced: into each of its halves that fails, and if none does,
      to a culprit of its own. */
  predicate Traced(world: World, train: seq<JobId>, part: seq<JobId>, culprits: set<JobId>)
    decreases |part|
  {
    if |part| <= 1 then Members(part) <= culprits
    else
      var left, right := part[..|part| / 2], part[|part| / 2..];
      var l, r := VerdictOf(world, train, Members(left)), VerdictOf(world, train, Members(right));
      && l in {Passes, Fails} && r in {Passes, Fails}
      && (l == Fails ==> Traced(world, train, left, culprits))
      && (r == Fails ==> Traced(world, train, right, culprits))
      && (l == Passes && r == Passes ==> Members(part) * culprits != {})
  }

  lemma OneTraces(world: World, train: seq<JobId>, part: seq<JobId>, culprits: set<JobId>)
    requires |part| == 1 && Members(part) <= culprits
    ensures Traced(world, train, part, culprits)
  {
  }

  lemma HalvesTrace(world: World, train: seq<JobId>, part: seq<JobId>, leftPassed: bool, rightPassed: bool,
                    culprits: set<JobId>)
    requires |part| > 1
    requires
      var left, right := part[..|part| / 2], part[|part| / 2..];
      && VerdictOf(world, train, Members(left)) == (if leftPassed then Passes else Fails)
      && VerdictOf(world, train, Members(right)) == (if rightPassed then Passes else Fails)
      && (!leftPassed ==> Traced(world, train, left, culprits))
      && (!rightPassed ==> Traced(world, train, right, culprits))
    requires culprits != {} && culprits <= Members(part)
    ensures Traced(world, train, part, culprits)
  {
    assert Members(part) * culprits == culprits;
  }

  lemma {:induction false} TracedGrows(
    world: World, train: seq<JobId>, part: seq<JobId>, culprits: set<JobId>, more: set<JobId>)
    requires Traced(world, train, part, culprits) && culprits <= more
    ensures Traced(world, train, part, more)
    decreases |part|
  {
    if |part| > 1 {
      var left, right := part[..|part| / 2], part[|part| / 2..];
      if VerdictOf(world, train, Members(left)) == Fails { TracedGrows(world, train, left, culprits, more); }
      if VerdictOf(world, train, Members(right)) == Fails { TracedGrows(world, train, right, culprits, more); }
      assert Members(part) * culprits <= Members(part) * more;
    }
  }

  /** `j` was needed by `group`: without it, some probed superset of the rest passes. */
  ghost predicate Needed(world: World, train: seq<JobId>, group: seq<JobId>, j: JobId) {
    exists probed: set<JobId> ::
      && VerdictOf(world, train, probed) == Passes
      && j !in probed && Members(group) - {j} <= probed
  }

  lemma StillNeeded(world: World, train: seq<JobId>, group: seq<JobId>, smaller: seq<JobId>, j: JobId)
    requires Needed(world, train, group, j) && Members(smaller) <= Members(group)
    ensures Needed(world, train, smaller, j)
  {
    var probed: set<JobId> :|
      && VerdictOf(world, train, probed) == Passes
      && j !in probed && Members(group) - {j} <= probed;
    assert Members(smaller) - {j} <= probed;
  }

  lemma SplitMembers(s: seq<JobId>, mid: nat)
    requires Distinct(s) && mid <= |s|
    ensures Distinct(s[..mid]) && Distinct(s[mid..])
    ensures Members(s) == Members(s[..mid]) + Members(s[mid..]) && Members(s[..mid]) !! Members(s[mid..])
  {
    assert s == s[..mid] + s[mid..];
    DistinctParts(s[..mid], s[mid..]);
    MembersConcat(s[..mid], s[mid..]);
  }

  function Without(s: seq<JobId>, j: JobId): seq<JobId> {
    if s == [] then []
    else if s[0] == j then Without(s[1..], j)
    else [s[0]] + Without(s[1..], j)
  }

  lemma WithoutMembers(s: seq<JobId>, j: JobId)
    requires Distinct(s)
    ensures Distinct(Without(s, j)) && Members(Without(s, j)) == Members(s) - {j}
    ensures |Without(s, j)| == if j in s then |s| - 1 else |s|
  {
    if s != [] {
      assert s == s[..1] + s[1..];
      DistinctParts(s[..1], s[1..]);
      WithoutMembers(s[1..], j);
      assert Members(s) == {s[0]} + Members(s[1..]);
      assert s[0] !in Members(s[1..]);
      if s[0] != j {
        DistinctConcat([s[0]], Without(s[1..], j));
      }
    }
  }

  lemma DistinctSubset(a: seq<JobId>, b: seq<JobId>)
    requires Distinct(a) && Members(a) <= Members(b)
    ensures |a| <= |b|
  {
    DistinctCardinality(a);
    MembersBound(b);
    SubsetSize(Members(a), Members(b));
  }

  lemma MembersBound(s: seq<JobId>)
    ensures |Members(s)| <= |s|
  {
    if s != [] {
      MembersBound(s[1..]);
      assert s == s[..1] + s[1..];
      assert Members(s) == {s[0]} + Members(s[1..]);
    }
  }

  lemma SubsetSize(a: set<JobId>, b: set<JobId>)
    requires a <= b
    ensures |a| <= |b|
  {
    assert b == a + (b - a);
  }

  lemma InOrderDistinct(train: seq<JobId>, keep: set<JobId>)
    requires Distinct(train)
    ensures Distinct(InOrder(train, keep))
  {
    if train != [] {
      assert train == train[..1] + train[1..];
      DistinctParts(train[..1], train[1..]);
      InOrderDistinct(train[1..], keep);
      if train[0] in keep {
        DistinctConcat([train[0]], InOrder(train[1..], keep));
      }
    }
  }

  /** What a completed isolation reports. */
  datatype Isolation = Isolation(
    singles: seq<JobId>,
    conflictSets: seq<seq<JobId>>,
    goods: seq<JobId>,
    probeCount: nat)

  /** The failure of the train was followed into each half that fails, and a small train blames
      only the first job that fails alone, if there is one. */
  ghost predicate Followed(world: World, train: seq<JobId>, singles: seq<JobId>, conflictSets: seq<seq<JobId>>) {
    if |train| > 3 then Traced(world, train, train, Members(Blamed(singles, conflictSets)))
    else forall k | 0 <= k < |train| ::
           FirstAlone(world, train, train, k) ==> singles == [train[k]] && conflictSets == []
  }

  /** Classify a train of at least two jobs whose gates failed, up to the point where the
      survivors run as a fresh train. */
  method IsolateTrain(world: World, train: seq<JobId>)
    returns (flow: Flow, r: Isolation, ghost probed: map<set<JobId>, bool>)
    requires Distinct(train) && |train| >= 2
    // attribution
    ensures flow == Done ==> Attributed(world, train, r.singles, r.conflictSets)
    ensures flow == Done ==> Minimized(world, train, r.conflictSets)
    // partition: every job of the train is in exactly one place, once
    ensures flow == Done ==>
      var all := Blamed(r.singles, r.conflictSets) + r.goods;
      Distinct(all) && Members(all) == Members(train)
    ensures flow == Done ==> r.goods == InOrder(train, Members(r.goods))
    // progress: the nested train is strictly smaller
    ensures flow == Done ==> |r.goods| < |train|
    // every failure that a probe found is explained, and followed into each half that fails
    ensures flow == Done ==> forall s <- probed ::
      && VerdictOf(world, train, s) == (if probed[s] then Passes else Fails)
      && (!probed[s] ==> !(s !! Members(Blamed(r.singles, r.conflictSets))))
    ensures flow == Done ==> Followed(world, train, r.singles, r.conflictSets)
    // cost
    ensures r.probeCount <= 4 * |train| - 2
    // an inconclusive search has a witness
    ensures flow == Abort ==>
      || VerdictOf(world, train, Members(train)) == Passes
      || exists part :: part <= Members(train) && VerdictOf(world, train, part) == Conflicts
    ensures flow == Stop ==> exists part :: part <= Members(train) && VerdictOf(world, train, part) == Stops
  {
    hide Traced, FailuresHit, VerdictOf;
    var search := new Search(world, train);
    assert Blamed([], []) == [] && search.Culprits() == {};
    ghost var culpritSet;
    flow, culpritSet := search.Descend(train);
    probed := search.probeCache;
    var culprits := Members(Blamed(search.singles, search.conflictSets));
    var goods := InOrder(train, Members(train) - culprits);
    r := Isolation(search.singles, search.conflictSets, goods, search.probeCount);
    if flow == Done {
      assert culpritSet == culprits;
      AllHit(probed, culprits);
      Partitioned(train, Blamed(r.singles, r.conflictSets));
      assert Members(goods) == Members(train) - culprits;
    }
  }

  lemma Partitioned(train: seq<JobId>, blamed: seq<JobId>)
    requires Distinct(train) && Distinct(blamed) && Members(blamed) <= Members(train) && Members(blamed) != {}
    ensures var goods := InOrder(train, Members(train) - Members(blamed));
      && Distinct(blamed + goods) && Members(blamed + goods) == Members(train)
      && |goods| < |train|
  {
    var goods := InOrder(train, Members(train) - Members(blamed));
    InOrderDistinct(train, Members(train) - Members(blamed));
    DistinctConcat(blamed, goods);
    DistinctCardinality(goods);
    DistinctCardinality(train);
    DistinctCardinality(blamed);
    DistinctCardinality(blamed + goods);
    assert Members(blamed + goods) == Members(train);
  }
}
