/**
  Which gates a reused run skips, reuses and runs (`gate_runner.py`), and what the preview
  says it will do (`reuse.py`).
 */
module GateReuse {
  import opened GateScheduler
  import PathGates

  /** Changed paths, or that they could not be found out. */
  datatype Changed = Unknown | Known(paths: seq<string>)

  /** Whether one path segment matches one pattern part. */
  type Fits = (string, string) -> bool

  predicate AnyScoped(gates: seq<Gate>) { exists i :: 0 <= i < |gates| && gates[i].paths != [] }

  predicate Untouched(gate: Gate, changed: Changed, fits: Fits) {
    gate.paths != [] && changed.Known? && !PathGates.AnyPathMatches(gate.paths, changed.paths, fits)
  }

  /** A gate is left out exactly when it names paths, the changed paths are known, and none of
      them splits as one of its patterns asks. */
  lemma UntouchedExactlyWhenNoneSplits(gate: Gate, changed: Changed, fits: Fits)
    ensures Untouched(gate, changed, fits) <==>
      && gate.paths != [] && changed.Known?
      && forall path <- changed.paths, pattern <- gate.paths :: !PathGates.Splits(pattern, path, fits)
  {
    if changed.Known? {
      forall path <- changed.paths, pattern <- gate.paths
        ensures PathGates.PathMatches(pattern, path, fits) <==> PathGates.Splits(pattern, path, fits)
      {
        PathGates.PathMatchesExactlyWhenItSplits(pattern, path, fits);
      }
    }
  }

  /** `_path_selection`: the paths are looked up only when some gate asks for them. */
  method PathSelection(gates: seq<Gate>, diff: Changed, fits: Fits) returns (changed: Changed, skipped: States)
    ensures changed == if AnyScoped(gates) then diff else Unknown
    ensures forall name :: name in skipped <==>
      exists i :: 0 <= i < |gates| && gates[i].name == name && Untouched(gates[i], changed, fits)
    ensures forall name <- skipped :: skipped[name] == Skipped
  {
    changed, skipped := Unknown, map[];
    if AnyScoped(gates) { changed := diff; }
    for i := 0 to |gates|
      invariant forall name :: name in skipped <==>
        exists j :: 0 <= j < i && gates[j].name == name && Untouched(gates[j], changed, fits)
      invariant forall name <- skipped :: skipped[name] == Skipped
    {
      if Untouched(gates[i], changed, fits) { skipped := skipped[gates[i].name := Skipped]; }
    }
  }

  /** How the reused run treats a gate. */
  datatype Treatment = Skip | Reuse | Rerun

  function TreatmentOf(initial: States, gate: Gate): Treatment {
    if gate.name !in initial then Rerun
    else match initial[gate.name]
    case Skipped => Skip
    case Reused => Reuse
  }

  /** `run_reused_gates`, up to the plan it runs. */
  method ReusedStates(gates: seq<Gate>, diff: Changed, fits: Fits) returns (initial: States)
    requires UniqueNames(gates)
    ensures forall i :: 0 <= i < |gates| ==> TreatmentOf(initial, gates[i]) == Planned(gates, gates[i], diff, fits)
    ensures initial.Keys <= set i | 0 <= i < |gates| :: gates[i].name
  {
    var changed, skipped := PathSelection(gates, diff, fits);
    initial := skipped;
    for i := 0 to |gates|
      invariant forall j :: 0 <= j < i ==> TreatmentOf(initial, gates[j]) == Planned(gates, gates[j], diff, fits)
      invariant forall j :: i <= j < |gates| ==>
        && (gates[j].name in initial <==> Untouched(gates[j], changed, fits))
        && (gates[j].name in initial ==> initial[gates[j].name] == Skipped)
      invariant initial.Keys <= set j | 0 <= j < |gates| :: gates[j].name
    {
      var gate := gates[i];
      if gate.name !in initial && !gate.alwaysRerun && !(gate.paths != [] && changed == Unknown) {
        initial := initial[gate.name := Reused];
      }
    }
  }

  /** How a reused run treats a gate, over the paths that the reuse decision or the run finds
      changed; they are looked up when some gate asks for them. */
  function Planned(gates: seq<Gate>, gate: Gate, diff: Changed, fits: Fits): Treatment {
    var changed := if AnyScoped(gates) then diff else Known([]);
    if Untouched(gate, changed, fits) then Skip
    else if gate.alwaysRerun then Rerun
    else if gate.paths != [] && changed == Unknown then Rerun
    else Reuse
  }

  /** How an ordinary run treats a gate. */
  function AsUsual(gate: Gate, diff: Changed, fits: Fits): Treatment {
    if Untouched(gate, diff, fits) then Skip else Rerun
  }

  /** A preview may come before any reuse decision. */
  datatype Decision = NotDecided(enabled: bool) | Decided(authorized: bool, eligible: bool, changed: Changed) {
    predicate Eligible() { Decided? && eligible }
    /** Only the authorization is missing, or all of the decision. */
    predicate Open() { !Eligible() && (NotDecided? || !authorized) }
  }

  datatype Action = Sure(treatment: Treatment) | ConditionalReuse | PotentialReuse | ConditionalRun

  /** The action that `_reuse_gate_plan` lists for a gate. */
  function ActionOf(decision: Decision, gate: Gate, fits: Fits): Action {
    if decision.Eligible() then
      if Untouched(gate, decision.changed, fits) then Sure(Skip)
      else if gate.alwaysRerun then Sure(Rerun)
      else if gate.paths != [] && decision.changed == Unknown then Sure(Rerun)
      else Sure(Reuse)
    else if decision.Open() then
      if gate.alwaysRerun then Sure(Rerun) else if gate.paths != [] then ConditionalReuse else PotentialReuse
    else if gate.paths != [] then ConditionalRun else Sure(Rerun)
  }

  /** The decision of an eligible train, which looked the changed paths up when some gate asks. */
  function EligibleDecision(gates: seq<Gate>, diff: Changed): Decision {
    Decided(true, true, if AnyScoped(gates) then diff else Known([]))
  }

  /** Without a decision the preview foretells a reuse exactly when every reused run reuses the
      gate. What it lists as a rerun is always run if and only if the gate names no paths: a run
      that finds no path changed skips it. What it lists as conditional may be skipped, and run. */
  lemma OpenPreviewForetells(gates: seq<Gate>, gate: Gate, decision: Decision, fits: Fits)
    requires gate in gates && decision.Open()
    ensures ActionOf(decision, gate, fits) == PotentialReuse <==>
      forall diff :: Planned(gates, gate, diff, fits) == Reuse
    ensures ActionOf(decision, gate, fits) == Sure(Rerun) && gate.paths == [] <==>
      forall diff :: Planned(gates, gate, diff, fits) == Rerun
    ensures ActionOf(decision, gate, fits) == ConditionalReuse ==>
      Planned(gates, gate, Known([]), fits) == Skip && Planned(gates, gate, Unknown, fits) == Rerun
  {
    assert gate.paths != [] ==> AnyScoped(gates);
    assert gate.paths != [] ==> Planned(gates, gate, Known([]), fits) == Skip;
    assert gate.paths == [] ==> Planned(gates, gate, Unknown, fits) == if gate.alwaysRerun then Rerun else Reuse;
  }

  /** When an authorized reuse is declined, what is listed as a rerun is what every ordinary run
      runs. */
  lemma DeclinedPreviewForetells(gate: Gate, decision: Decision, fits: Fits)
    requires !decision.Eligible() && !decision.Open()
    ensures ActionOf(decision, gate, fits) in {Sure(Rerun), ConditionalRun}
    ensures ActionOf(decision, gate, fits) == Sure(Rerun) <==> forall diff :: AsUsual(gate, diff, fits) == Rerun
  {
    assert gate.paths != [] ==> AsUsual(gate, Known([]), fits) == Skip;
  }

  /** The decision looks at the configured gates and the run at the effective ones, which ask
      for changed paths alike. */
  lemma ConfiguredAndEffectiveAskAlike(gates: seq<Gate>)
    ensures AnyScoped(gates) <==> AnyScoped(EffectiveGates(gates))
  {
    var kept, at := EffectiveGates(gates), Kept(gates);
    if AnyScoped(gates) {
      var i :| 0 <= i < |gates| && gates[i].paths != [];
      assert !Redundant(gates[i]);
      var k :| 0 <= k < |at| && at[k] == i;
      assert kept[k].paths != [];
    }
    if AnyScoped(kept) {
      var k :| 0 <= k < |kept| && kept[k].paths != [];
      assert gates[at[k]].paths != [];
    }
  }

  /** The built-in check, as the preview lists it. */
  const BUILTIN_GATE := Gate(BUILTIN, false, [], false, "", [], 1, false)

  /** `_reuse_gate_plan`: the built-in check first, then each gate. */
  method PreviewPlan(configured: seq<Gate>, decision: Decision, fits: Fits) returns (plan: seq<(string, Action)>)
    ensures |plan| == 1 + |EffectiveGates(configured)|
    ensures plan[0] == (BUILTIN, ActionOf(decision, BUILTIN_GATE, fits))
    ensures forall i :: 0 <= i < |EffectiveGates(configured)| ==>
      plan[1 + i] == (EffectiveGates(configured)[i].name, ActionOf(decision, EffectiveGates(configured)[i], fits))
  {
    var gates := EffectiveGates(configured);
    plan := [(BUILTIN, ActionOf(decision, BUILTIN_GATE, fits))];
    for i := 0 to |gates|
      invariant |plan| == 1 + i && plan[0] == (BUILTIN, ActionOf(decision, BUILTIN_GATE, fits))
      invariant forall j :: 0 <= j < i ==> plan[1 + j] == (gates[j].name, ActionOf(decision, gates[j], fits))
    {
      plan := plan + [(gates[i].name, ActionOf(decision, gates[i], fits))];
    }
  }

  lemma PlannedAlike(configured: seq<Gate>, gate: Gate, diff: Changed, fits: Fits)
    ensures Planned(configured, gate, diff, fits) == Planned(EffectiveGates(configured), gate, diff, fits)
  {
    ConfiguredAndEffectiveAskAlike(configured);
  }

  /** The plan agrees with the run: each gate is treated as listed, only gates listed to be rerun
      ran and, once the run finished, all of them. */
  ghost predicate AgreesWithRun(gates: seq<Gate>, plan: seq<(string, Action)>, initial: States, waves: seq<Wave>,
                                finished: bool) {
    && |plan| == 1 + |gates|
    && forall i :: 0 <= i < |gates| ==>
         && plan[1 + i] == (gates[i].name, Sure(TreatmentOf(initial, gates[i])))
         && (Ran(waves, i) ==> plan[1 + i].1 == Sure(Rerun))
         && (finished && plan[1 + i].1 == Sure(Rerun) ==> Ran(waves, i))
  }

  /** The reused run of an accepted plan: its treatments, and the gates that ran. */
  method RunReusedGates(gates: seq<Gate>, maxWorkers: nat, diff: Changed, fits: Fits, ends: nat -> GateOutcome,
                        monitors: nat -> bool)
    returns (r: PlanResult, initial: States, waves: seq<Wave>)
    requires Accepted(gates, maxWorkers)
    ensures forall i :: 0 <= i < |gates| ==> TreatmentOf(initial, gates[i]) == Planned(gates, gates[i], diff, fits)
    ensures forall i :: 0 <= i < |gates| && Ran(waves, i) ==> TreatmentOf(initial, gates[i]) == Rerun
    ensures r.Finished? ==>
      forall i :: 0 <= i < |gates| && TreatmentOf(initial, gates[i]) == Rerun ==> Ran(waves, i) && ends(i) == Passed
    ensures r.Stopped? ==>
      waves != [] && StopsWith(waves[|waves| - 1].members, ends, monitors(|waves| - 1), r.error)
    ensures WavesOk(gates, maxWorkers, initial, waves)
  {
    initial := ReusedStates(gates, diff, fits);
    r, waves := RunConfiguredPlan(gates, maxWorkers, initial, ends, monitors);
  }

  /** The preview and the run of one eligible train, over the same changed paths, known or not:
      a gate is skipped, reused or run exactly as listed. */
  method PreviewThenRun(configured: seq<Gate>, maxWorkers: nat, diff: Changed, fits: Fits, ends: nat -> GateOutcome,
                        monitors: nat -> bool)
    returns (plan: seq<(string, Action)>, r: PlanResult, initial: States, waves: seq<Wave>)
    requires Accepted(configured, maxWorkers)
    ensures AgreesWithRun(EffectiveGates(configured), plan, initial, waves, r.Finished?)
    ensures plan[0] == (BUILTIN, Sure(Reuse))
  {
    var gates := EffectiveGates(configured);
    EffectivePlanIsAccepted(configured, maxWorkers);
    plan := PreviewPlan(configured, EligibleDecision(configured, diff), fits);
    r, initial, waves := RunReusedGates(gates, maxWorkers, diff, fits, ends, monitors);
    forall i | 0 <= i < |gates| ensures plan[1 + i].1 == Sure(TreatmentOf(initial, gates[i])) {
      PlannedAlike(configured, gates[i], diff, fits);
    }
  }
}

/** Whether validated gates may be reused for a train (`validation_reuse.py`, `reuse.py`). */
module ValidationReuse {

  datatype Member = Member(id: int, task: string, branch: string, head: string)

  /** Hashes by what they hash; the empty string is no hash. */
  datatype Hash =
    | NoHash
    | TrainHash(trainId: string, size: nat, members: seq<Member>)
    | OtherHash(content: string)

  /** How long ago the train was validated; `Never` when the time is missing, unreadable, or in
      the future. */
  datatype Age = Never | Minutes(minutes: real)

  datatype Job = Job(
    member: Member,
    trainId: string,
    trainSize: nat,
    validationSha: string,
    baseSha: string,
    tree: Hash,
    policy: Hash,
    environment: Hash,
    identity: Hash)

  function NonEmpty(values: set<string>): set<string> { values - {""} }

  function Members(jobs: seq<Job>): seq<Member> { seq(|jobs|, i requires 0 <= i < |jobs| => jobs[i].member) }

  /** `train_identity_sha` of the jobs as they stand. */
  function TrainIdentity(jobs: seq<Job>): Hash
    requires jobs != []
  {
    TrainHash(jobs[0].trainId, jobs[0].trainSize, Members(jobs))
  }

  /** The identity stands for the train's id and size, and for the members in order by their
      job, task, branch and head: two trains that share it differ in none of these. */
  lemma SameIdentityExactlyWhenSameMembers(a: seq<Job>, b: seq<Job>)
    requires a != [] && b != []
    ensures TrainIdentity(a) == TrainIdentity(b) <==>
      && a[0].trainId == b[0].trainId && a[0].trainSize == b[0].trainSize && |a| == |b|
      && forall i :: 0 <= i < |a| ==>
           && a[i].member.id == b[i].member.id && a[i].member.task == b[i].member.task
           && a[i].member.branch == b[i].member.branch && a[i].member.head == b[i].member.head
  {
    var these, those := Members(a), Members(b);
    if TrainIdentity(a) == TrainIdentity(b) {
      assert |these| == |those|;
      forall i | 0 <= i < |a| ensures a[i].member == b[i].member { assert these[i] == those[i]; }
    } else if |a| == |b| && forall i :: 0 <= i < |a| ==> a[i].member == b[i].member {
      assert these == those;
    }
  }

  datatype Code =
    | Authorization | TrainMembership | TrainSize | ValidationCommit | IntegrationBase | TrainIdentityCheck
    | GatePolicy | ValidationAge | SharedTree | SharedPolicy | SharedEnvironment | SharedIdentity
    | CommitAvailable | ValidationTree | Environment

  datatype Status = Match | Mismatch | NotEvaluated

  datatype Check = Check(code: Code, status: Status)

  /** The fingerprint of the environment, if it could be taken; a busy queue is raised. */
  datatype Fingerprint = Unavailable | Reproduced(hash: Hash) | QueueBusy

  /** How `git reset --hard` ends, and where it leaves HEAD when it fails. */
  datatype Reset = Succeeds | Fails(headAt: string)

  function HeadAfter(reset: Reset, target: string): string { if reset.Succeeds? then target else reset.headAt }

  /** What the decision finds of the repository, the clock, the configuration and the
      environment, and how its commands end. */
  datatype World = World(
    base: string,                        // the integration base, where the worktree stands
    policy: Hash,                        // of the current gate policy
    age: Age,
    maxAge: nat,
    commitExists: string -> bool,
    treeOf: string -> Hash,
    restore: Reset,                      // to the validation commit
    fingerprint: Fingerprint,
    back: Reset,                         // to the integration base
    cleans: bool)                        // `git clean` succeeds

  function Values<T>(jobs: seq<Job>, field: Job -> T): set<T> { set job <- jobs :: field(job) }

  predicate One<T(==)>(values: set<T>) { |values| == 1 }

  lemma OneIsSingleton<T>(values: set<T>, x: T)
    requires x in values
    ensures One(values) <==> values == {x}
  {
    if One(values) {
      forall y <- values ensures y == x {
        if y != x {
          assert {x, y} <= values;
          SubsetIsSmaller({x, y}, values);
        }
      }
      assert values == {x};
    }
  }

  lemma {:induction false} SubsetIsSmaller<T>(a: set<T>, b: set<T>)
    requires a <= b
    ensures |a| <= |b|
  {
    if a != {} {
      var x :| x in a;
      SubsetIsSmaller(a - {x}, b - {x});
    }
  }

  // ------------------------------------------------------------------ what must still hold

  /** Every job carries the same non-empty hash. */
  predicate Shared(jobs: seq<Job>, field: Job -> Hash) {
    jobs != [] && field(jobs[0]) != NoHash && forall job <- jobs :: field(job) == field(jobs[0])
  }

  predicate Recent(world: World) { world.age.Minutes? && world.age.minutes <= world.maxAge as real }

  /** Some job has this value, and no job another that is not empty. */
  predicate OnlyValue(jobs: seq<Job>, field: Job -> string, value: string) {
    value != "" && value in Values(jobs, field) && Values(jobs, field) <= {"", value}
  }

  function TrainIdOf(): Job -> string { (job: Job) => job.trainId }
  function ShaOf(): Job -> string { (job: Job) => job.validationSha }
  function BaseOf(): Job -> string { (job: Job) => job.baseSha }
  function TreeOf(): Job -> Hash { (job: Job) => job.tree }
  function PolicyOf(): Job -> Hash { (job: Job) => job.policy }
  function EnvironmentOf(): Job -> Hash { (job: Job) => job.environment }
  function IdentityOf(): Job -> Hash { (job: Job) => job.identity }

  /** The train, its commit and its policy are still as they were validated. */
  ghost predicate IdentityHolds(jobs: seq<Job>, world: World, sha: string) {
    && jobs != []
    && (exists id: string :: OnlyValue(jobs, TrainIdOf(), id))
    && (forall job <- jobs :: job.trainSize == |jobs|)
    && OnlyValue(jobs, ShaOf(), sha)
    && jobs[0].baseSha == world.base && OnlyValue(jobs, BaseOf(), world.base)
    && jobs[0].identity == TrainIdentity(jobs) && jobs[0].policy == world.policy && Recent(world)
    && Shared(jobs, TreeOf()) && Shared(jobs, PolicyOf()) && Shared(jobs, EnvironmentOf()) && Shared(jobs, IdentityOf())
    && world.commitExists(sha) && world.treeOf(sha) == jobs[0].tree
  }

  // ------------------------------------------------------------------ the decision

  datatype Reason = Because(code: Code) | RestoreFailed

  datatype Log = Log(checks: seq<Check>, reasons: seq<Reason>)

  /** `record`: a mismatch is a reason when it blocks. */
  function Record(log: Log, code: Code, matches: bool, blocks: bool): Log {
    Log(log.checks + [Check(code, if matches then Match else Mismatch)],
        if blocks then log.reasons + [Because(code)] else log.reasons)
  }

  predicate AllMatch(checks: seq<Check>) { forall k :: 0 <= k < |checks| ==> checks[k].status == Match }

  /** There are reasons exactly when some check does not match. */
  predicate Agree(log: Log) { log.reasons == [] <==> AllMatch(log.checks) }

  lemma RecordAgrees(log: Log, code: Code, matches: bool, blocks: bool)
    requires Agree(log) && (blocks ==> !matches) && (!matches ==> blocks || log.reasons != [])
    ensures Agree(Record(log, code, matches, blocks))
    ensures Record(log, code, matches, blocks).reasons == [] <==> log.reasons == [] && matches
  {
    var more := Record(log, code, matches, blocks).checks;
    assert more[|log.checks|].code == code;
    assert AllMatch(more) <==> AllMatch(log.checks) && matches by {
      if AllMatch(more) {
        forall k | 0 <= k < |log.checks| ensures log.checks[k].status == Match { assert more[k] == log.checks[k]; }
      }
    }
  }

  datatype Decision = Decision(eligible: bool, validationSha: string, checks: seq<Check>, reasons: seq<Reason>)

  lemma OnlyValueExactlyWhenOne(jobs: seq<Job>, field: Job -> string, value: string)
    requires value in NonEmpty(Values(jobs, field))
    ensures One(NonEmpty(Values(jobs, field))) <==> OnlyValue(jobs, field, value)
  {
    var all := Values(jobs, field);
    OneIsSingleton(NonEmpty(all), value);
    if NonEmpty(all) == {value} {
      forall x <- all ensures x in {"", value} {
        if x != "" { assert x in NonEmpty(all); }
      }
    }
  }

  lemma SharedExactlyWhenOne(jobs: seq<Job>, field: Job -> Hash)
    ensures
      var all := Values(jobs, field);
      One(all - {NoHash}) && |all - {NoHash}| == |all| <==> Shared(jobs, field)
  {
    var all := Values(jobs, field);
    if jobs != [] {
      assert field(jobs[0]) in all;
      if Shared(jobs, field) {
        assert all == {field(jobs[0])} && all - {NoHash} == all;
      } else if One(all - {NoHash}) && |all - {NoHash}| == |all| {
        assert NoHash !in all;
        assert all - {NoHash} == all;
        OneIsSingleton(all, field(jobs[0]));
        forall job <- jobs ensures field(job) == field(jobs[0]) {
          assert field(job) in all;
        }
      }
    } else {
      assert all == {};
    }
  }

  lemma SizesAgree(jobs: seq<Job>)
    ensures jobs != [] && One(set job <- jobs :: job.trainSize) && jobs[0].trainSize == |jobs| <==>
            jobs != [] && forall job <- jobs :: job.trainSize == |jobs|
  {
    var sizes := set job <- jobs :: job.trainSize;
    if jobs != [] {
      assert jobs[0].trainSize in sizes;
      OneIsSingleton(sizes, jobs[0].trainSize);
      if forall job <- jobs :: job.trainSize == |jobs| { assert sizes == {|jobs|}; }
      assert forall job <- jobs :: job.trainSize in sizes;
    }
  }

  /** The checks of the train itself: its membership, size, commit, and base. */
  method CheckTrain(jobs: seq<Job>, world: World, log0: Log) returns (log: Log, sha: string)
    requires Agree(log0) && log0.reasons == [] && world.base != ""
    ensures Agree(log)
    ensures jobs == [] ==> log.reasons != []
    ensures sha == "" ==> log.reasons != []
    ensures log.reasons == [] <==>
      && jobs != [] && (exists id: string :: OnlyValue(jobs, TrainIdOf(), id))
      && (forall job <- jobs :: job.trainSize == |jobs|)
      && OnlyValue(jobs, ShaOf(), sha)
      && jobs[0].baseSha == world.base && OnlyValue(jobs, BaseOf(), world.base)
  {
    var shas, ids := NonEmpty(Values(jobs, ShaOf())), NonEmpty(Values(jobs, TrainIdOf()));
    var bases := NonEmpty(Values(jobs, BaseOf()));
    sha := "";
    if One(shas) {
      var x :| x in shas;
      OneIsSingleton(shas, x);
      sha := x;
      OnlyValueExactlyWhenOne(jobs, ShaOf(), sha);
    }
    assert One(shas) <==> OnlyValue(jobs, ShaOf(), sha);
    IdsAgree(jobs);
    SizesAgree(jobs);
    var member := jobs != [] && One(ids);
    var size := jobs != [] && One(set job <- jobs :: job.trainSize) && jobs[0].trainSize == |jobs|;
    var base := jobs != [] && One(bases) && jobs[0].baseSha == world.base;
    if jobs != [] && jobs[0].baseSha == world.base {
      assert BaseOf()(jobs[0]) in Values(jobs, BaseOf());
      OnlyValueExactlyWhenOne(jobs, BaseOf(), world.base);
    }
    RecordAgrees(log0, TrainMembership, member, !member);
    log := Record(log0, TrainMembership, member, !member);
    RecordAgrees(log, TrainSize, size, !size);
    log := Record(log, TrainSize, size, !size);
    RecordAgrees(log, ValidationCommit, One(shas), !One(shas));
    log := Record(log, ValidationCommit, One(shas), !One(shas));
    RecordAgrees(log, IntegrationBase, base, !base);
    log := Record(log, IntegrationBase, base, !base);
  }

  lemma IdsAgree(jobs: seq<Job>)
    ensures One(NonEmpty(Values(jobs, TrainIdOf()))) <==> exists id: string :: OnlyValue(jobs, TrainIdOf(), id)
  {
    var ids := NonEmpty(Values(jobs, TrainIdOf()));
    if One(ids) {
      var id :| id in ids;
      OnlyValueExactlyWhenOne(jobs, TrainIdOf(), id);
    }
    if id: string :| OnlyValue(jobs, TrainIdOf(), id) {
      OnlyValueExactlyWhenOne(jobs, TrainIdOf(), id);
    }
  }

  /** The checks of the recorded identity, policy, age, and shared fields. */
  method CheckRecorded(jobs: seq<Job>, world: World, log0: Log) returns (log: Log)
    requires Agree(log0) && (jobs == [] ==> log0.reasons != []) && world.policy != NoHash
    ensures Agree(log)
    ensures log.reasons == [] <==>
      && log0.reasons == []
      && jobs[0].identity == TrainIdentity(jobs) && jobs[0].policy == world.policy && Recent(world)
      && Shared(jobs, TreeOf()) && Shared(jobs, PolicyOf())
      && Shared(jobs, EnvironmentOf()) && Shared(jobs, IdentityOf())
  {
    var identity := jobs != [] && jobs[0].identity != NoHash && jobs[0].identity == TrainIdentity(jobs);
    var identityBlocks := jobs != [] && jobs[0].identity != TrainIdentity(jobs);
    RecordAgrees(log0, TrainIdentityCheck, identity, identityBlocks);
    log := Record(log0, TrainIdentityCheck, identity, identityBlocks);
    var policy := jobs != [] && jobs[0].policy != NoHash && jobs[0].policy == world.policy;
    var policyBlocks := jobs != [] && jobs[0].policy != world.policy;
    RecordAgrees(log, GatePolicy, policy, policyBlocks);
    log := Record(log, GatePolicy, policy, policyBlocks);
    var recent := jobs != [] && Recent(world);
    RecordAgrees(log, ValidationAge, recent, jobs != [] && !recent);
    log := Record(log, ValidationAge, recent, jobs != [] && !recent);
    var fields := [(SharedTree, TreeOf()), (SharedPolicy, PolicyOf()),
                   (SharedEnvironment, EnvironmentOf()), (SharedIdentity, IdentityOf())];
    ghost var before := log;
    for k := 0 to |fields|
      invariant Agree(log) && (before.reasons != [] ==> log.reasons != [])
      invariant log.reasons == [] <==> before.reasons == [] && forall m :: 0 <= m < k ==> Shared(jobs, fields[m].1)
    {
      SharedExactlyWhenOne(jobs, fields[k].1);
      var all := Values(jobs, fields[k].1);
      var shared := One(all - {NoHash}) && |all - {NoHash}| == |all|;
      RecordAgrees(log, fields[k].0, shared, !shared);
      log := Record(log, fields[k].0, shared, !shared);
    }
    assert (forall m :: 0 <= m < |fields| ==> Shared(jobs, fields[m].1)) <==>
      Shared(jobs, fields[0].1) && Shared(jobs, fields[1].1) && Shared(jobs, fields[2].1) && Shared(jobs, fields[3].1);
  }

  /** A decision, or the exception of a busy queue or of a worktree that could not be put back. */
  datatype Outcome = Decides(decision: Decision) | RaisesBusy | RaisesFailed

  /** The validated commit was restored to take its fingerprint. */
  ghost predicate WasRestored(jobs: seq<Job>, world: World, sha: string) {
    IdentityHolds(jobs, world, sha) && world.restore.Succeeds?
  }

  /** `decide`. Reuse is eligible exactly when every recorded check is a match, which is when
      the identity holds and the environment is reproduced at the validated commit. A decision
      leaves the worktree where it began, unless it could not be reset to that commit; a
      worktree that could not be put back after that is an exception. */
  method Decide(jobs: seq<Job>, world: World) returns (r: Outcome, head: string, ghost sha: string)
    requires world.base != "" && world.policy != NoHash
    ensures r.Decides? ==> r.decision.validationSha == sha
    ensures r.Decides? ==> (r.decision.eligible <==> AllMatch(r.decision.checks))
    ensures r.Decides? ==>
      (r.decision.eligible <==> WasRestored(jobs, world, sha) && world.fingerprint == Reproduced(jobs[0].environment))
    ensures r.Decides? ==> (r.decision.eligible <==> r.decision.reasons == [])
    ensures r.Decides? ==>
      var checks := r.decision.checks;
      && |checks| > 0 && checks[|checks| - 1].code == Environment
      && (checks[|checks| - 1].status == NotEvaluated <==> !WasRestored(jobs, world, sha))
    ensures r.Decides? <==> WasRestored(jobs, world, sha) ==>
      world.back.Succeeds? && world.cleans && world.fingerprint != QueueBusy
    ensures r.Decides? && (IdentityHolds(jobs, world, sha) ==> world.restore.Succeeds?) ==> head == world.base
    ensures r.Decides? && IdentityHolds(jobs, world, sha) && world.restore.Fails? ==> head == world.restore.headAt
    ensures !r.Decides? ==> head == HeadAfter(world.back, world.base)
    ensures r == RaisesBusy ==> head == world.base && world.fingerprint == QueueBusy
  {
    head := world.base;
    var log, commit := Log([Check(Authorization, Match)], []), "";
    log, commit := CheckTrain(jobs, world, log);
    sha := commit;
    log := CheckRecorded(jobs, world, log);
    var available := commit != "" && world.commitExists(commit);
    RecordAgrees(log, CommitAvailable, available, commit != "" && !available);
    log := Record(log, CommitAvailable, available, commit != "" && !available);
    if available && jobs != [] {
      var tree := world.treeOf(commit) == jobs[0].tree;
      RecordAgrees(log, ValidationTree, tree, !tree);
      log := Record(log, ValidationTree, tree, !tree);
    }
    assert log.reasons == [] <==> IdentityHolds(jobs, world, commit);
    if log.reasons == [] && jobs != [] {
      head := HeadAfter(world.restore, commit);
      if world.restore.Succeeds? {
        var busy;
        log, busy := CheckEnvironment(jobs[0], world, log);
        head := HeadAfter(world.back, world.base);
        if world.back.Fails? || !world.cleans { return RaisesFailed, head, sha; }
        if busy { return RaisesBusy, head, sha; }
        r := Decides(Decision(log.reasons == [], commit, log.checks, log.reasons));
        return;
      }
      log := log.(reasons := log.reasons + [RestoreFailed]);
    }
    log := log.(checks := log.checks + [Check(Environment, NotEvaluated)]);
    assert log.checks[|log.checks| - 1].status == NotEvaluated;
    r := Decides(Decision(log.reasons == [], commit, log.checks, log.reasons));
  }

  /** The check of the environment, at the validated commit. */
  method CheckEnvironment(job: Job, world: World, log0: Log) returns (log: Log, busy: bool)
    requires Agree(log0) && log0.reasons == []
    ensures busy <==> world.fingerprint == QueueBusy
    ensures !busy ==> Agree(log) && (log.reasons == [] <==> world.fingerprint == Reproduced(job.environment))
    ensures !busy ==>
      var checks := log.checks;
      |checks| > 0 && checks[|checks| - 1].code == Environment && checks[|checks| - 1].status != NotEvaluated
  {
    log, busy := log0, world.fingerprint == QueueBusy;
    if !busy {
      var matches := world.fingerprint == Reproduced(job.environment);
      RecordAgrees(log, Environment, matches, !matches);
      log := Record(log, Environment, matches, !matches);
    }
  }
}
