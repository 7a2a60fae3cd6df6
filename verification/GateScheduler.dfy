/**
  The gate plan (`config.py`, the checks at the end of `load_config`) and its execution in
  resource-bounded waves (`gate_runner.py`).
 */
module GateScheduler {

  const BUILTIN := "diff-check"

  /** A configured gate. `repeatsBuiltin` says that its command is the built-in check's. */
  datatype Gate = Gate(
    name: string,
    repeatsBuiltin: bool,
    paths: seq<string>,
    alwaysRerun: bool,
    group: string,
    needs: seq<string>,
    workers: nat,
    hasTimeout: bool)

  // ------------------------------------------------------------------ the plan checks

  predicate UniqueNames(gates: seq<Gate>) {
    forall i, j :: 0 <= i < j < |gates| ==> gates[i].name != gates[j].name
  }

  predicate NamedBefore(gates: seq<Gate>, i: nat, name: string)
    requires i <= |gates|
  {
    name == BUILTIN || exists j :: 0 <= j < i && gates[j].name == name
  }

  predicate NeedsEarlier(gates: seq<Gate>, i: nat)
    requires i < |gates|
  {
    forall name <- gates[i].needs :: NamedBefore(gates, i, name)
  }

  /** Two gates of a group have no gate of another group between them. */
  predicate Contiguous(gates: seq<Gate>, i: nat, j: nat, k: nat)
    requires i < j < k < |gates|
  {
    gates[i].group != "" && gates[i].group == gates[k].group ==> gates[j].group == gates[i].group
  }

  ghost predicate Accepted(gates: seq<Gate>, maxWorkers: nat) {
    && UniqueNames(gates)
    && (forall i :: 0 <= i < |gates| ==> NeedsEarlier(gates, i) && gates[i].workers <= maxWorkers)
    && forall i, j, k :: 0 <= i < j < k < |gates| ==> Contiguous(gates, i, j, k)
  }

  predicate NameIsNew(gates: seq<Gate>, i: nat)
    requires i < |gates|
  {
    forall j :: 0 <= j < i ==> gates[j].name != gates[i].name
  }

  ghost predicate NamesAre(gates: seq<Gate>, n: nat, names: set<string>)
    requires n <= |gates|
  {
    forall name :: name in names <==> exists j :: 0 <= j < n && gates[j].name == name
  }

  ghost predicate ClosedAre(gates: seq<Gate>, n: nat, closed: set<string>)
    requires n <= |gates|
  {
    forall group :: group in closed <==> Closed(gates, n, group)
  }

  /** The first `n` gates pass the checks. */
  ghost predicate AcceptedTo(gates: seq<Gate>, maxWorkers: nat, n: nat)
    requires n <= |gates|
  {
    && (forall j :: 0 <= j < n ==> NeedsEarlier(gates, j) && gates[j].workers <= maxWorkers)
    && forall j, k, l :: 0 <= j < k < l < n ==> Contiguous(gates, j, k, l)
  }

  /** The plan check accepts exactly the plans whose names are unique, whose needs point back,
      whose groups are contiguous, and whose gates fit the worker ceiling. */
  method CheckPlan(gates: seq<Gate>, maxWorkers: nat) returns (ok: bool)
    ensures ok <==> Accepted(gates, maxWorkers)
  {
    if i :| 0 <= i < |gates| && !NameIsNew(gates, i) { return false; }
    assert UniqueNames(gates) by {
      forall i, j | 0 <= i < j < |gates| ensures gates[i].name != gates[j].name {
        assert NameIsNew(gates, j);
      }
    }
    var configured: set<string>, closed: set<string>, current := {}, {}, "";
    for i := 0 to |gates|
      invariant NamesAre(gates, i, configured) && ClosedAre(gates, i, closed)
      invariant current == if i == 0 then "" else gates[i - 1].group
      invariant current !in closed
      invariant AcceptedTo(gates, maxWorkers, i)
    {
      var gate := gates[i];
      ghost var closedBefore, last := closed, current;
      if gate.group != current {
        if current != "" { closed := closed + {current}; }
        current := gate.group;
        if current != "" && current in closed {
          ClosedBreaks(gates, i);
          return false;
        }
      }
      if name :| name in gate.needs && name != BUILTIN && name !in configured {
        assert !NamedBefore(gates, i, name);
        assert !NeedsEarlier(gates, i);
        return false;
      }
      if gate.workers > maxWorkers { return false; }
      AcceptedGrows(gates, maxWorkers, i, configured);
      ClosedAreNow(gates, i, closedBefore, last, closed);
      configured := configured + {gate.name};
    }
    ok := true;
  }

  lemma AcceptedGrows(gates: seq<Gate>, maxWorkers: nat, i: nat, configured: set<string>)
    requires i < |gates| && AcceptedTo(gates, maxWorkers, i) && NamesAre(gates, i, configured)
    requires !Closed(gates, i, gates[i].group) && gates[i].workers <= maxWorkers
    requires forall name <- gates[i].needs :: name == BUILTIN || name in configured
    ensures AcceptedTo(gates, maxWorkers, i + 1) && NamesAre(gates, i + 1, configured + {gates[i].name})
  {
    assert NeedsEarlier(gates, i) by {
      forall name <- gates[i].needs ensures NamedBefore(gates, i, name) {}
    }
    OpenContinues(gates, i);
  }

  lemma ClosedAreNow(gates: seq<Gate>, i: nat, before: set<string>, last: string, after: set<string>)
    requires i < |gates| && ClosedAre(gates, i, before) && last == if i == 0 then "" else gates[i - 1].group
    requires after == if gates[i].group != last && last != "" then before + {last} else before
    ensures ClosedAre(gates, i + 1, after)
  {
    forall group ensures group in after <==> Closed(gates, i + 1, group) {
      ClosedGrows(gates, i, group);
    }
  }

  /** A group whose run of gates has ended before gate `n`. */
  predicate Closed(gates: seq<Gate>, n: nat, group: string)
    requires n <= |gates|
  {
    group != "" && exists j, k :: 0 <= j < k < n && gates[j].group == group && gates[k].group != group
  }

  lemma ClosedBreaks(gates: seq<Gate>, i: nat)
    requires i < |gates| && gates[i].group != ""
    requires Closed(gates, i, gates[i].group)
    ensures exists j, k, l :: 0 <= j < k < l < |gates| && !Contiguous(gates, j, k, l)
  {
    var j, k :| 0 <= j < k < i && gates[j].group == gates[i].group && gates[k].group != gates[i].group;
    assert !Contiguous(gates, j, k, i);
  }

  lemma OpenContinues(gates: seq<Gate>, i: nat)
    requires i < |gates|
    requires !Closed(gates, i, gates[i].group)
    ensures forall j, k :: 0 <= j < k < i ==> Contiguous(gates, j, k, i)
  {
  }

  lemma ClosedGrows(gates: seq<Gate>, i: nat, group: string)
    requires i < |gates|
    ensures Closed(gates, i + 1, group) <==>
            Closed(gates, i, group) || (i > 0 && group != "" && gates[i - 1].group == group && gates[i].group != group)
  {
    if Closed(gates, i + 1, group) && !Closed(gates, i, group) {
      var j, k :| 0 <= j < k < i + 1 && gates[j].group == group && gates[k].group != group;
      assert k == i;
      assert gates[i - 1].group == group;
    }
  }

  // ------------------------------------------------------------------ the effective plan

  /** `is_redundant_builtin_diff_check`: exactly the built-in check again. */
  predicate Redundant(gate: Gate) {
    && gate.name == BUILTIN && !gate.alwaysRerun && gate.paths == [] && gate.group == ""
    && gate.needs == [] && gate.workers == 1 && !gate.hasTimeout && gate.repeatsBuiltin
  }

  function EffectiveGates(gates: seq<Gate>): seq<Gate> {
    if gates == [] then []
    else
      var before, last := EffectiveGates(gates[..|gates| - 1]), gates[|gates| - 1];
      if Redundant(last) then before else before + [last]
  }

  /** Where the gates that are kept stood. */
  function Kept(gates: seq<Gate>): (at: seq<nat>)
    ensures |at| == |EffectiveGates(gates)|
    ensures forall k :: 0 <= k < |at| ==> at[k] < |gates| && EffectiveGates(gates)[k] == gates[at[k]]
    ensures forall k, l :: 0 <= k < l < |at| ==> at[k] < at[l]
    ensures forall i :: 0 <= i < |gates| && !Redundant(gates[i]) ==> i in at
  {
    if gates == [] then []
    else
      var n := |gates| - 1;
      assert forall i :: 0 <= i < n ==> gates[..n][i] == gates[i];
      if Redundant(gates[n]) then Kept(gates[..n]) else Kept(gates[..n]) + [n]
  }

  lemma KeptInOrder(gates: seq<Gate>, k: nat, l: nat)
    requires k < |Kept(gates)| && l < |Kept(gates)|
    ensures Kept(gates)[k] < Kept(gates)[l] ==> k < l
  {
    if l < k { assert Kept(gates)[l] < Kept(gates)[k]; }
  }

  lemma KeptNeedsEarlier(gates: seq<Gate>, k: nat)
    requires k < |EffectiveGates(gates)| && Kept(gates)[k] < |gates| && NeedsEarlier(gates, Kept(gates)[k])
    ensures NeedsEarlier(EffectiveGates(gates), k)
  {
    var kept, at := EffectiveGates(gates), Kept(gates);
    forall name <- kept[k].needs ensures NamedBefore(kept, k, name) {
      assert NamedBefore(gates, at[k], name);
      if name != BUILTIN {
        var j :| 0 <= j < at[k] && gates[j].name == name;
        var l :| 0 <= l < |at| && at[l] == j;
        KeptInOrder(gates, l, k);
        assert kept[l].name == name;
      }
    }
  }

  /** Removing the redundant gate leaves an accepted plan. */
  lemma EffectivePlanIsAccepted(gates: seq<Gate>, maxWorkers: nat)
    requires Accepted(gates, maxWorkers)
    ensures Accepted(EffectiveGates(gates), maxWorkers)
  {
    var kept, at := EffectiveGates(gates), Kept(gates);
    forall k | 0 <= k < |kept| ensures NeedsEarlier(kept, k) && kept[k].workers <= maxWorkers {
      assert NeedsEarlier(gates, at[k]);
      KeptNeedsEarlier(gates, k);
    }
    forall i, j, k | 0 <= i < j < k < |kept| ensures Contiguous(kept, i, j, k) {
      assert Contiguous(gates, at[i], at[j], at[k]);
    }
  }

  // ------------------------------------------------------------------ dependencies

  /** The first gate of the stage that gate `i` belongs to: a group, or the gate alone. */
  function StageStart(gates: seq<Gate>, i: nat): (start: nat)
    requires i < |gates|
    ensures start <= i
  {
    if i > 0 && gates[i].group != "" && gates[i - 1].group == gates[i].group then StageStart(gates, i - 1) else i
  }

  function Names(gates: seq<Gate>, from: nat, to: nat): (names: seq<string>)
    requires from <= to <= |gates|
    ensures |names| == to - from && forall k :: 0 <= k < to - from ==> names[k] == gates[from + k].name
  {
    seq(to - from, k requires 0 <= k < to - from => gates[from + k].name)
  }

  /** What a gate waits for when it names no needs: the names of the stage before. */
  function PriorNames(gates: seq<Gate>, start: nat): seq<string>
    requires start <= |gates|
  {
    if start == 0 then [BUILTIN] else Names(gates, StageStart(gates, start - 1), start)
  }

  /** What must be settled before gate `i`: its needs or, when it names none, the stage before. */
  function Dependencies(gates: seq<Gate>, i: nat): seq<string>
    requires i < |gates|
  {
    if gates[i].needs != [] then gates[i].needs else PriorNames(gates, StageStart(gates, i))
  }

  ghost predicate DependencyMap(gates: seq<Gate>, deps: map<string, seq<string>>) {
    forall i :: 0 <= i < |gates| ==> gates[i].name in deps && deps[gates[i].name] == Dependencies(gates, i)
  }

  ghost predicate DependenciesUpTo(gates: seq<Gate>, deps: map<string, seq<string>>, n: nat)
    requires n <= |gates|
  {
    forall j :: 0 <= j < n ==> gates[j].name in deps && deps[gates[j].name] == Dependencies(gates, j)
  }

  lemma DependenciesGrow(gates: seq<Gate>, deps: map<string, seq<string>>, n: nat)
    requires UniqueNames(gates) && n < |gates| && DependenciesUpTo(gates, deps, n)
    ensures DependenciesUpTo(gates, deps[gates[n].name := Dependencies(gates, n)], n + 1)
  {
  }

  /** Gate `i` joins the stage of the gate before it. */
  predicate Continues(gates: seq<Gate>, i: nat)
    requires i < |gates|
  {
    gates[i].group != "" && i > 0 && gates[i - 1].group == gates[i].group
  }

  /** Where the stage of the last of the first `n` gates starts, and the names before it. */
  ghost predicate StageKnown(gates: seq<Gate>, n: nat, start: nat, prior: seq<string>)
    requires n <= |gates|
  {
    && start <= n && (if n == 0 then start == 0 else start == StageStart(gates, n - 1))
    && prior == PriorNames(gates, start)
  }

  lemma StageContinues(gates: seq<Gate>, i: nat, start: nat, prior: seq<string>)
    requires i < |gates| && StageKnown(gates, i, start, prior) && Continues(gates, i)
    ensures StageKnown(gates, i + 1, start, prior)
    ensures (if gates[i].needs != [] then gates[i].needs else prior) == Dependencies(gates, i)
  {
  }

  lemma StageBegins(gates: seq<Gate>, i: nat, start: nat, prior: seq<string>, names: seq<string>)
    requires i < |gates| && StageKnown(gates, i, start, prior) && !Continues(gates, i)
    requires names == if i > 0 then Names(gates, start, i) else prior
    ensures StageKnown(gates, i + 1, i, names)
    ensures (if gates[i].needs != [] then gates[i].needs else names) == Dependencies(gates, i)
  {
  }

  /** `gate_dependencies`, its two passes as one: the gates are grouped into stages, and the
      names of the stage before are the default. */
  method GateDependencies(gates: seq<Gate>) returns (deps: map<string, seq<string>>)
    requires UniqueNames(gates)
    ensures DependencyMap(gates, deps)
  {
    deps := map[];
    var start, prior := 0, [BUILTIN];
    for i := 0 to |gates|
      invariant StageKnown(gates, i, start, prior) && DependenciesUpTo(gates, deps, i)
    {
      var gate := gates[i];
      if Continues(gates, i) {
        StageContinues(gates, i, start, prior);
      } else {
        var names := if i > 0 then Names(gates, start, i) else prior;
        StageBegins(gates, i, start, prior, names);
        start, prior := i, names;
      }
      DependenciesGrow(gates, deps, i);
      deps := deps[gate.name := if gate.needs != [] then gate.needs else prior];
    }
  }

  lemma {:induction false} StageIsOneGroup(gates: seq<Gate>, i: nat, j: nat)
    requires i < |gates| && StageStart(gates, i) <= j <= i
    ensures StageStart(gates, j) == StageStart(gates, i) && (j < i ==> gates[j].group == gates[i].group != "")
  {
    if j < i { StageIsOneGroup(gates, i - 1, j); }
  }

  /** Gates of one group are one stage. */
  lemma {:induction false} GroupIsOneStage(gates: seq<Gate>, maxWorkers: nat, i: nat, k: nat)
    requires Accepted(gates, maxWorkers) && i <= k < |gates| && gates[i].group == gates[k].group != ""
    ensures StageStart(gates, i) == StageStart(gates, k)
    decreases k - i
  {
    if i < k {
      if i < k - 1 { assert Contiguous(gates, i, k - 1, k); }
      GroupIsOneStage(gates, maxWorkers, i, k - 1);
    }
  }

  /** Everything a gate waits for is the built-in check or an earlier gate. */
  lemma DependsOnEarlier(gates: seq<Gate>, maxWorkers: nat, i: nat)
    requires Accepted(gates, maxWorkers) && i < |gates|
    ensures forall name <- Dependencies(gates, i) :: NamedBefore(gates, i, name)
  {
    assert NeedsEarlier(gates, i);
  }

  // ------------------------------------------------------------------ waves

  /** How a gate was settled before the plan ran. */
  datatype Initial = Skipped | Reused

  type States = map<string, Initial>

  datatype GateOutcome = Passed | Failed | GateCanceled

  datatype PlanError = NoProgress | OverCeiling | MonitorError | GateError(gate: nat) | Canceled

  datatype PlanResult = Finished | Stopped(error: PlanError)

  /** Gates that ran at the same time, the names settled before them, and whether all passed. */
  datatype Wave = Wave(members: seq<nat>, before: set<string>, passed: bool)

  predicate InRange(members: seq<nat>, n: nat) { forall k :: 0 <= k < |members| ==> members[k] < n }

  predicate Increasing(members: seq<nat>) { forall a, b :: 0 <= a < b < |members| ==> members[a] < members[b] }

  lemma IncreasingAppend(members: seq<nat>, i: nat)
    requires Increasing(members) && (members != [] ==> members[|members| - 1] < i)
    ensures Increasing(members + [i])
  {
    var more := members + [i];
    forall a, b | 0 <= a < b < |more| ensures more[a] < more[b] {
      if b == |members| && a < |members| - 1 { assert members[a] < members[|members| - 1]; }
    }
  }

  function NamesOf(gates: seq<Gate>, members: seq<nat>): set<string>
    requires InRange(members, |gates|)
  {
    set k | 0 <= k < |members| :: gates[members[k]].name
  }

  function TotalWorkers(gates: seq<Gate>, members: seq<nat>): nat
    requires InRange(members, |gates|)
  {
    if members == [] then 0
    else TotalWorkers(gates, members[..|members| - 1]) + gates[members[|members| - 1]].workers
  }

  lemma TotalWorkersAppend(gates: seq<Gate>, members: seq<nat>, i: nat)
    requires InRange(members, |gates|) && i < |gates|
    ensures TotalWorkers(gates, members + [i]) == TotalWorkers(gates, members) + gates[i].workers
  {
    assert (members + [i])[..|members|] == members;
  }

  function InitiallySettled(gates: seq<Gate>, initial: States): set<string> {
    {BUILTIN} + set i | 0 <= i < |gates| && gates[i].name in initial :: gates[i].name
  }

  predicate DependenciesIn(gates: seq<Gate>, i: nat, done: set<string>)
    requires i < |gates|
  {
    forall name <- Dependencies(gates, i) :: name in done
  }

  /** A gate may start: its dependencies and the gates of every earlier stage are settled. */
  predicate MayStart(gates: seq<Gate>, i: nat, first: nat, done: set<string>)
    requires i < |gates| && first < |gates|
  {
    DependenciesIn(gates, i, done) && StageStart(gates, i) == StageStart(gates, first)
  }

  /** A gate that the wave leaves out of its group: it is not left to run, waits, or does not fit. */
  predicate LeftOut(gates: seq<Gate>, maxWorkers: nat, left: set<nat>, wave: Wave, i: nat)
    requires InRange(wave.members, |gates|) && i < |gates|
  {
    || i !in left || !DependenciesIn(gates, i, wave.before)
    || TotalWorkers(gates, wave.members) + gates[i].workers > maxWorkers
  }

  /** No gate of the wave's group could have joined it. */
  ghost predicate Full(gates: seq<Gate>, maxWorkers: nat, left: set<nat>, wave: Wave)
    requires InRange(wave.members, |gates|) && wave.members != []
  {
    forall i :: 0 <= i < |gates| && i !in wave.members && gates[i].group == gates[wave.members[0]].group != "" ==>
      LeftOut(gates, maxWorkers, left, wave, i)
  }

  /** A wave of the gates that are left to run respects the worker ceiling and uses it as far as
      its group can, stays within one stage, and starts after everything its gates wait for and
      after every gate of every earlier stage. */
  ghost predicate WaveOk(gates: seq<Gate>, maxWorkers: nat, left: set<nat>, wave: Wave) {
    && wave.members != [] && Increasing(wave.members) && InRange(wave.members, |gates|)
    && TotalWorkers(gates, wave.members) <= maxWorkers && Full(gates, maxWorkers, left, wave)
    && (forall j :: 0 <= j < wave.members[0] ==> j !in left)
    && forall k :: 0 <= k < |wave.members| ==> MayStart(gates, wave.members[k], wave.members[0], wave.before)
  }

  /** The gates that neither ran nor were settled before the plan, whatever their names are. */
  ghost function Left(gates: seq<Gate>, initial: States, waves: seq<Wave>): set<nat> {
    set i | 0 <= i < |gates| && gates[i].name !in initial && !Ran(waves, i)
  }

  ghost predicate Follows(gates: seq<Gate>, a: Wave, b: Wave) {
    a.passed && InRange(a.members, |gates|) && b.before == a.before + NamesOf(gates, a.members)
  }

  /** The wave at `k` is as it must be with the gates that were left to run then. */
  ghost predicate WaveAt(gates: seq<Gate>, maxWorkers: nat, initial: States, waves: seq<Wave>, k: nat)
    requires k < |waves|
  {
    WaveOk(gates, maxWorkers, Left(gates, initial, waves[..k]), waves[k])
  }

  /** Each wave starts when the one before it has passed. */
  ghost predicate WavesOk(gates: seq<Gate>, maxWorkers: nat, initial: States, waves: seq<Wave>) {
    && (forall k :: 0 <= k < |waves| ==> WaveAt(gates, maxWorkers, initial, waves, k))
    && (|waves| > 0 ==> waves[0].before == InitiallySettled(gates, initial))
    && (forall k :: 0 <= k < |waves| - 1 ==> Follows(gates, waves[k], waves[k + 1]))
  }

  predicate Ran(waves: seq<Wave>, i: nat) { exists k :: 0 <= k < |waves| && i in waves[k].members }

  /** No gate runs twice, and none that was settled before runs. */
  ghost predicate RunOnce(gates: seq<Gate>, initial: States, waves: seq<Wave>) {
    && (forall i :: 0 <= i < |gates| && Ran(waves, i) ==> gates[i].name !in initial)
    && (forall k, l, i :: 0 <= k < l < |waves| && i in waves[k].members ==> i !in waves[l].members)
  }

  // ------------------------------------------------------------------ running the plan

  /** The members are in order and come up to candidate `k - 1` at most. */
  predicate UpTo(members: seq<nat>, candidates: seq<nat>, k: nat)
    requires k <= |candidates|
  {
    Increasing(members) && (members != [] ==> k > 0 && members[|members| - 1] <= candidates[k - 1])
  }

  lemma UpToNext(members: seq<nat>, candidates: seq<nat>, k: nat)
    requires Increasing(candidates) && k < |candidates| && UpTo(members, candidates, k)
    ensures UpTo(members, candidates, k + 1) && UpTo(members + [candidates[k]], candidates, k + 1)
  {
    if k > 0 { assert candidates[k - 1] < candidates[k]; }
    IncreasingAppend(members, candidates[k]);
  }

  /** Those of the first `k` pending gates whose dependencies are all settled. */
  function Ready(gates: seq<Gate>, pending: seq<nat>, completed: set<string>, k: nat): (ready: seq<nat>)
    requires InRange(pending, |gates|) && k <= |pending|
    ensures InRange(ready, |gates|)
  {
    if k == 0 then []
    else
      var before := Ready(gates, pending, completed, k - 1);
      if DependenciesIn(gates, pending[k - 1], completed) then before + [pending[k - 1]] else before
  }

  lemma {:induction false} ReadyIsOrdered(gates: seq<Gate>, pending: seq<nat>, completed: set<string>, k: nat)
    requires InRange(pending, |gates|) && Increasing(pending) && k <= |pending|
    ensures UpTo(Ready(gates, pending, completed, k), pending, k)
  {
    if k > 0 {
      ReadyIsOrdered(gates, pending, completed, k - 1);
      UpToNext(Ready(gates, pending, completed, k - 1), pending, k - 1);
    }
  }

  lemma {:induction false} ReadyIsSound(gates: seq<Gate>, pending: seq<nat>, completed: set<string>, k: nat, m: nat)
    requires InRange(pending, |gates|) && k <= |pending| && m < |Ready(gates, pending, completed, k)|
    ensures
      var i := Ready(gates, pending, completed, k)[m];
      i in pending && DependenciesIn(gates, i, completed)
  {
    if m < |Ready(gates, pending, completed, k - 1)| { ReadyIsSound(gates, pending, completed, k - 1, m); }
  }

  lemma {:induction false} ReadyIsComplete(gates: seq<Gate>, pending: seq<nat>, completed: set<string>, k: nat, m: nat)
    requires InRange(pending, |gates|) && m < k <= |pending| && DependenciesIn(gates, pending[m], completed)
    ensures pending[m] in Ready(gates, pending, completed, k)
    ensures m == 0 ==> Ready(gates, pending, completed, k)[0] == pending[0]
    decreases k
  {
    if m < k - 1 {
      ReadyIsComplete(gates, pending, completed, k - 1, m);
    } else if m == 0 {
      assert Ready(gates, pending, completed, 0) == [];
    }
  }

  /** The pending gates whose dependencies are all settled. */
  method ReadyGates(gates: seq<Gate>, deps: map<string, seq<string>>, pending: seq<nat>, completed: set<string>)
    returns (ready: seq<nat>)
    requires DependencyMap(gates, deps) && InRange(pending, |gates|)
    ensures ready == Ready(gates, pending, completed, |pending|)
  {
    ready := [];
    for k := 0 to |pending|
      invariant ready == Ready(gates, pending, completed, k)
    {
      if forall name <- deps[gates[pending[k]].name] :: name in completed {
        ready := ready + [pending[k]];
      }
    }
  }

  function SameGroup(gates: seq<Gate>, ready: seq<nat>, group: string): (same: seq<nat>)
    requires InRange(ready, |gates|)
    ensures InRange(same, |gates|)
  {
    if ready == [] then []
    else
      var before, last := SameGroup(gates, ready[..|ready| - 1], group), ready[|ready| - 1];
      if gates[last].group == group then before + [last] else before
  }

  lemma {:induction false} SameGroupIsOrdered(gates: seq<Gate>, ready: seq<nat>, group: string)
    requires InRange(ready, |gates|) && Increasing(ready)
    ensures UpTo(SameGroup(gates, ready, group), ready, |ready|)
    ensures ready != [] && gates[ready[0]].group == group ==>
      SameGroup(gates, ready, group) != [] && SameGroup(gates, ready, group)[0] == ready[0]
  {
    if ready != [] {
      var n := |ready| - 1;
      SameGroupIsOrdered(gates, ready[..n], group);
      assert UpTo(SameGroup(gates, ready[..n], group), ready, n);
      UpToNext(SameGroup(gates, ready[..n], group), ready, n);
    }
  }

  lemma {:induction false} SameGroupIsSound(gates: seq<Gate>, ready: seq<nat>, group: string, m: nat)
    requires InRange(ready, |gates|) && m < |SameGroup(gates, ready, group)|
    ensures
      var i := SameGroup(gates, ready, group)[m];
      i in ready && gates[i].group == group
  {
    var before := ready[..|ready| - 1];
    if m < |SameGroup(gates, before, group)| { SameGroupIsSound(gates, before, group, m); }
  }

  lemma {:induction false} SameGroupIsComplete(gates: seq<Gate>, ready: seq<nat>, group: string, k: nat)
    requires InRange(ready, |gates|) && k < |ready| && gates[ready[k]].group == group
    ensures ready[k] in SameGroup(gates, ready, group)
  {
    if k < |ready| - 1 { SameGroupIsComplete(gates, ready[..|ready| - 1], group, k); }
  }

  /** The first ready gate, with the ready gates of its group. */
  function Candidates(gates: seq<Gate>, ready: seq<nat>): (candidates: seq<nat>)
    requires ready != [] && InRange(ready, |gates|)
    ensures InRange(candidates, |gates|)
  {
    if gates[ready[0]].group == "" then [ready[0]] else SameGroup(gates, ready, gates[ready[0]].group)
  }

  /** A candidate that was passed over does not fit beside the selected gates. */
  predicate PassedOver(gates: seq<Gate>, maxWorkers: nat, selected: seq<nat>, i: nat)
    requires InRange(selected, |gates|) && i < |gates|
  {
    i in selected || TotalWorkers(gates, selected) + gates[i].workers > maxWorkers
  }

  lemma PassedOverStays(gates: seq<Gate>, maxWorkers: nat, selected: seq<nat>, more: nat, i: nat)
    requires InRange(selected, |gates|) && more < |gates| && i < |gates| && PassedOver(gates, maxWorkers, selected, i)
    ensures PassedOver(gates, maxWorkers, selected + [more], i)
  {
    TotalWorkersAppend(gates, selected, more);
  }

  /** Those of the first `k` candidates that fit, each beside the ones taken before it. */
  function Fitting(gates: seq<Gate>, maxWorkers: nat, candidates: seq<nat>, k: nat): (selected: seq<nat>)
    requires InRange(candidates, |gates|) && k <= |candidates|
    ensures InRange(selected, |gates|)
  {
    if k == 0 then []
    else
      var before, i := Fitting(gates, maxWorkers, candidates, k - 1), candidates[k - 1];
      if TotalWorkers(gates, before) + gates[i].workers <= maxWorkers then before + [i] else before
  }

  lemma FittingNext(gates: seq<Gate>, maxWorkers: nat, candidates: seq<nat>, k: nat)
    requires InRange(candidates, |gates|) && 0 < k <= |candidates|
    ensures
      var before := Fitting(gates, maxWorkers, candidates, k - 1);
      Fitting(gates, maxWorkers, candidates, k) in {before, before + [candidates[k - 1]]}
  {
  }

  lemma {:induction false} FittingIsOrdered(gates: seq<Gate>, maxWorkers: nat, candidates: seq<nat>, k: nat)
    requires InRange(candidates, |gates|) && Increasing(candidates) && k <= |candidates|
    ensures UpTo(Fitting(gates, maxWorkers, candidates, k), candidates, k)
  {
    hide TotalWorkers;
    if k > 0 {
      FittingIsOrdered(gates, maxWorkers, candidates, k - 1);
      FittingNext(gates, maxWorkers, candidates, k);
      UpToNext(Fitting(gates, maxWorkers, candidates, k - 1), candidates, k - 1);
    }
  }

  lemma {:induction false} FittingFits(gates: seq<Gate>, maxWorkers: nat, candidates: seq<nat>, k: nat)
    requires InRange(candidates, |gates|) && k <= |candidates|
    ensures TotalWorkers(gates, Fitting(gates, maxWorkers, candidates, k)) <= maxWorkers
  {
    if k > 0 {
      FittingFits(gates, maxWorkers, candidates, k - 1);
      TotalWorkersAppend(gates, Fitting(gates, maxWorkers, candidates, k - 1), candidates[k - 1]);
    }
  }

  lemma {:induction false} FirstFits(gates: seq<Gate>, maxWorkers: nat, candidates: seq<nat>, k: nat)
    requires InRange(candidates, |gates|) && 0 < k <= |candidates| && gates[candidates[0]].workers <= maxWorkers
    ensures Fitting(gates, maxWorkers, candidates, k) != []
    ensures Fitting(gates, maxWorkers, candidates, k)[0] == candidates[0]
  {
    if k == 1 {
      assert Fitting(gates, maxWorkers, candidates, 0) == [];
    } else {
      FirstFits(gates, maxWorkers, candidates, k - 1);
    }
  }

  lemma {:induction false} FittingIsSound(gates: seq<Gate>, maxWorkers: nat, candidates: seq<nat>, k: nat, m: nat)
    requires InRange(candidates, |gates|) && k <= |candidates| && m < |Fitting(gates, maxWorkers, candidates, k)|
    ensures Fitting(gates, maxWorkers, candidates, k)[m] in candidates
  {
    if m < |Fitting(gates, maxWorkers, candidates, k - 1)| { FittingIsSound(gates, maxWorkers, candidates, k - 1, m); }
  }

  lemma {:induction false} FittingPassesOver(gates: seq<Gate>, maxWorkers: nat, candidates: seq<nat>, k: nat, m: nat)
    requires InRange(candidates, |gates|) && m < k <= |candidates|
    ensures PassedOver(gates, maxWorkers, Fitting(gates, maxWorkers, candidates, k), candidates[m])
    decreases k
  {
    if m < k - 1 {
      FittingPassesOver(gates, maxWorkers, candidates, k - 1, m);
      var selected := Fitting(gates, maxWorkers, candidates, k - 1);
      PassedOverStays(gates, maxWorkers, selected, candidates[k - 1], candidates[m]);
    }
  }

  /** As many candidates, in order, as fit the worker ceiling. */
  method SelectWorkers(gates: seq<Gate>, maxWorkers: nat, candidates: seq<nat>) returns (selected: seq<nat>)
    requires InRange(candidates, |gates|)
    ensures selected == Fitting(gates, maxWorkers, candidates, |candidates|)
  {
    selected := [];
    var used := 0;
    for k := 0 to |candidates|
      invariant selected == Fitting(gates, maxWorkers, candidates, k) && used == TotalWorkers(gates, selected)
    {
      if used + gates[candidates[k]].workers <= maxWorkers {
        TotalWorkersAppend(gates, selected, candidates[k]);
        selected := selected + [candidates[k]];
        used := used + gates[candidates[k]].workers;
      }
    }
  }

  function Without(pending: seq<nat>, members: seq<nat>): (rest: seq<nat>)
    requires Increasing(pending)
    ensures Increasing(rest) && |rest| <= |pending|
    ensures forall i :: i in rest <==> i in pending && i !in members
    ensures (exists i :: i in pending && i in members) ==> |rest| < |pending|
  {
    if pending == [] then []
    else
      var before, last := Without(pending[..|pending| - 1], members), pending[|pending| - 1];
      assert before != [] ==> before[|before| - 1] in pending[..|pending| - 1];
      IncreasingAppendHolds(before, last);
      if last in members then before else before + [last]
  }

  lemma IncreasingAppendHolds(members: seq<nat>, i: nat)
    requires Increasing(members)
    ensures (members != [] ==> members[|members| - 1] < i) ==> Increasing(members + [i])
  {
    if members != [] ==> members[|members| - 1] < i { IncreasingAppend(members, i); }
  }

  ghost function AsSet(pending: seq<nat>): set<nat> { set i | i in pending }

  /** What has run and what is left, between two waves. */
  ghost predicate Progress(gates: seq<Gate>, initial: States, waves: seq<Wave>, completed: set<string>,
                           pending: seq<nat>) {
    && InRange(pending, |gates|) && Increasing(pending)
    && (forall i :: 0 <= i < |gates| ==> (i in pending <==> gates[i].name !in initial && !Ran(waves, i)))
    && (forall i :: 0 <= i < |gates| && i !in pending ==> gates[i].name in completed)
    && (waves != [] ==> InRange(waves[|waves| - 1].members, |gates|))
    && completed == (if waves == [] then InitiallySettled(gates, initial)
                     else waves[|waves| - 1].before + NamesOf(gates, waves[|waves| - 1].members))
  }

  function Unsettled(gates: seq<Gate>, initial: States, n: nat := |gates|): (pending: seq<nat>)
    requires n <= |gates|
    ensures Increasing(pending) && InRange(pending, n)
    ensures forall i :: 0 <= i < n ==> (i in pending <==> gates[i].name !in initial)
  {
    if n == 0 then []
    else
      var before := Unsettled(gates, initial, n - 1);
      IncreasingAppendHolds(before, n - 1);
      if gates[n - 1].name in initial then before else before + [n - 1]
  }

  /** Every gate of a wave passed. */
  predicate AllPassed(members: seq<nat>, ends: nat -> GateOutcome) {
    forall k :: 0 <= k < |members| ==> ends(members[k]) == Passed
  }

  /** Gate `k` of a wave is the first that failed. */
  predicate FirstFailed(members: seq<nat>, ends: nat -> GateOutcome, k: nat)
    requires k < |members|
  {
    ends(members[k]) == Failed && forall j :: 0 <= j < k ==> ends(members[j]) != Failed
  }

  /** The error a wave stops the plan with: the monitor's, else that of the first gate that
      failed, else that of a canceled gate. */
  ghost predicate StopsWith(members: seq<nat>, ends: nat -> GateOutcome, monitored: bool, error: PlanError) {
    match error
    case MonitorError => monitored
    case GateError(gate) =>
      !monitored && exists k :: 0 <= k < |members| && members[k] == gate && FirstFailed(members, ends, k)
    case Canceled =>
      && !monitored && (forall k :: 0 <= k < |members| ==> ends(members[k]) != Failed)
      && exists k :: 0 <= k < |members| && ends(members[k]) == GateCanceled
    case _ => false
  }

  /** The gates of one wave run at the same time; a failure, a cancel, or a monitor error stops
      the plan. */
  method RunWave(selected: seq<nat>, ends: nat -> GateOutcome, monitored: bool)
    returns (stopped: bool, error: PlanError)
    ensures stopped <==> monitored || !AllPassed(selected, ends)
    ensures stopped ==> StopsWith(selected, ends, monitored, error)
  {
    if monitored { return true, MonitorError; }
    var canceled := false;
    for k := 0 to |selected|
      invariant forall j :: 0 <= j < k ==> ends(selected[j]) != Failed
      invariant canceled <==> exists j :: 0 <= j < k && ends(selected[j]) == GateCanceled
    {
      var outcome := ends(selected[k]);
      if outcome == Failed {
        assert FirstFailed(selected, ends, k);
        return true, GateError(selected[k]);
      }
      if outcome == GateCanceled { canceled := true; }
    }
    return canceled, Canceled;
  }

  lemma RanGrows(waves: seq<Wave>, wave: Wave, i: nat)
    ensures Ran(waves + [wave], i) <==> Ran(waves, i) || i in wave.members
  {
    var more := waves + [wave];
    if Ran(waves, i) {
      var k :| 0 <= k < |waves| && i in waves[k].members;
      assert i in more[k].members;
    }
    if i in wave.members { assert i in more[|waves|].members; }
  }

  lemma RunOnceGrows(gates: seq<Gate>, initial: States, waves: seq<Wave>, wave: Wave)
    requires RunOnce(gates, initial, waves) && InRange(wave.members, |gates|)
    requires forall k :: 0 <= k < |wave.members| ==>
      gates[wave.members[k]].name !in initial && !Ran(waves, wave.members[k])
    ensures RunOnce(gates, initial, waves + [wave])
  {
    var more := waves + [wave];
    forall i | 0 <= i < |gates| && Ran(more, i) ensures gates[i].name !in initial {
      RanGrows(waves, wave, i);
    }
    forall k, l, i | 0 <= k < l < |more| && i in more[k].members ensures i !in more[l].members {
      if l == |waves| && i in wave.members {
        assert Ran(waves, i);
        assert false;
      }
    }
  }

  lemma ProgressGrows(gates: seq<Gate>, initial: States, waves: seq<Wave>, completed: set<string>, pending: seq<nat>,
                      wave: Wave)
    requires Progress(gates, initial, waves, completed, pending)
    requires wave.before == completed && InRange(wave.members, |gates|)
    ensures Progress(gates, initial, waves + [wave], completed + NamesOf(gates, wave.members),
                     Without(pending, wave.members))
  {
    var more, rest, done := waves + [wave], Without(pending, wave.members), completed + NamesOf(gates, wave.members);
    forall i | 0 <= i < |gates| ensures i in rest <==> gates[i].name !in initial && !Ran(more, i) {
      RanGrows(waves, wave, i);
    }
    forall i | 0 <= i < |gates| && i !in rest ensures gates[i].name in done {
      if i in pending {
        var k :| 0 <= k < |wave.members| && wave.members[k] == i;
      }
    }
    forall k | 0 <= k < |rest| ensures rest[k] < |gates| {
      assert rest[k] in pending;
    }
  }

  lemma WaveAtGrows(gates: seq<Gate>, maxWorkers: nat, initial: States, waves: seq<Wave>, wave: Wave, k: nat)
    requires k < |waves| ==> WaveAt(gates, maxWorkers, initial, waves, k)
    requires k == |waves| ==> WaveOk(gates, maxWorkers, Left(gates, initial, waves), wave)
    requires k <= |waves|
    ensures WaveAt(gates, maxWorkers, initial, waves + [wave], k)
  {
    assert k < |waves| ==> (waves + [wave])[..k] == waves[..k];
    assert (waves + [wave])[..|waves|] == waves;
  }

  lemma WavesOkGrows(gates: seq<Gate>, maxWorkers: nat, initial: States, waves: seq<Wave>, wave: Wave)
    requires WavesOk(gates, maxWorkers, initial, waves)
    requires WaveOk(gates, maxWorkers, Left(gates, initial, waves), wave)
    requires waves == [] ==> wave.before == InitiallySettled(gates, initial)
    requires waves != [] ==> Follows(gates, waves[|waves| - 1], wave)
    ensures WavesOk(gates, maxWorkers, initial, waves + [wave])
  {
    var more := waves + [wave];
    forall k | 0 <= k < |more| - 1 ensures Follows(gates, more[k], more[k + 1]) {
      if k + 1 < |waves| { assert Follows(gates, waves[k], waves[k + 1]); }
    }
    forall k | 0 <= k < |more| ensures WaveAt(gates, maxWorkers, initial, more, k) {
      WaveAtGrows(gates, maxWorkers, initial, waves, wave, k);
    }
  }

  /** The plan between two waves, all of which passed. */
  ghost predicate Underway(gates: seq<Gate>, maxWorkers: nat, initial: States, waves: seq<Wave>,
                           completed: set<string>, pending: seq<nat>) {
    && Progress(gates, initial, waves, completed, pending) && BUILTIN in completed
    && WavesOk(gates, maxWorkers, initial, waves) && RunOnce(gates, initial, waves)
    && forall k :: 0 <= k < |waves| ==> waves[k].passed
  }

  lemma PlanGrows(gates: seq<Gate>, maxWorkers: nat, initial: States, waves: seq<Wave>, completed: set<string>,
                  pending: seq<nat>, wave: Wave)
    requires Underway(gates, maxWorkers, initial, waves, completed, pending)
    requires WaveOk(gates, maxWorkers, AsSet(pending), wave) && wave.before == completed
    requires forall k :: 0 <= k < |wave.members| ==> wave.members[k] in pending
    ensures WavesOk(gates, maxWorkers, initial, waves + [wave]) && RunOnce(gates, initial, waves + [wave])
    ensures wave.passed ==>
      Underway(gates, maxWorkers, initial, waves + [wave], completed + NamesOf(gates, wave.members),
               Without(pending, wave.members))
  {
    assert Left(gates, initial, waves) == AsSet(pending);
    RunOnceGrows(gates, initial, waves, wave);
    WavesOkGrows(gates, maxWorkers, initial, waves, wave);
    ProgressGrows(gates, initial, waves, completed, pending, wave);
  }

  lemma EarliestIsReady(gates: seq<Gate>, maxWorkers: nat, initial: States, waves: seq<Wave>, completed: set<string>,
                        pending: seq<nat>)
    requires Accepted(gates, maxWorkers) && pending != []
    requires Underway(gates, maxWorkers, initial, waves, completed, pending)
    ensures InRange(pending, |gates|) && Increasing(pending)
    ensures DependenciesIn(gates, pending[0], completed)
  {
    forall j | 0 <= j < pending[0] ensures gates[j].name in completed {
      assert j !in pending;
    }
    DependsOnEarlier(gates, maxWorkers, pending[0]);
    forall name <- Dependencies(gates, pending[0]) ensures name in completed {
      assert NamedBefore(gates, pending[0], name);
    }
  }

  /** Whether a wave passes says nothing of how it was chosen. */
  lemma StillOk(gates: seq<Gate>, maxWorkers: nat, left: set<nat>, a: Wave, b: Wave)
    requires WaveOk(gates, maxWorkers, left, a) && b.members == a.members && b.before == a.before
    ensures WaveOk(gates, maxWorkers, left, b)
  {
    forall i | 0 <= i < |gates| && i !in b.members && gates[i].group == gates[b.members[0]].group != ""
      ensures LeftOut(gates, maxWorkers, left, b, i)
    {
      assert LeftOut(gates, maxWorkers, left, a, i);
    }
  }

  lemma NothingRunYet(gates: seq<Gate>, maxWorkers: nat, initial: States)
    ensures Underway(gates, maxWorkers, initial, [], InitiallySettled(gates, initial), Unsettled(gates, initial))
  {
  }

  lemma NothingLeft(gates: seq<Gate>, maxWorkers: nat, initial: States, waves: seq<Wave>, completed: set<string>)
    requires Underway(gates, maxWorkers, initial, waves, completed, [])
    ensures WavesOk(gates, maxWorkers, initial, waves) && RunOnce(gates, initial, waves)
    ensures forall i :: 0 <= i < |gates| ==> gates[i].name in initial || Ran(waves, i)
    ensures forall k :: 0 <= k < |waves| ==> waves[k].passed
  {
  }

  /** The gates of the next wave. */
  function Next(gates: seq<Gate>, maxWorkers: nat, ready: seq<nat>): (selected: seq<nat>)
    requires ready != [] && InRange(ready, |gates|)
    ensures InRange(selected, |gates|)
  {
    Fitting(gates, maxWorkers, Candidates(gates, ready), |Candidates(gates, ready)|)
  }

  /** The candidates start with the first ready gate, and so does the wave, which fits. */
  lemma NextStartsFirst(gates: seq<Gate>, maxWorkers: nat, ready: seq<nat>)
    requires ready != [] && InRange(ready, |gates|) && Increasing(ready) && gates[ready[0]].workers <= maxWorkers
    ensures
      var selected := Next(gates, maxWorkers, ready);
      selected != [] && selected[0] == ready[0] && Increasing(selected) && TotalWorkers(gates, selected) <= maxWorkers
  {
    var candidates := Candidates(gates, ready);
    SameGroupIsOrdered(gates, ready, gates[ready[0]].group);
    FittingIsOrdered(gates, maxWorkers, candidates, |candidates|);
    FittingFits(gates, maxWorkers, candidates, |candidates|);
    FirstFits(gates, maxWorkers, candidates, |candidates|);
  }

  lemma NextIsReady(gates: seq<Gate>, maxWorkers: nat, ready: seq<nat>, k: nat)
    requires ready != [] && InRange(ready, |gates|) && k < |Next(gates, maxWorkers, ready)|
    ensures
      var i := Next(gates, maxWorkers, ready)[k];
      i in ready && (i == ready[0] || gates[i].group == gates[ready[0]].group != "")
  {
    var candidates := Candidates(gates, ready);
    FittingIsSound(gates, maxWorkers, candidates, |candidates|, k);
    var m :| 0 <= m < |candidates| && candidates[m] == Next(gates, maxWorkers, ready)[k];
    if gates[ready[0]].group != "" { SameGroupIsSound(gates, ready, gates[ready[0]].group, m); }
  }

  lemma NextMayStart(gates: seq<Gate>, maxWorkers: nat, pending: seq<nat>, completed: set<string>, k: nat)
    requires Accepted(gates, maxWorkers) && InRange(pending, |gates|) && Increasing(pending)
    requires Ready(gates, pending, completed, |pending|) != []
    requires k < |Next(gates, maxWorkers, Ready(gates, pending, completed, |pending|))|
    ensures
      var ready := Ready(gates, pending, completed, |pending|);
      var i := Next(gates, maxWorkers, ready)[k];
      i in pending && MayStart(gates, i, ready[0], completed)
  {
    var ready := Ready(gates, pending, completed, |pending|);
    var i := Next(gates, maxWorkers, ready)[k];
    NextIsReady(gates, maxWorkers, ready, k);
    var n :| 0 <= n < |ready| && ready[n] == i;
    ReadyIsSound(gates, pending, completed, |pending|, n);
    ReadyIsOrdered(gates, pending, completed, |pending|);
    if n > 0 {
      assert ready[0] < ready[n];
      GroupIsOneStage(gates, maxWorkers, ready[0], i);
    }
  }

  lemma NextLeavesOut(gates: seq<Gate>, maxWorkers: nat, pending: seq<nat>, completed: set<string>, i: nat)
    requires InRange(pending, |gates|) && i in pending && DependenciesIn(gates, i, completed)
    requires Ready(gates, pending, completed, |pending|) != []
    requires gates[i].group == gates[Ready(gates, pending, completed, |pending|)[0]].group != ""
    ensures PassedOver(gates, maxWorkers, Next(gates, maxWorkers, Ready(gates, pending, completed, |pending|)), i)
  {
    var m :| 0 <= m < |pending| && pending[m] == i;
    ReadyIsComplete(gates, pending, completed, |pending|, m);
    var ready := Ready(gates, pending, completed, |pending|);
    var n :| 0 <= n < |ready| && ready[n] == i;
    SameGroupIsComplete(gates, ready, gates[i].group, n);
    var candidates := Candidates(gates, ready);
    var k :| 0 <= k < |candidates| && candidates[k] == i;
    FittingPassesOver(gates, maxWorkers, candidates, |candidates|, k);
  }

  lemma NextIsFull(gates: seq<Gate>, maxWorkers: nat, pending: seq<nat>, completed: set<string>)
    requires InRange(pending, |gates|) && Ready(gates, pending, completed, |pending|) != []
    requires Next(gates, maxWorkers, Ready(gates, pending, completed, |pending|)) != []
    requires Next(gates, maxWorkers, Ready(gates, pending, completed, |pending|))[0] ==
             Ready(gates, pending, completed, |pending|)[0]
    ensures
      var selected := Next(gates, maxWorkers, Ready(gates, pending, completed, |pending|));
      Full(gates, maxWorkers, AsSet(pending), Wave(selected, completed, true))
  {
    var selected := Next(gates, maxWorkers, Ready(gates, pending, completed, |pending|));
    forall i | 0 <= i < |gates| && i !in selected && gates[i].group == gates[selected[0]].group != ""
      ensures LeftOut(gates, maxWorkers, AsSet(pending), Wave(selected, completed, true), i)
    {
      if i in pending && DependenciesIn(gates, i, completed) {
        NextLeavesOut(gates, maxWorkers, pending, completed, i);
      }
    }
  }

  /** The gates of the next wave, or the internal error that stops the plan. */
  method NextWave(gates: seq<Gate>, maxWorkers: nat, deps: map<string, seq<string>>, pending: seq<nat>,
                  completed: set<string>)
    returns (ok: bool, error: PlanError, selected: seq<nat>)
    requires DependencyMap(gates, deps) && InRange(pending, |gates|) && Increasing(pending) && pending != []
    requires Accepted(gates, maxWorkers)
    requires DependenciesIn(gates, pending[0], completed)
    ensures ok && WaveOk(gates, maxWorkers, AsSet(pending), Wave(selected, completed, true))
    ensures InRange(selected, |gates|) && selected != [] && selected[0] == pending[0]
    ensures forall k :: 0 <= k < |selected| ==> selected[k] in pending
  {
    ok, error := true, NoProgress;
    var ready := ReadyGates(gates, deps, pending, completed);
    ReadyIsComplete(gates, pending, completed, |pending|, 0);
    if ready == [] { return false, NoProgress, []; }
    assert NeedsEarlier(gates, ready[0]);
    ReadyIsOrdered(gates, pending, completed, |pending|);
    NextStartsFirst(gates, maxWorkers, ready);
    selected := SelectWorkers(gates, maxWorkers, Candidates(gates, ready));
    assert selected == Next(gates, maxWorkers, ready);
    if selected == [] { return false, OverCeiling, []; }
    NextIsFull(gates, maxWorkers, pending, completed);
    forall k | 0 <= k < |selected|
      ensures selected[k] in pending && MayStart(gates, selected[k], selected[0], completed)
    {
      NextMayStart(gates, maxWorkers, pending, completed, k);
    }
  }

  /** Each wave is recorded as it went: passed exactly when its monitor saw nothing and each of
      its gates passed. */
  ghost predicate AsItWent(waves: seq<Wave>, ends: nat -> GateOutcome, monitors: nat -> bool) {
    forall k :: 0 <= k < |waves| ==> (waves[k].passed <==> !monitors(k) && AllPassed(waves[k].members, ends))
  }

  lemma PassedMeansEachPassed(waves: seq<Wave>, ends: nat -> GateOutcome, monitors: nat -> bool)
    requires AsItWent(waves, ends, monitors)
    requires forall k :: 0 <= k < |waves| ==> waves[k].passed
    ensures forall i :: Ran(waves, i) ==> ends(i) == Passed
  {
    forall i | Ran(waves, i) ensures ends(i) == Passed {
      var k :| 0 <= k < |waves| && i in waves[k].members;
      var j :| 0 <= j < |waves[k].members| && waves[k].members[j] == i;
    }
  }

  /** What one pass of the plan's loop leaves: the wave that stopped the plan, or less to run. */
  ghost predicate Stepped(gates: seq<Gate>, maxWorkers: nat, initial: States, ends: nat -> GateOutcome,
                          monitors: nat -> bool, stopped: bool, error: PlanError, waves: seq<Wave>) {
    && WavesOk(gates, maxWorkers, initial, waves) && RunOnce(gates, initial, waves) && AsItWent(waves, ends, monitors)
    && (stopped ==>
          && waves != [] && !waves[|waves| - 1].passed && error != NoProgress && error != OverCeiling
          && StopsWith(waves[|waves| - 1].members, ends, monitors(|waves| - 1), error))
  }

  lemma WaveSteps(gates: seq<Gate>, maxWorkers: nat, initial: States, ends: nat -> GateOutcome, monitors: nat -> bool,
                  waves: seq<Wave>, completed: set<string>, pending: seq<nat>, wave: Wave, error: PlanError)
    requires Underway(gates, maxWorkers, initial, waves, completed, pending) && AsItWent(waves, ends, monitors)
    requires WaveOk(gates, maxWorkers, AsSet(pending), wave) && wave.before == completed
    requires forall k :: 0 <= k < |wave.members| ==> wave.members[k] in pending
    requires wave.passed <==> !monitors(|waves|) && AllPassed(wave.members, ends)
    requires !wave.passed ==> StopsWith(wave.members, ends, monitors(|waves|), error)
    ensures Stepped(gates, maxWorkers, initial, ends, monitors, !wave.passed, error, waves + [wave])
    ensures wave.passed ==>
      Underway(gates, maxWorkers, initial, waves + [wave], completed + NamesOf(gates, wave.members),
               Without(pending, wave.members))
  {
    hide AllPassed, WavesOk, RunOnce, WaveOk, Underway;
    PlanGrows(gates, maxWorkers, initial, waves, completed, pending, wave);
    assert AsItWent(waves + [wave], ends, monitors);
  }

  /** One pass of the plan's loop: the next wave runs, and its gates are settled when it passed. */
  method RunNext(gates: seq<Gate>, maxWorkers: nat, initial: States, ends: nat -> GateOutcome, monitors: nat -> bool,
                 deps: map<string, seq<string>>, waves0: seq<Wave>, completed0: set<string>, pending0: seq<nat>)
    returns (stopped: bool, error: PlanError, waves: seq<Wave>, completed: set<string>, pending: seq<nat>)
    requires Accepted(gates, maxWorkers) && DependencyMap(gates, deps) && pending0 != []
    requires Underway(gates, maxWorkers, initial, waves0, completed0, pending0) && AsItWent(waves0, ends, monitors)
    ensures Stepped(gates, maxWorkers, initial, ends, monitors, stopped, error, waves)
    ensures !stopped ==> Underway(gates, maxWorkers, initial, waves, completed, pending) && |pending| < |pending0|
  {
    EarliestIsReady(gates, maxWorkers, initial, waves0, completed0, pending0);
    hide AsItWent, AllPassed, StopsWith, WavesOk, RunOnce, WaveOk, Underway, Stepped, Accepted;
    waves, completed, pending := waves0, completed0, pending0;
    var ok, selected;
    ok, error, selected := NextWave(gates, maxWorkers, deps, pending, completed);
    if !ok { return true, error, waves, completed, pending; }
    stopped, error := RunWave(selected, ends, monitors(|waves|));
    var wave := Wave(selected, completed, !stopped);
    StillOk(gates, maxWorkers, AsSet(pending), Wave(selected, completed, true), wave);
    WaveSteps(gates, maxWorkers, initial, ends, monitors, waves, completed, pending, wave, error);
    waves := waves + [wave];
    if !stopped {
      assert pending[0] in pending && pending[0] in selected;
      completed := completed + NamesOf(gates, selected);
      pending := Without(pending, selected);
    }
  }

  /** `run_configured_plan`. How each gate ends (a gate runs once at most), and whether the monitor
      of wave `k` saw a plan timeout or a failed pulse, are the world's. Neither internal error
      can happen. A plan that finishes has settled every gate, before the plan or by one wave,
      and every gate that ran passed; one that stops has run no wave after the one that stopped
      it, for the reason that wave had. */
  method RunConfiguredPlan(gates: seq<Gate>, maxWorkers: nat, initial: States, ends: nat -> GateOutcome,
                           monitors: nat -> bool)
    returns (r: PlanResult, waves: seq<Wave>)
    requires Accepted(gates, maxWorkers)
    ensures r != Stopped(NoProgress) && r != Stopped(OverCeiling)
    ensures WavesOk(gates, maxWorkers, initial, waves) && RunOnce(gates, initial, waves)
    ensures AsItWent(waves, ends, monitors)
    ensures r.Finished? ==> forall i :: 0 <= i < |gates| ==> gates[i].name in initial || Ran(waves, i)
    ensures r.Finished? ==> forall i :: Ran(waves, i) ==> ends(i) == Passed
    ensures r.Finished? ==> forall k :: 0 <= k < |waves| ==> waves[k].passed
    ensures r.Stopped? ==> waves != [] && !waves[|waves| - 1].passed
    ensures r.Stopped? ==> StopsWith(waves[|waves| - 1].members, ends, monitors(|waves| - 1), r.error)
  {
    hide AllPassed, StopsWith, Underway;
    waves := [];
    var deps := GateDependencies(gates);
    var completed := InitiallySettled(gates, initial);
    var pending := Unsettled(gates, initial);
    NothingRunYet(gates, maxWorkers, initial);
    while pending != []
      invariant Underway(gates, maxWorkers, initial, waves, completed, pending) && AsItWent(waves, ends, monitors)
      decreases |pending|
    {
      var stopped, error;
      stopped, error, waves, completed, pending :=
        RunNext(gates, maxWorkers, initial, ends, monitors, deps, waves, completed, pending);
      if stopped { return Stopped(error), waves; }
    }
    NothingLeft(gates, maxWorkers, initial, waves, completed);
    PassedMeansEachPassed(waves, ends, monitors);
    r := Finished;
  }
}
