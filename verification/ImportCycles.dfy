/**
  Import-cycle detection by a three-colour depth-first search
  (`scripts/check_architecture.py`, `_cycle_violations`). Modules are numbered in the
  order of their names.
 */
module ImportCycles {

  /** A module, by the place of its name in sorted order. */
  datatype Module = Module(order: nat)

  datatype Color = Gray | Black

  /** An import found in the source, and its line. */
  datatype Import = Import(source: Module, target: Module, line: nat)

  type Graph = map<Module, set<Module>>

  /** Every import stays among the modules, and none is of the module itself. */
  predicate Proper(graph: Graph) {
    forall m <- graph :: graph[m] <= graph.Keys && m !in graph[m]
  }

  predicate Edge(graph: Graph, m: Module, t: Module) { m in graph && t in graph[m] }

  // ------------------------------------------------------------------ cycles and rotations

  function After(cycle: seq<Module>, k: nat): Module
    requires k < |cycle|
  {
    if k + 1 < |cycle| then cycle[k + 1] else cycle[0]
  }

  /** A closed walk of imports. */
  predicate IsCycle(graph: Graph, cycle: seq<Module>) {
    cycle != [] && forall k :: 0 <= k < |cycle| ==> Edge(graph, cycle[k], After(cycle, k))
  }

  function Rotation(cycle: seq<Module>, i: nat): seq<Module>
    requires i <= |cycle|
  {
    cycle[i..] + cycle[..i]
  }

  lemma RotationIsCycle(graph: Graph, cycle: seq<Module>, i: nat)
    requires IsCycle(graph, cycle) && i < |cycle|
    ensures IsCycle(graph, Rotation(cycle, i))
  {
    var r := Rotation(cycle, i);
    forall k | 0 <= k < |r| ensures Edge(graph, r[k], After(r, k)) {
      var at := if k < |cycle| - i then i + k else k - (|cycle| - i);
      assert r[k] == cycle[at] && After(r, k) == After(cycle, at);
    }
  }

  /** The order of tuples. */
  predicate Less(a: seq<Module>, b: seq<Module>) {
    if b == [] then false
    else if a == [] then true
    else a[0].order < b[0].order || (a[0] == b[0] && Less(a[1..], b[1..]))
  }

  lemma {:induction false} LessIsTransitive(a: seq<Module>, b: seq<Module>, c: seq<Module>)
    requires !Less(b, a) && !Less(c, b)
    ensures !Less(c, a)
  {
    if a != [] && b != [] && c != [] && a[0] == b[0] == c[0] { LessIsTransitive(a[1..], b[1..], c[1..]); }
  }

  lemma {:induction false} LessIsIrreflexive(a: seq<Module>)
    ensures !Less(a, a)
  {
    if a != [] { LessIsIrreflexive(a[1..]); }
  }

  lemma {:induction false} LessIsAsymmetric(a: seq<Module>, b: seq<Module>)
    requires Less(a, b)
    ensures !Less(b, a)
  {
    if a != [] && b != [] && a[0] == b[0] { LessIsAsymmetric(a[1..], b[1..]); }
  }

  ghost predicate LeastRotationOf(r: seq<Module>, cycle: seq<Module>) {
    && (exists i: nat :: i < |cycle| && r == Rotation(cycle, i))
    && forall i: nat :: i < |cycle| ==> !Less(Rotation(cycle, i), r)
  }

  /** `min(rotations)`. */
  method LeastRotation(cycle: seq<Module>) returns (r: seq<Module>)
    requires cycle != []
    ensures LeastRotationOf(r, cycle)
  {
    r := Rotation(cycle, 0);
    LessIsIrreflexive(r);
    for i := 1 to |cycle|
      invariant exists j: nat :: j < i && r == Rotation(cycle, j)
      invariant forall j: nat :: j < i ==> !Less(Rotation(cycle, j), r)
    {
      ghost var before := r;
      if Less(Rotation(cycle, i), r) { r := Rotation(cycle, i); }
      forall j: nat | j < i + 1 ensures !Less(Rotation(cycle, j), r) {
        LessIsIrreflexive(r);
        if r != before && j < i {
          LessIsAsymmetric(r, before);
          LessIsTransitive(r, before, Rotation(cycle, j));
        }
      }
    }
  }

  // ------------------------------------------------------------------ the search

  predicate Distinct(cycle: seq<Module>) { forall i, j :: 0 <= i < j < |cycle| ==> cycle[i] != cycle[j] }

  /** What is reported: a cycle of distinct modules in its least rotation. */
  ghost predicate Reported(graph: Graph, cycle: seq<Module>) {
    && IsCycle(graph, cycle) && |cycle| >= 2
    && Distinct(cycle)
    && forall i: nat :: i < |cycle| ==> !Less(Rotation(cycle, i), cycle)
  }

  predicate IsLeast(modules: set<Module>, m: Module) {
    m in modules && forall other <- modules :: m.order <= other.order
  }

  /** The next of a sorted iteration. */
  function Least(modules: set<Module>): (m: Module)
    requires modules != {}
    ensures IsLeast(modules, m)
  {
    LeastExists(modules);
    var m :| IsLeast(modules, m); m
  }

  lemma {:induction false} LeastExists(modules: set<Module>)
    requires modules != {}
    ensures exists m :: IsLeast(modules, m)
    decreases |modules|
  {
    var m: Module :| m in modules;
    var rest := modules - {m};
    if rest == {} {
      assert modules == {m};
      assert IsLeast(modules, m);
    } else {
      LeastExists(rest);
      var l :| IsLeast(rest, l);
      forall other <- modules ensures (if m.order < l.order then m else l).order <= other.order {
        if other != m { assert other in rest; }
      }
      assert IsLeast(modules, if m.order < l.order then m else l);
    }
  }

  type Colors = map<Module, Color>

  /** A place on the stack: a gray module, on it once, that imports the next one. */
  ghost predicate Place(graph: Graph, state: Colors, stack: seq<Module>, k: nat)
    requires k < |stack|
  {
    && stack[k] in state && state[stack[k]] == Gray && OnceFrom(stack, k)
    && (k + 1 < |stack| ==> Edge(graph, stack[k], stack[k + 1]))
  }

  predicate OnceFrom(stack: seq<Module>, k: nat)
    requires k < |stack|
  {
    stack[k] !in stack[k + 1..]
  }

  predicate OnStack(stack: seq<Module>, m: Module) { m in stack }

  /** The stack is a path of exactly the gray modules. */
  ghost predicate StackOk(graph: Graph, state: Colors, stack: seq<Module>) {
    && state.Keys <= graph.Keys
    && (forall k :: 0 <= k < |stack| ==> Place(graph, state, stack, k))
    && forall m <- state :: state[m] == Gray ==> OnStack(stack, m)
  }

  /** The cycle goes from one module to the other. */
  predicate Takes(cycle: seq<Module>, m: Module, t: Module) {
    exists k :: 0 <= k < |cycle| && cycle[k] == m && After(cycle, k) == t
  }

  /** Some reported cycle takes this import. */
  ghost predicate Told(cycles: set<seq<Module>>, m: Module, t: Module) {
    exists cycle <- cycles :: Takes(cycle, m, t)
  }

  /** What the module imports was finished before it, or the import is on a reported cycle. */
  ghost predicate Finished(graph: Graph, cycles: set<seq<Module>>, rank: map<Module, nat>, m: Module)
    requires m in graph && m in rank
  {
    forall t <- graph[m] :: Told(cycles, m, t) || (t in rank && rank[t] < rank[m])
  }

  /** The finished modules are ranked and, but for the imports of reported cycles, import only
      ones finished before. */
  ghost predicate RankOk(graph: Graph, state: Colors, cycles: set<seq<Module>>, rank: map<Module, nat>, clock: nat) {
    && (forall m :: m in rank <==> m in state && state[m] == Black)
    && (forall m <- rank :: m in graph && rank[m] < clock)
    && forall m <- rank :: Finished(graph, cycles, rank, m)
  }

  lemma ToldStays(cycles: set<seq<Module>>, more: set<seq<Module>>, m: Module, t: Module)
    requires cycles <= more && Told(cycles, m, t)
    ensures Told(more, m, t)
  {
  }

  lemma RankStaysOk(graph: Graph, state: Colors, cycles: set<seq<Module>>, more: set<seq<Module>>,
                    rank: map<Module, nat>, clock: nat)
    requires RankOk(graph, state, cycles, rank, clock) && cycles <= more
    ensures RankOk(graph, state, more, rank, clock)
  {
    forall m <- rank ensures Finished(graph, more, rank, m) {
      assert Finished(graph, cycles, rank, m);
      forall t <- graph[m] | Told(cycles, m, t) ensures Told(more, m, t) { ToldStays(cycles, more, m, t); }
    }
  }

  ghost predicate AllReported(graph: Graph,
                              cycles: set<seq<Module>>) { forall cycle <- cycles :: Reported(graph, cycle) }

  lemma Push(graph: Graph, state: Colors, stack: seq<Module>, m: Module)
    requires StackOk(graph, state, stack) && m in graph && m !in state
    requires stack != [] ==> Edge(graph, stack[|stack| - 1], m)
    ensures StackOk(graph, state[m := Gray], stack + [m])
  {
    var more, colors := stack + [m], state[m := Gray];
    forall k | 0 <= k < |more| ensures Place(graph, colors, more, k) {
      if k < |stack| {
        assert Place(graph, state, stack, k);
        assert more[k + 1..] == stack[k + 1..] + [m];
      }
    }
  }

  lemma Start(graph: Graph, state: Colors, cycles: set<seq<Module>>, rank: map<Module, nat>, clock: nat, m: Module)
    requires RankOk(graph, state, cycles, rank, clock) && m !in state
    ensures RankOk(graph, state[m := Gray], cycles, rank, clock)
  {
  }

  lemma Pop(graph: Graph, state: Colors, stack: seq<Module>, m: Module)
    requires StackOk(graph, state, stack + [m])
    ensures m in state && state[m] == Gray && StackOk(graph, state[m := Black], stack)
  {
    var more, colors := stack + [m], state[m := Black];
    assert Place(graph, state, more, |stack|);
    forall k | 0 <= k < |stack| ensures Place(graph, colors, stack, k) {
      assert Place(graph, state, more, k);
      assert more[k + 1..] == stack[k + 1..] + [m];
    }
    forall x <- state | x != m && state[x] == Gray ensures OnStack(stack, x) {
      assert OnStack(more, x);
    }
  }

  lemma Finish(graph: Graph, state: Colors, cycles: set<seq<Module>>, rank: map<Module, nat>, clock: nat, m: Module)
    requires RankOk(graph, state, cycles, rank, clock) && m in graph && m !in rank
    requires forall t <- graph[m] :: t in rank || Told(cycles, m, t)
    ensures RankOk(graph, state[m := Black], cycles, rank[m := clock], clock + 1)
  {
    var more := rank[m := clock];
    forall x <- more ensures Finished(graph, cycles, more, x) {
      if x != m { assert Finished(graph, cycles, rank, x); }
    }
  }

  /** From a gray module on, the stack is a cycle once its last module imports it. */
  lemma StackCloses(graph: Graph, state: Colors, stack: seq<Module>, at: nat)
    requires StackOk(graph, state, stack) && at < |stack| && Edge(graph, stack[|stack| - 1], stack[at])
    ensures IsCycle(graph, stack[at..])
    ensures Distinct(stack[at..])
  {
    var cycle := stack[at..];
    forall k | 0 <= k < |cycle| ensures Edge(graph, cycle[k], After(cycle, k)) {
      assert Place(graph, state, stack, at + k);
    }
    forall i, j | 0 <= i < j < |cycle| ensures cycle[i] != cycle[j] {
      assert Place(graph, state, stack, at + i);
      assert cycle[j] == stack[at + i + 1..][j - i - 1];
    }
  }

  lemma RotationOfRotation(cycle: seq<Module>, i: nat, k: nat)
    requires i < |cycle| && k < |cycle|
    ensures Rotation(Rotation(cycle, i), k) == Rotation(cycle, if i + k < |cycle| then i + k else i + k - |cycle|)
  {
  }

  lemma LeastIsReported(graph: Graph, cycle: seq<Module>, least: seq<Module>)
    requires Proper(graph) && IsCycle(graph, cycle) && LeastRotationOf(least, cycle)
    requires Distinct(cycle)
    ensures Reported(graph, least)
  {
    var i: nat :| i < |cycle| && least == Rotation(cycle, i);
    RotationIsCycle(graph, cycle, i);
    assert Edge(graph, cycle[0], After(cycle, 0));
    RotationIsDistinct(cycle, i);
    forall k: nat | k < |least| ensures !Less(Rotation(least, k), least) {
      RotationOfRotation(cycle, i, k);
    }
  }

  /** A rotation goes where the cycle goes. */
  lemma RotationTakes(cycle: seq<Module>, i: nat, k: nat)
    requires i < |cycle| && k < |cycle|
    ensures Takes(Rotation(cycle, i), cycle[k], After(cycle, k))
  {
    var r, at := Rotation(cycle, i), if k < i then k + (|cycle| - i) else k - i;
    assert r[at] == cycle[k] && After(r, at) == After(cycle, k);
  }

  lemma RotationIsDistinct(cycle: seq<Module>, i: nat)
    requires i < |cycle| && Distinct(cycle)
    ensures Distinct(Rotation(cycle, i))
  {
  }

  /** What is reported for an import of a gray module is a cycle that takes this import. */
  lemma LeastTakesTheClosingImport(graph: Graph, state: Colors, stack: seq<Module>, at: nat, least: seq<Module>)
    requires Proper(graph) && StackOk(graph, state, stack)
    requires at < |stack| && Edge(graph, stack[|stack| - 1], stack[at]) && LeastRotationOf(least, stack[at..])
    ensures Reported(graph, least) && Takes(least, stack[|stack| - 1], stack[at])
  {
    var cycle := stack[at..];
    StackCloses(graph, state, stack, at);
    LeastIsReported(graph, cycle, least);
    var i: nat :| i < |cycle| && least == Rotation(cycle, i);
    RotationTakes(cycle, i, |cycle| - 1);
  }

  class Search {
    const graph: Graph
    var state: Colors
    var stack: seq<Module>
    var cycles: set<seq<Module>>
    /** When a module was finished, and how many were. */
    ghost var rank: map<Module, nat>
    ghost var clock: nat
    /** The modules not entered yet. */
    ghost var white: set<Module>

    constructor (graph: Graph)
      requires Proper(graph)
      ensures this.graph == graph && state == map[] && stack == [] && cycles == {} && Valid()
    {
      this.graph := graph;
      state, stack, cycles, rank, clock, white := map[], [], {}, map[], 0, graph.Keys;
    }

    ghost predicate Valid()
      reads this
    {
      && Proper(graph) && StackOk(graph, state, stack) && RankOk(graph, state, cycles, rank, clock)
      && AllReported(graph, cycles) && white == graph.Keys - state.Keys
    }

    /** A gray module is imported again: the stack from it on is a cycle. */
    method Report(target: Module)
      requires Valid() && stack != [] && OnStack(stack, target) && Edge(graph, stack[|stack| - 1], target)
      modifies `cycles
      ensures Valid() && old(cycles) <= cycles && Told(cycles, stack[|stack| - 1], target)
    {
      var at := 0;
      while stack[at] != target
        invariant at < |stack| && target in stack[at..]
        decreases |stack| - at
      {
        at := at + 1;
      }
      var least := LeastRotation(stack[at..]);
      LeastTakesTheClosingImport(graph, state, stack, at, least);
      hide StackOk, RankOk, Reported, Takes, LeastRotationOf;
      RankStaysOk(graph, state, cycles, cycles + {least}, rank, clock);
      cycles := cycles + {least};
      assert least in cycles;
    }

    /** What a visit keeps: it only finishes modules and reports cycles. */
    twostate predicate Onward()
      reads this
    {
      && stack == old(stack) && old(cycles) <= cycles
      && old(rank).Keys <= rank.Keys && white <= old(white)
    }

    method Enter(root: Module)
      requires Valid() && root in graph && root !in state
      requires stack != [] ==> Edge(graph, stack[|stack| - 1], root)
      modifies `state, `stack, `white
      ensures Valid() && stack == old(stack) + [root] && white < old(white)
    {
      Push(graph, state, stack, root);
      Start(graph, state, cycles, rank, clock, root);
      state := state[root := Gray];
      stack := stack + [root];
      white := white - {root};
    }

    method Leave(root: Module, ghost under: seq<Module>)
      requires Valid() && stack == under + [root] && root in graph
      requires forall t <- graph[root] :: t in rank || Told(cycles, root, t)
      modifies `state, `stack, `rank, `clock
      ensures Valid() && stack == under && root in rank && old(rank).Keys <= rank.Keys && white == old(white)
    {
      Pop(graph, state, under, root);
      Finish(graph, state, cycles, rank, clock, root);
      stack := stack[..|stack| - 1];
      state := state[root := Black];
      rank, clock := rank[root := clock], clock + 1;
      assert state.Keys == old(state).Keys;
    }

    /** `visit`: finishes the module and everything it reaches. */
    method Visit(root: Module)
      requires Valid() && root in graph && root !in state
      requires stack != [] ==> Edge(graph, stack[|stack| - 1], root)
      modifies `state, `stack, `cycles, `rank, `clock, `white
      ensures Valid() && Onward() && root in rank
      decreases white, 0
    {
      Enter(root);
      VisitTargets(root);
      Leave(root, old(stack));
    }

    /** The imports of the module on top of the stack, in order. */
    method VisitTargets(root: Module)
      requires Valid() && stack != [] && stack[|stack| - 1] == root && root in graph
      modifies `state, `stack, `cycles, `rank, `clock, `white
      ensures Valid() && Onward()
      ensures forall t <- graph[root] :: t in rank || Told(cycles, root, t)
      decreases white, 2
    {
      var rest := graph[root];
      while rest != {}
        invariant rest <= graph[root]
        invariant Valid() && Onward()
        invariant forall t <- graph[root] - rest :: t in rank || Told(cycles, root, t)
        decreases rest
      {
        var target := Least(rest);
        ghost var before, done := cycles, graph[root] - rest;
        rest := rest - {target};
        VisitTarget(root, target);
        forall t <- done | Told(before, root, t) ensures Told(cycles, root, t) { ToldStays(before, cycles, root, t); }
      }
    }

    /** One import of the module on top of the stack. */
    method VisitTarget(root: Module, target: Module)
      requires Valid() && stack != [] && stack[|stack| - 1] == root && Edge(graph, root, target)
      modifies `state, `stack, `cycles, `rank, `clock, `white
      ensures Valid() && Onward()
      ensures target in rank || Told(cycles, root, target)
      decreases white, 1
    {
      if target !in state {
        Visit(target);
      } else if state[target] == Gray {
        Report(target);
      }
    }
  }

  // ------------------------------------------------------------------ soundness and completeness

  ghost predicate AllFinished(graph: Graph, cycles: set<seq<Module>>, rank: map<Module, nat>) {
    forall m <- graph :: m in rank && Finished(graph, cycles, rank, m)
  }

  /** Some import of this cycle is on a reported one. */
  ghost predicate Broken(cycles: set<seq<Module>>, cycle: seq<Module>) {
    exists k :: 0 <= k < |cycle| && Told(cycles, cycle[k], After(cycle, k))
  }

  lemma EdgeFalls(graph: Graph, cycles: set<seq<Module>>, rank: map<Module, nat>, cycle: seq<Module>, k: nat)
    requires AllFinished(graph, cycles, rank)
    requires IsCycle(graph, cycle) && !Broken(cycles, cycle) && k < |cycle|
    ensures cycle[k] in rank && After(cycle, k) in rank && rank[After(cycle, k)] < rank[cycle[k]]
  {
    hide Told;
    assert Edge(graph, cycle[k], After(cycle, k));
    assert Finished(graph, cycles, rank, cycle[k]);
  }

  lemma {:induction false} RankFalls(graph: Graph, cycles: set<seq<Module>>, rank: map<Module, nat>, cycle: seq<Module>,
                                     k: nat)
    requires AllFinished(graph, cycles, rank)
    requires IsCycle(graph, cycle) && !Broken(cycles, cycle) && k < |cycle|
    ensures cycle[0] in rank && cycle[k] in rank && rank[cycle[k]] + k <= rank[cycle[0]]
  {
    hide AllFinished, IsCycle, Broken;
    if k == 0 {
      EdgeFalls(graph, cycles, rank, cycle, 0);
    } else {
      RankFalls(graph, cycles, rank, cycle, k - 1);
      EdgeFalls(graph, cycles, rank, cycle, k - 1);
    }
  }

  /** If every module was finished after everything it imports, but for the imports of reported
      cycles, every cycle has such an import. */
  lemma RankedIsAcyclic(graph: Graph, cycles: set<seq<Module>>, rank: map<Module, nat>, cycle: seq<Module>)
    requires AllFinished(graph, cycles, rank)
    ensures IsCycle(graph, cycle) ==> Broken(cycles, cycle)
  {
    if IsCycle(graph, cycle) && !Broken(cycles, cycle) {
      assert |cycle| > 0;
      hide AllFinished, IsCycle, Broken;
      EdgeFalls(graph, cycles, rank, cycle, |cycle| - 1);
      RankFalls(graph, cycles, rank, cycle, |cycle| - 1);
    }
  }

  /** The cycles of a graph: something is reported exactly when the graph has a cycle, everything
      reported is one, each in its least rotation, and without the imports of the reported cycles
      no cycle is left. */
  method FindCycles(graph: Graph) returns (cycles: set<seq<Module>>)
    requires Proper(graph)
    ensures cycles != {} <==> exists cycle :: IsCycle(graph, cycle)
    ensures forall cycle <- cycles :: Reported(graph, cycle)
    ensures forall cycle :: IsCycle(graph, cycle) ==> Broken(cycles, cycle)
  {
    var search := new Search(graph);
    var rest := graph.Keys;
    while rest != {}
      invariant rest <= graph.Keys && search.Valid() && search.stack == [] && search.graph == graph
      invariant graph.Keys - rest <= search.rank.Keys
      decreases rest
    {
      var m := Least(rest);
      rest := rest - {m};
      if m !in search.state { search.Visit(m); }
    }
    cycles := search.cycles;
    forall cycle ensures IsCycle(graph, cycle) ==> Broken(cycles, cycle) {
      RankedIsAcyclic(graph, cycles, search.rank, cycle);
    }
    if cycles == {} {
      assert forall cycle :: IsCycle(graph, cycle) ==> Broken(cycles, cycle);
    } else {
      var cycle :| cycle in cycles;
      assert Reported(graph, cycle);
    }
  }

  // ------------------------------------------------------------------ from imports to violations

  datatype Violation = Violation(cycle: seq<Module>, line: nat)

  /** The violation's line is of an import from the cycle's last module to its first. */
  predicate ClosedBy(imports: seq<Import>, v: Violation) {
    v.cycle != [] && exists i :: 0 <= i < |imports| && imports[i] == Import(v.cycle[|v.cycle| - 1], v.cycle[0], v.line)
  }

  /** The violations, or the exception for an import from a module that is not among the files. */
  datatype Outcome = Checked(violations: set<Violation>) | UnknownModule(importer: Module)

  /** `_cycle_violations`: the graph is built of the imports between two different modules,
      and each reported cycle gets the line of the import that closes it. The first such import
      from a module that is not among the files is an exception. */
  method CycleViolations(imports: seq<Import>, modules: set<Module>) returns (r: Outcome)
    ensures r.Checked? <==> AllKnown(imports, modules)
    ensures r.Checked? ==>
      && (r.violations != {} <==> exists cycle :: IsCycle(GraphOf(imports, modules), cycle))
      && (forall v <- r.violations :: Reported(GraphOf(imports, modules), v.cycle))
      && (forall v <- r.violations :: ClosedBy(imports, v))
      && forall cycle :: IsCycle(GraphOf(imports, modules), cycle) ==> Broken(CyclesOf(r.violations), cycle)
    ensures r.UnknownModule? ==>
      exists i :: 0 <= i < |imports| && FirstUnknown(imports, modules, i) && r.importer == imports[i].source
  {
    var unknown, graph, lines := BuildGraph(imports, modules);
    if unknown < |imports| { return UnknownModule(imports[unknown].source); }
    var violations := Violations(imports, modules, graph, lines);
    r := Checked(violations);
  }

  function CyclesOf(violations: set<Violation>): set<seq<Module>> { set v <- violations :: v.cycle }

  method Violations(imports: seq<Import>, modules: set<Module>, graph: Graph, lines: map<(Module, Module), nat>)
    returns (violations: set<Violation>)
    requires AllKnown(imports, modules) && graph == GraphOf(imports, modules) && LinesOk(imports, graph, lines)
    ensures violations != {} <==> exists cycle :: IsCycle(graph, cycle)
    ensures forall v <- violations :: Reported(graph, v.cycle)
    ensures forall v <- violations :: ClosedBy(imports, v)
    ensures forall cycle :: IsCycle(graph, cycle) ==> Broken(CyclesOf(violations), cycle)
  {
    hide IsCycle, Reported, Broken, LinesOk, ClosedBy;
    GraphIsProper(imports, modules);
    var cycles := FindCycles(graph);
    violations := WithLines(imports, graph, lines, cycles);
    assert violations == {} <==> CyclesOf(violations) == {} by {
      if v :| v in violations { assert v.cycle in CyclesOf(violations); }
    }
    assert forall v <- violations :: v.cycle in CyclesOf(violations);
  }

  method WithLines(imports: seq<Import>, graph: Graph, lines: map<(Module, Module), nat>, cycles: set<seq<Module>>)
    returns (violations: set<Violation>)
    requires LinesOk(imports, graph, lines) && AllReported(graph, cycles)
    ensures CyclesOf(violations) == cycles
    ensures forall v <- violations :: ClosedBy(imports, v)
  {
    hide Reported, LinesOk, ClosedBy;
    violations := {};
    var rest := cycles;
    while rest != {}
      invariant rest <= cycles && CyclesOf(violations) == cycles - rest
      invariant forall v <- violations :: ClosedBy(imports, v)
      decreases rest
    {
      var cycle :| cycle in rest;
      rest := rest - {cycle};
      ClosingImport(imports, graph, lines, cycle);
      var violation := Violation(cycle, lines[(cycle[|cycle| - 1], cycle[0])]);
      CyclesOfMore(violations, violation);
      violations := violations + {violation};
    }
  }

  lemma CyclesOfMore(violations: set<Violation>, v: Violation)
    ensures CyclesOf(violations + {v}) == CyclesOf(violations) + {v.cycle}
  {
    assert forall w <- violations :: w in violations + {v};
    assert v in violations + {v};
  }

  /** Every edge has the line of an import that made it, the first one. */
  ghost predicate LinesOk(imports: seq<Import>, graph: Graph, lines: map<(Module, Module), nat>) {
    && (forall m, t :: Edge(graph, m, t) ==> (m, t) in lines)
    && forall pair <- lines :: exists i :: 0 <= i < |imports| && imports[i] == Import(pair.0, pair.1, lines[pair])
  }

  lemma ClosingImport(imports: seq<Import>, graph: Graph, lines: map<(Module, Module), nat>, cycle: seq<Module>)
    requires LinesOk(imports, graph, lines) && Reported(graph, cycle)
    ensures cycle != [] && (cycle[|cycle| - 1], cycle[0]) in lines
    ensures ClosedBy(imports, Violation(cycle, lines[(cycle[|cycle| - 1], cycle[0])]))
  {
    assert Edge(graph, cycle[|cycle| - 1], After(cycle, |cycle| - 1));
  }

  /** Build the graph, up to the first import from an unknown module. */
  method BuildGraph(imports: seq<Import>, modules: set<Module>)
    returns (end: nat, graph: Graph, lines: map<(Module, Module), nat>)
    ensures end < |imports| ==> FirstUnknown(imports, modules, end)
    ensures end >= |imports| ==>
      AllKnown(imports, modules) && graph == GraphOf(imports, modules) && LinesOk(imports, graph, lines)
  {
    graph, lines := map m <- modules :: {}, map[];
    for i := 0 to |imports|
      invariant AllKnown(imports[..i], modules)
      invariant graph == GraphOf(imports[..i], modules) && LinesOk(imports, graph, lines)
    {
      var edge := imports[i];
      assert imports[..i + 1][..i] == imports[..i] && imports[..i + 1][i] == edge;
      if Counts(edge, modules) {
        if edge.source !in modules { return i, graph, lines; }
        graph := graph[edge.source := graph[edge.source] + {edge.target}];
        if (edge.source, edge.target) !in lines {
          lines := lines[(edge.source, edge.target) := edge.line];
        }
      }
      assert AllKnown(imports[..i + 1], modules);
    }
    assert imports[..|imports|] == imports;
    end := |imports|;
  }

  /** An import of one of the files by another module. */
  predicate Counts(edge: Import, modules: set<Module>) { edge.target in modules && edge.target != edge.source }

  predicate IsKnown(edge: Import, modules: set<Module>) { Counts(edge, modules) ==> edge.source in modules }

  predicate AllKnown(imports: seq<Import>, modules: set<Module>) {
    forall i | 0 <= i < |imports| :: IsKnown(imports[i], modules)
  }

  predicate FirstUnknown(imports: seq<Import>, modules: set<Module>, i: nat)
    requires i < |imports|
  {
    !IsKnown(imports[i], modules) && AllKnown(imports[..i], modules)
  }

  function GraphOf(imports: seq<Import>, modules: set<Module>): (graph: Graph)
    requires AllKnown(imports, modules)
    ensures graph.Keys == modules
  {
    if imports == [] then map m <- modules :: {}
    else
      var before, edge := GraphOf(imports[..|imports| - 1], modules), imports[|imports| - 1];
      assert IsKnown(edge, modules);
      if Counts(edge, modules) then before[edge.source := before[edge.source] + {edge.target}] else before
  }

  /** A module imports another exactly when some import says so. */
  lemma {:induction false} GraphHasExactlyTheImports(imports: seq<Import>, modules: set<Module>, m: Module, t: Module)
    requires AllKnown(imports, modules)
    ensures Edge(GraphOf(imports, modules), m, t) <==>
            m in modules && t in modules && m != t
            && exists i :: 0 <= i < |imports| && imports[i].source == m && imports[i].target == t
  {
    if imports != [] {
      var n := |imports| - 1;
      GraphHasExactlyTheImports(imports[..n], modules, m, t);
      assert forall i :: 0 <= i < n ==> imports[..n][i] == imports[i];
    }
  }

  lemma {:induction false} GraphIsProper(imports: seq<Import>, modules: set<Module>)
    requires AllKnown(imports, modules)
    ensures Proper(GraphOf(imports, modules))
  {
    if imports != [] { GraphIsProper(imports[..|imports| - 1], modules); }
  }
}
