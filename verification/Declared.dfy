/** What layers and locks are, stated of what the tools declare and of the
    resource templates alone. */
module Declared {
  import opened Wrappers
  import opened Plans
  import opened Locks
  import opened Semantics
  import opened Scheduling
  import opened Layers
  import opened Graphs
  import opened Batching
  import Strings

  /** The node's tool declares that it is pure, or what it reads or writes. */
  ghost predicate Declares(plan: Plan, node: Node) {
    exists e :: node.tool in plan.tools && plan.tools[node.tool].effects == Some(e)
      && (e.pure || e.readSet != {} || e.writeSet != {})
  }

  ghost predicate ReadsResource(plan: Plan, templates: Templates, node: Node, r: Resource) {
    exists e, t :: node.tool in plan.tools && plan.tools[node.tool].effects == Some(e)
      && t in e.readSet && templates(t, node.input) == r
  }

  ghost predicate WritesResource(plan: Plan, templates: Templates, node: Node, r: Resource) {
    exists e, t :: node.tool in plan.tools && plan.tools[node.tool].effects == Some(e)
      && t in e.writeSet && templates(t, node.input) == r
  }

  ghost predicate Commutes(plan: Plan, tool: ToolName) {
    exists e :: tool in plan.tools && plan.tools[tool].effects == Some(e) && e.commutative
  }

  /** Neither writes what the other reads, and both write one resource only as
      calls of the same commutative tool. */
  ghost predicate MayRunTogether(plan: Plan, templates: Templates, x: Node, y: Node) {
    && Declares(plan, x) && Declares(plan, y)
    && (forall r :: !(WritesResource(plan, templates, x, r) && ReadsResource(plan, templates, y, r)))
    && (forall r :: !(WritesResource(plan, templates, y, r) && ReadsResource(plan, templates, x, r)))
    && ((forall r :: !(WritesResource(plan, templates, x, r) && WritesResource(plan, templates, y, r)))
        || (x.tool == y.tool && Commutes(plan, x.tool)))
  }

  function ResolvedFor(plan: Plan, templates: Templates, node: Node): ResolvedEffects {
    EffectsFor(node, EffectsOf(plan, node.tool), templates)
  }

  lemma ResolvedAre(plan: Plan, templates: Templates, node: Node)
    ensures var e := ResolvedFor(plan, templates, node);
      && e.tool == node.tool && (e.declared <==> Declares(plan, node)) && (e.commutative <==> Commutes(plan, node.tool))
      && (forall r :: r in e.readSet <==> ReadsResource(plan, templates, node, r))
      && (forall r :: r in e.writeSet <==> WritesResource(plan, templates, node, r))
  {
    ResolvedReads(plan, templates, node);
    ResolvedWrites(plan, templates, node);
  }

  lemma ResolvedReads(plan: Plan, templates: Templates, node: Node)
    ensures forall r :: r in ResolvedFor(plan, templates, node).readSet <==> ReadsResource(plan, templates, node, r)
  {
    forall r | r in ResolvedFor(plan, templates, node).readSet
      ensures ReadsResource(plan, templates, node, r)
    {
      var e := plan.tools[node.tool].effects.value;
      var t :| t in e.readSet && templates(t, node.input) == r;
      assert plan.tools[node.tool].effects == Some(e);
    }
  }

  lemma ResolvedWrites(plan: Plan, templates: Templates, node: Node)
    ensures forall r :: r in ResolvedFor(plan, templates, node).writeSet <==> WritesResource(plan, templates, node, r)
  {
    forall r | r in ResolvedFor(plan, templates, node).writeSet
      ensures WritesResource(plan, templates, node, r)
    {
      var e := plan.tools[node.tool].effects.value;
      var t :| t in e.writeSet && templates(t, node.input) == r;
      assert plan.tools[node.tool].effects == Some(e);
    }
  }

  lemma PureWritesNothing(plan: Plan, templates: Templates, node: Node)
    requires CoherentTools(plan)
    ensures ResolvedFor(plan, templates, node).pure ==> ResolvedFor(plan, templates, node).writeSet == {}
  {
  }

  /** Validation refuses exactly the tools that call themselves pure and write. */
  lemma CoherentMeans(plan: Plan)
    ensures CoherentTools(plan) <==>
      forall tool | tool in plan.tools && plan.tools[tool].effects.Some? && plan.tools[tool].effects.value.pure ::
        plan.tools[tool].effects.value.writeSet == {}
  {
  }

  /** The test layering makes is that one. */
  lemma RunTogetherIs(plan: Plan, templates: Templates, x: Node, y: Node)
    requires CoherentTools(plan)
    ensures ResolvedFor(plan, templates, x).CanRunWith(ResolvedFor(plan, templates, y)) <==>
      MayRunTogether(plan, templates, x, y)
  {
    ResolvedAre(plan, templates, x);
    ResolvedAre(plan, templates, y);
    PureWritesNothing(plan, templates, x);
    PureWritesNothing(plan, templates, y);
    hide ResolvedFor, Declares, ReadsResource, WritesResource, Commutes, CoherentTools;
    var a, b := ResolvedFor(plan, templates, x), ResolvedFor(plan, templates, y);
    DisjointMeans(a.writeSet, b.readSet);
    DisjointMeans(b.writeSet, a.readSet);
    DisjointMeans(a.writeSet, b.writeSet);
  }

  lemma DisjointMeans(a: set<Resource>, b: set<Resource>)
    ensures a !! b <==> forall r :: !(r in a && r in b)
  {
  }

  // -------------------------------------------------------------- layers

  /** Two nodes of one layer may run together. */
  lemma LayerMatesMayRunTogether(plan: Plan, templates: Templates, graph: Graph, k: nat, x: Node, y: Node)
    requires WellFormedPlan(plan) && GraphOf(plan, templates, graph) && k < |graph.layers|
    requires x in plan.nodes && y in plan.nodes && x.id != y.id && x.id in graph.layers[k] && y.id in graph.layers[k]
    ensures MayRunTogether(plan, templates, x, y)
  {
    NodeEffects(plan, templates, graph, x);
    NodeEffects(plan, templates, graph, y);
    assert LayerOk(graph.dependencies, graph.effects, Emitted(graph.layers[..k]), graph.layers[k]);
    hide WellFormedPlan, GraphOf, ResolvedFor, MayRunTogether;
    PlanTools(plan);
    RunTogetherIs(plan, templates, x, y);
    RunTogetherIs(plan, templates, y, x);
    MayRunSymmetric(plan, templates, x, y);
    var i :| 0 <= i < |graph.layers[k]| && graph.layers[k][i] == x.id;
    var j :| 0 <= j < |graph.layers[k]| && graph.layers[k][j] == y.id;
  }

  lemma MayRunSymmetric(plan: Plan, templates: Templates, x: Node, y: Node)
    ensures MayRunTogether(plan, templates, x, y) <==> MayRunTogether(plan, templates, y, x)
  {
    hide Declares, ReadsResource, WritesResource, Commutes;
  }

  lemma PlanTools(plan: Plan)
    requires WellFormedPlan(plan)
    ensures CoherentTools(plan) && DistinctIds(plan.nodes)
  {
  }

  lemma NodeEffects(plan: Plan, templates: Templates, graph: Graph, node: Node)
    requires WellFormedPlan(plan) && GraphOf(plan, templates, graph) && node in plan.nodes
    ensures node.id in graph.effects && graph.effects[node.id] == ResolvedFor(plan, templates, node)
  {
    hide Layering, EffectsFor, ValidNode;
    NodeOfMember(plan.nodes, node);
  }

  lemma LayerAt(plan: Plan, templates: Templates, graph: Graph, k: nat)
    requires GraphOf(plan, templates, graph) && k < |graph.layers|
    ensures graph.dependencies.Keys <= graph.effects.Keys
    ensures LayerOk(graph.dependencies, graph.effects, Emitted(graph.layers[..k]), graph.layers[k])
  {
    hide EffectsOfNodes, DependenciesOf, LayerOk, Emitted;
    GraphKeys(plan, templates, graph);
  }

  lemma LayerIds(plan: Plan, templates: Templates, graph: Graph, k: nat)
    requires GraphOf(plan, templates, graph) && k < |graph.layers|
    ensures Strings.Increasing(graph.layers[k]) && forall n | n in graph.layers[k] :: n in Ids(plan.nodes)
  {
    LayerAt(plan, templates, graph, k);
    GraphKeys(plan, templates, graph);
    hide GraphOf, Strings.Increasing, Ids;
  }

  lemma OneElement(layer: seq<NodeId>, n: NodeId)
    requires Strings.Increasing(layer) && n in layer && forall m | m in layer :: m == n
    ensures layer == [n]
  {
    assert forall i | 0 <= i < |layer| :: layer[i] in layer;
    assert |layer| > 1 ==> Strings.Less(layer[0], layer[1]);
  }

  /** So a node whose tool declares nothing is alone in its layer. */
  lemma UndeclaredIsAlone(plan: Plan, templates: Templates, graph: Graph, k: nat, x: Node)
    requires WellFormedPlan(plan) && GraphOf(plan, templates, graph) && k < |graph.layers|
    requires x in plan.nodes && x.id in graph.layers[k] && !Declares(plan, x)
    ensures graph.layers[k] == [x.id]
  {
    LayerIds(plan, templates, graph, k);
    hide WellFormedPlan, GraphOf, Declares, Ids, Strings.Increasing;
    forall n | n in graph.layers[k]
      ensures n == x.id
    {
      if n != x.id {
        LayerMatesMayRunTogether(plan, templates, graph, k, x, NodeOf(plan.nodes, n));
        assert false;
      }
    }
    OneElement(graph.layers[k], x.id);
  }

  /** And a node that could have joined a layer, its dependencies being earlier,
      was held back by an earlier member it may not run with. */
  lemma HeldBackForReason(plan: Plan, templates: Templates, graph: Graph, k: nat, x: Node)
    requires WellFormedPlan(plan) && GraphOf(plan, templates, graph) && k < |graph.layers| && x in plan.nodes
    requires x.id !in Emitted(graph.layers[..k]) && x.id !in graph.layers[k]
    requires x.id in graph.dependencies && graph.dependencies[x.id] <= Emitted(graph.layers[..k])
    ensures exists y :: y in plan.nodes && y.id in graph.layers[k] && Strings.Less(y.id, x.id)
              && !MayRunTogether(plan, templates, x, y)
  {
    hide *;
    NodeEffects(plan, templates, graph, x);
    LayerAt(plan, templates, graph, k);
    LayerIds(plan, templates, graph, k);
    PlanTools(plan);
    var m := HeldBackBy(graph.dependencies, graph.effects, Emitted(graph.layers[..k]), graph.layers[k], x.id);
    var y := NodeOf(plan.nodes, m);
    NodeEffects(plan, templates, graph, y);
    RunTogetherIs(plan, templates, x, y);
  }

  lemma HeldBackBy(deps: Dependencies, effects: map<NodeId, ResolvedEffects>, before: set<NodeId>, layer: seq<NodeId>,
      n: NodeId) returns (m: NodeId)
    requires deps.Keys <= effects.Keys && LayerOk(deps, effects, before, layer)
    requires n in deps && n !in before && n !in layer && deps[n] <= before
    ensures m in layer && m in effects && Strings.Less(m, n) && !effects[n].CanRunWith(effects[m])
  {
    hide Strings.Less, Strings.Increasing;
    var i :| 0 <= i < |layer| && Strings.Less(layer[i], n) && !effects[n].CanRunWith(effects[layer[i]]);
    m := layer[i];
  }

  // --------------------------------------------------------------- locks

  ghost predicate SomeReads(plan: Plan, templates: Templates, members: seq<NodeId>, r: Resource) {
    exists n :: n in members && n in Ids(plan.nodes) && Declares(plan, NodeOf(plan.nodes, n))
      && ReadsResource(plan, templates, NodeOf(plan.nodes, n), r)
  }

  ghost predicate SomeWrites(plan: Plan, templates: Templates, members: seq<NodeId>, r: Resource) {
    exists n :: n in members && n in Ids(plan.nodes) && Declares(plan, NodeOf(plan.nodes, n))
      && WritesResource(plan, templates, NodeOf(plan.nodes, n), r)
  }

  ghost predicate SomeUndeclared(plan: Plan, members: seq<NodeId>) {
    exists n :: n in members && n in Ids(plan.nodes) && !Declares(plan, NodeOf(plan.nodes, n))
  }

  /** What a lock request is for: what its members' tools declare, and everything
      if one of them declares nothing. */
  ghost predicate LockFor(plan: Plan, templates: Templates, members: seq<NodeId>, lock: LockRequest) {
    && (forall r :: r in lock.readSet <==> SomeReads(plan, templates, members, r))
    && (forall r :: r in lock.writeSet <==> SomeWrites(plan, templates, members, r))
    && (lock.world <==> SomeUndeclared(plan, members))
  }

  lemma LockForNone(plan: Plan, templates: Templates)
    ensures LockFor(plan, templates, [], NoLocks)
  {
  }

  lemma LockForMore(plan: Plan, templates: Templates, init: seq<NodeId>, a: LockRequest, n: NodeId, b: LockRequest)
    requires LockFor(plan, templates, init, a) && LockFor(plan, templates, [n], b)
    ensures LockFor(plan, templates, init + [n], Merge(a, b))
  {
    hide Declares, ReadsResource, WritesResource, Ids, NodeOf;
    assert forall m :: m in init + [n] <==> m in init || m in [n];
    forall r
      ensures SomeReads(plan, templates, init + [n], r) <==>
        SomeReads(plan, templates, init, r) || SomeReads(plan, templates, [n], r)
      ensures SomeWrites(plan, templates, init + [n], r) <==>
        SomeWrites(plan, templates, init, r) || SomeWrites(plan, templates, [n], r)
    {
    }
  }

  lemma {:induction false} MergedLockIs(plan: Plan, templates: Templates, effects: map<NodeId, ResolvedEffects>,
      members: seq<NodeId>)
    requires effects == EffectsOfNodes(plan, templates) && forall n | n in members :: n in effects
    ensures LockFor(plan, templates, members, MergeAll(EffectsIn(effects, members)))
    ensures MergeAll(EffectsIn(effects, members)).commutativeTool.None?
  {
    hide EffectsOfNodes, LockFor;
    var all := EffectsIn(effects, members);
    if members == [] {
      LockForNone(plan, templates);
    } else {
      var init, last := members[..|members| - 1], members[|members| - 1];
      MergedLockIs(plan, templates, effects, init);
      assert all[..|all| - 1] == EffectsIn(effects, init);
      assert all[|all| - 1] == effects[last];
      assert members == init + [last];
      SingleLockIs(plan, templates, effects, last);
      LockForMore(plan, templates, init, MergeAll(EffectsIn(effects, init)), last, ForEffects(effects[last]));
    }
  }

  lemma LockOfNode(plan: Plan, templates: Templates, effects: map<NodeId, ResolvedEffects>, n: NodeId)
    requires effects == EffectsOfNodes(plan, templates) && n in effects
    ensures n in Ids(plan.nodes)
    ensures var node, lock := NodeOf(plan.nodes, n), ForEffects(effects[n]);
      && (forall r :: r in lock.readSet <==> Declares(plan, node) && ReadsResource(plan, templates, node, r))
      && (forall r :: r in lock.writeSet <==> Declares(plan, node) && WritesResource(plan, templates, node, r))
      && (lock.world <==> !Declares(plan, node))
      && lock.commutativeTool == if Declares(plan, node) && Commutes(plan, node.tool) then Some(node.tool) else None
  {
    ResolvedAre(plan, templates, NodeOf(plan.nodes, n));
    hide Declares, ReadsResource, WritesResource, Commutes, EffectsFor;
  }

  /** The lock of a unit covers exactly what its members' tools declare. */
  lemma UnitLockIs(host: Host, plan: Plan, templates: Templates, graph: Graph, groups: seq<BatchGroup>, c: Config,
      u: nat)
    requires GraphOf(plan, templates, graph) && BuiltFor(host, plan, graph, groups, c) && u < Units(c)
    ensures forall n | n in c.program.units[u].members :: n in Ids(plan.nodes)
    ensures LockFor(plan, templates, c.program.units[u].members, c.program.units[u].lock)
    ensures CommutesAs(plan, c.program.units[u])
  {
    hide *;
    GraphFactsOf(plan, templates, graph);
    UnitParts(host, plan, graph, groups, c, u);
    LockFrom(plan, templates, graph.effects, groups, c.program.units[u]);
  }

  /** A unit calls its members' tool, counts as a batch when it is a group, and is
      ready with the cost of one dispatch of all its members. */
  lemma UnitIs(host: Host, plan: Plan, templates: Templates, graph: Graph, groups: seq<BatchGroup>, c: Config, u: nat)
    requires GraphOf(plan, templates, graph) && GroupsOk(plan, graph.layers, groups)
    requires BuiltFor(host, plan, graph, groups, c) && u < Units(c)
    ensures var unit := c.program.units[u];
      && (forall n | n in unit.members :: n in Ids(plan.nodes) && NodeOf(plan.nodes, n).tool == unit.tool)
      && unit.cost == UnitCost(plan, unit.tool, |unit.members|)
      && (unit.batch <==> |unit.members| > 1)
  {
    hide *;
    UnitParts(host, plan, graph, groups, c, u);
    UnitFromIs(plan, graph.layers, graph.effects, groups, c.program.units[u]);
  }

  lemma UnitFromIs(plan: Plan, layers: seq<seq<NodeId>>, effects: map<NodeId, ResolvedEffects>, groups: seq<BatchGroup>,
      unit: Unit)
    requires GroupsOk(plan, layers, groups) && UnitFrom(plan, effects, groups, unit)
    ensures (forall n | n in unit.members :: n in Ids(plan.nodes) && NodeOf(plan.nodes, n).tool == unit.tool)
    ensures unit.cost == UnitCost(plan, unit.tool, |unit.members|) && (unit.batch <==> |unit.members| > 1)
  {
    hide UnitCost, MergeAll, ForEffects, Ids, NodeOf, EffectsIn, GroupsApart, GroupOk;
    if g :| 0 <= g < |groups| && (forall id | id in groups[g].nodes :: id in effects)
            && unit == GroupUnit(plan, effects, groups[g])
    {
      assert InSomeLayer(plan, layers, groups[g]);
      var k :| 0 <= k < |layers| && GroupOk(plan, layers[k], groups[g]);
      GroupCalls(plan, layers[k], groups[g]);
    }
  }

  lemma GroupCalls(plan: Plan, layer: seq<NodeId>, group: BatchGroup)
    requires GroupOk(plan, layer, group)
    ensures |group.nodes| > 1
    ensures forall n | n in group.nodes :: n in Ids(plan.nodes) && NodeOf(plan.nodes, n).tool == group.tool
  {
    hide Strings.Increasing;
  }

  lemma LockFrom(plan: Plan, templates: Templates, effects: map<NodeId, ResolvedEffects>, groups: seq<BatchGroup>,
      unit: Unit)
    requires effects == EffectsOfNodes(plan, templates) && UnitFrom(plan, effects, groups, unit)
    requires forall n | n in unit.members :: n in Ids(plan.nodes)
    ensures LockFor(plan, templates, unit.members, unit.lock) && CommutesAs(plan, unit)
  {
    hide LockFor, MergeAll, ForEffects, UnitCost, EffectsOfNodes, Ids, NodeOf, EffectsIn;
    if g :| 0 <= g < |groups| && (forall id | id in groups[g].nodes :: id in effects)
            && unit == GroupUnit(plan, effects, groups[g])
    {
      MergedLockIs(plan, templates, effects, unit.members);
    } else {
      var id :| id in Ids(plan.nodes) && id in effects && unit == SingleUnit(plan, effects, id);
      SingleLockIs(plan, templates, effects, id);
      LockOfNode(plan, templates, effects, id);
      assert unit.members[0] == id;
    }
  }

  /** Only a single call of a commutative tool keeps its claim to commute. */
  ghost predicate CommutesAs(plan: Plan, unit: Unit) {
    unit.lock.commutativeTool.Some? ==>
      && |unit.members| == 1 && unit.members[0] in Ids(plan.nodes)
      && var node := NodeOf(plan.nodes, unit.members[0]);
         unit.lock.commutativeTool == Some(node.tool) && Commutes(plan, node.tool)
  }

  lemma GraphFactsOf(plan: Plan, templates: Templates, graph: Graph)
    requires GraphOf(plan, templates, graph)
    ensures graph.effects == EffectsOfNodes(plan, templates)
  {
  }

  lemma UnitParts(host: Host, plan: Plan, graph: Graph, groups: seq<BatchGroup>, c: Config, u: nat)
    requires BuiltFor(host, plan, graph, groups, c) && u < Units(c)
    ensures u < |c.program.units| && UnitFrom(plan, graph.effects, groups, c.program.units[u])
    ensures forall n | n in c.program.units[u].members :: n in Ids(plan.nodes)
  {
    hide UnitFrom, Wired, Transposed, Ids;
  }

  lemma SingleLockIs(plan: Plan, templates: Templates, effects: map<NodeId, ResolvedEffects>, n: NodeId)
    requires effects == EffectsOfNodes(plan, templates) && n in effects
    ensures n in Ids(plan.nodes) && LockFor(plan, templates, [n], ForEffects(effects[n]))
  {
    LockOfNode(plan, templates, effects, n);
    hide Declares, ReadsResource, WritesResource, ForEffects, EffectsOfNodes;
    var members := [n];
    assert forall m :: m in members <==> m == n;
  }
}
