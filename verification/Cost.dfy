/** Cost estimates: the compiled plan is never estimated worse than the serial one. */
module Costs {
  import opened Wrappers
  import opened Strings
  import opened Plans
  import opened Resolve
  import opened Semantics
  import opened Scheduling
  import opened Layers
  import opened Graphs
  import opened Meanings
  import opened Optimizers
  import opened Batching

  datatype Summary = Summary(
    callsBefore: nat,
    callsAfter: nat,
    turnsBefore: nat,
    turnsAfter: nat,
    serialMs: Option<nat>,
    compiledMs: Option<nat>,
    tokensBefore: Option<nat>,
    tokensAfter: Option<nat>)

  // -------------------------------------------------------------------- sums

  function SumOver(weight: map<NodeId, nat>, ids: seq<NodeId>): nat
    requires forall id | id in ids :: id in weight
  {
    if ids == [] then 0 else SumOver(weight, ids[..|ids| - 1]) + weight[ids[|ids| - 1]]
  }

  lemma {:induction false} SumConcat(weight: map<NodeId, nat>, a: seq<NodeId>, b: seq<NodeId>)
    requires forall id | id in a + b :: id in weight
    ensures (forall id | id in a :: id in weight) && forall id | id in b :: id in weight
    ensures SumOver(weight, a + b) == SumOver(weight, a) + SumOver(weight, b)
    decreases |b|
  {
    assert forall id | id in a :: id in a + b;
    assert forall id | id in b :: id in a + b;
    if b == [] {
      assert a + b == a;
    } else {
      assert (a + b)[..|a + b| - 1] == a + b[..|b| - 1];
      assert forall id | id in a + b[..|b| - 1] :: id in a + b;
      SumConcat(weight, a, b[..|b| - 1]);
    }
  }

  lemma SumWithout(weight: map<NodeId, nat>, ids: seq<NodeId>, i: nat)
    requires i < |ids| && forall id | id in ids :: id in weight
    ensures forall id | id in ids[..i] + ids[i + 1..] :: id in weight
    ensures SumOver(weight, ids) == SumOver(weight, ids[..i] + ids[i + 1..]) + weight[ids[i]]
  {
    var head, tail := ids[..i], ids[i + 1..];
    assert ids == head + ([ids[i]] + tail);
    assert forall id | id in head + tail :: id in ids;
    SumConcat(weight, head, [ids[i]] + tail);
    SumConcat(weight, [ids[i]], tail);
    SumConcat(weight, head, tail);
    assert SumOver(weight, [ids[i]]) == weight[ids[i]] by {
      assert [ids[i]][..0] == [];
    }
  }

  /** A sum over fewer nodes is no larger. */
  lemma {:induction false} SumSubset(weight: map<NodeId, nat>, a: seq<NodeId>, b: seq<NodeId>)
    requires NoRepeats(a) && Listing(a) <= Listing(b) && forall id | id in b :: id in weight
    ensures forall id | id in a :: id in weight
    ensures SumOver(weight, a) <= SumOver(weight, b)
    decreases |a|
  {
    assert forall id | id in a :: id in Listing(a);
    if a != [] {
      var init, last := a[..|a| - 1], a[|a| - 1];
      assert last in Listing(a) && last in Listing(b);
      var i :| 0 <= i < |b| && b[i] == last;
      var rest := b[..i] + b[i + 1..];
      SumWithout(weight, b, i);
      forall id | id in Listing(init)
        ensures id in Listing(rest)
      {
        assert id in Listing(a) && id != last;
        var k :| 0 <= k < |b| && b[k] == id;
        assert rest[if k < i then k else k - 1] == id;
      }
      SumSubset(weight, init, rest);
    }
  }

  function Sum(cost: ToolName -> nat, tools: seq<ToolName>): nat {
    if tools == [] then 0 else Sum(cost, tools[..|tools| - 1]) + cost(tools[|tools| - 1])
  }

  function ToolsOf(nodes: seq<Node>): (tools: seq<ToolName>)
    ensures |tools| == |nodes| && forall i | 0 <= i < |nodes| :: tools[i] == nodes[i].tool
  {
    seq(|nodes|, i requires 0 <= i < |nodes| => nodes[i].tool)
  }

  function IdsOf(nodes: seq<Node>): (ids: seq<NodeId>)
    ensures |ids| == |nodes| && forall i | 0 <= i < |nodes| :: ids[i] == nodes[i].id
    ensures Listing(ids) == Ids(nodes)
  {
    var ids := seq(|nodes|, i requires 0 <= i < |nodes| => nodes[i].id);
    assert forall i | 0 <= i < |nodes| :: ids[i] in ids && nodes[i].id == ids[i];
    ids
  }

  // ------------------------------------------------------------- passes shrink

  lemma {:induction false} KeepSum(cost: ToolName -> nat, nodes: seq<Node>, kept: set<NodeId>)
    ensures Sum(cost, ToolsOf(KeepNodes(nodes, kept))) <= Sum(cost, ToolsOf(nodes))
  {
    if nodes != [] {
      var init, last := nodes[..|nodes| - 1], nodes[|nodes| - 1];
      KeepSum(cost, init, kept);
      assert ToolsOf(nodes)[..|nodes| - 1] == ToolsOf(init);
      var before := KeepNodes(init, kept);
      assert ToolsOf(before + [last])[..|before|] == ToolsOf(before);
    }
  }

  lemma RewriteTools(nodes: seq<Node>, aliases: Aliases)
    ensures ToolsOf(RewriteNodes(nodes, aliases)) == ToolsOf(nodes)
  {
    hide RewriteNode;
    forall i | 0 <= i < |nodes|
      ensures RewriteNode(nodes[i], aliases).tool == nodes[i].tool
    {
      RewrittenId(nodes[i], aliases);
    }
  }

  /** Deduplication and elimination never add to a total over the nodes. */
  lemma CompiledSum(cost: ToolName -> nat, plan: Plan, aliases: Aliases, kept: set<NodeId>)
    ensures Sum(cost, ToolsOf(Prune(Contracted(plan, aliases), kept).nodes)) <= Sum(cost, ToolsOf(plan.nodes))
  {
    hide KeepNodes, RewriteNodes;
    KeepSum(cost, Contracted(plan, aliases).nodes, kept);
    if aliases != map[] {
      KeepSum(cost, plan.nodes, Survivors(plan, aliases));
      RewriteTools(KeepNodes(plan.nodes, Survivors(plan, aliases)), aliases);
    }
  }

  // ------------------------------------------------------------ layer maxima

  function CallCost(plan: Plan): ToolName -> nat {
    tool => UnitCost(plan, tool, 1)
  }

  function Tokens(plan: Plan): ToolName -> nat {
    tool => if tool in plan.tools && plan.tools[tool].cost.Some? && plan.tools[tool].cost.value.tokens.Some?
            then plan.tools[tool].cost.value.tokens.value else 0
  }

  /** What each node costs when called alone. */
  ghost function Alone(plan: Plan): (weight: map<NodeId, nat>)
    ensures weight.Keys == Ids(plan.nodes)
  {
    map id | id in Ids(plan.nodes) :: UnitCost(plan, ToolOf(plan, id), 1)
  }

  /** The group a node was batched into. */
  ghost predicate InGroup(groups: seq<BatchGroup>, id: NodeId, g: nat) {
    g < |groups| && id in groups[g].nodes
  }

  function DispatchCost(plan: Plan, batchCost: map<NodeId, nat>, id: NodeId): nat {
    if id in batchCost then batchCost[id]
    else if id in Ids(plan.nodes) then UnitCost(plan, ToolOf(plan, id), 1)
    else 0
  }

  function MaxOver(cost: NodeId -> nat, layer: seq<NodeId>): (m: nat)
    ensures forall id | id in layer :: cost(id) <= m
    ensures m == 0 || exists id :: id in layer && cost(id) == m
  {
    if layer == [] then 0
    else
      var before, last := MaxOver(cost, layer[..|layer| - 1]), cost(layer[|layer| - 1]);
      assert layer == layer[..|layer| - 1] + [layer[|layer| - 1]];
      if before < last then last else before
  }

  function SumOfMaxima(cost: NodeId -> nat, layers: seq<seq<NodeId>>): nat {
    if layers == [] then 0 else SumOfMaxima(cost, layers[..|layers| - 1]) + MaxOver(cost, layers[|layers| - 1])
  }

  /** The dispatch cost of each batched node: its group's single dispatch. */
  ghost predicate BatchCosts(plan: Plan, groups: seq<BatchGroup>, batchCost: map<NodeId, nat>) {
    && (forall g, id | 0 <= g < |groups| && id in groups[g].nodes :: id in batchCost)
    && forall id | id in batchCost ::
         exists g: nat :: InGroup(groups, id, g) && batchCost[id] == UnitCost(plan, groups[g].tool, |groups[g].nodes|)
  }

  /** One dispatch of a group costs no more than its nodes' own calls. */
  lemma {:induction false} GroupCheaper(plan: Plan, nodes: seq<NodeId>, tool: ToolName)
    requires nodes != [] && forall id | id in nodes :: id in Ids(plan.nodes) && ToolOf(plan, id) == tool
    ensures UnitCost(plan, tool, |nodes|) <= SumOver(Alone(plan), nodes)
  {
    var init, last := nodes[..|nodes| - 1], nodes[|nodes| - 1];
    assert last in nodes && forall id | id in init :: id in nodes;
    CostPerCall(plan, tool, |init|);
    if init != [] {
      GroupCheaper(plan, init, tool);
    }
  }

  lemma CostPerCall(plan: Plan, tool: ToolName, calls: nat)
    ensures UnitCost(plan, tool, calls + 1) <= UnitCost(plan, tool, calls) + UnitCost(plan, tool, 1)
    ensures calls == 0 ==> UnitCost(plan, tool, calls + 1) == UnitCost(plan, tool, 1)
  {
    var cost := if tool in plan.tools then plan.tools[tool].cost else None;
    var perCall := if cost.Some? && cost.value.perCallMs.Some? then cost.value.perCallMs.value else 0;
    assert perCall * (calls + 1) == perCall * calls + perCall;
  }

  /** The slowest dispatch of a layer costs no more than all its nodes' calls. */
  lemma LayerCheaper(plan: Plan, templates: Templates, graph: Graph, groups: seq<BatchGroup>, batchCost: map<NodeId,
      nat>, k: nat)
    requires GraphOf(plan, templates, graph) && GroupsOk(plan, graph.layers, groups)
      && BatchCosts(plan, groups, batchCost) && k < |graph.layers|
    ensures forall id | id in graph.layers[k] :: id in Alone(plan)
    ensures MaxOver(id => DispatchCost(plan, batchCost, id), graph.layers[k]) <= SumOver(Alone(plan), graph.layers[k])
  {
    hide LayersOk, UnitCost, MaxOver, Emitted, NodeDeps, EffectsFor, IsCandidate, SumOver;
    var layer := graph.layers[k];
    forall id | id in layer
      ensures id in Ids(plan.nodes)
    {
      EmittedHasLayer(graph.layers, id);
    }
    var cost := id => DispatchCost(plan, batchCost, id);
    var m := MaxOver(cost, layer);
    if m > 0 {
      var id :| id in layer && cost(id) == m;
      NodeCheaper(plan, templates, graph, groups, batchCost, k, id);
    }
  }

  lemma NodeCheaper(plan: Plan, templates: Templates, graph: Graph, groups: seq<BatchGroup>, batchCost: map<NodeId,
      nat>, k: nat, id: NodeId)
    requires GraphOf(plan, templates, graph) && GroupsOk(plan, graph.layers, groups)
      && BatchCosts(plan, groups, batchCost) && k < |graph.layers|
    requires id in graph.layers[k] && forall n | n in graph.layers[k] :: n in Ids(plan.nodes)
    ensures DispatchCost(plan, batchCost, id) <= SumOver(Alone(plan), graph.layers[k])
  {
    hide LayersOk, UnitCost, Emitted, NodeDeps, EffectsFor, IsCandidate, SumOver;
    var layer := graph.layers[k];
    if id in batchCost {
      var g: nat :| InGroup(groups, id, g) && batchCost[id] == UnitCost(plan, groups[g].tool, |groups[g].nodes|);
      assert InSomeLayer(plan, graph.layers, groups[g]);
      var j :| 0 <= j < |graph.layers| && GroupOk(plan, graph.layers[j], groups[g]);
      LayersDistinct(graph.dependencies, graph.effects, graph.layers, id);
      GroupInLayer(plan, layer, groups[g]);
      GroupCheaper(plan, groups[g].nodes, groups[g].tool);
      SumSubset(Alone(plan), groups[g].nodes, layer);
    } else {
      SumOne(Alone(plan), id);
      SumSubset(Alone(plan), [id], layer);
    }
  }

  lemma SumOne(weight: map<NodeId, nat>, id: NodeId)
    requires id in weight
    ensures SumOver(weight, [id]) == weight[id]
  {
    assert [id][..0] == [];
  }

  lemma GroupInLayer(plan: Plan, layer: seq<NodeId>, group: BatchGroup)
    requires GroupOk(plan, layer, group)
    ensures NoRepeats(group.nodes) && group.nodes != [] && Listing(group.nodes) <= Listing(layer)
    ensures forall id | id in group.nodes :: id in Ids(plan.nodes) && ToolOf(plan, id) == group.tool
  {
    hide Leq;
  }

  lemma {:induction false} MaximaCheaper(plan: Plan, templates: Templates, graph: Graph, groups: seq<BatchGroup>,
      batchCost: map<NodeId, nat>, m: nat)
    requires GraphOf(plan, templates, graph) && GroupsOk(plan, graph.layers, groups)
      && BatchCosts(plan, groups, batchCost) && m <= |graph.layers|
    ensures forall id | id in Flatten(graph.layers[..m]) :: id in Alone(plan)
    ensures SumOfMaxima(id => DispatchCost(plan, batchCost, id), graph.layers[..m]) <= SumOver(Alone(plan),
      Flatten(graph.layers[..m]))
  {
    hide GraphOf, GroupsOk, BatchCosts, MaxOver, DispatchCost;
    if m > 0 {
      MaximaCheaper(plan, templates, graph, groups, batchCost, m - 1);
      LayerCheaper(plan, templates, graph, groups, batchCost, m - 1);
      assert graph.layers[..m][..m - 1] == graph.layers[..m - 1];
      SumConcat(Alone(plan), Flatten(graph.layers[..m - 1]), graph.layers[m - 1]);
    }
  }

  lemma NodesWeigh(plan: Plan, nodes: seq<Node>)
    requires forall i | 0 <= i < |nodes| :: nodes[i] in plan.nodes
    ensures forall id | id in IdsOf(nodes) :: id in Alone(plan)
  {
    forall id | id in IdsOf(nodes)
      ensures id in Ids(plan.nodes)
    {
      var i :| 0 <= i < |nodes| && IdsOf(nodes)[i] == id;
      IdIn(plan.nodes, nodes[i]);
    }
  }

  lemma NoNodes()
    ensures IdsOf([]) == [] && ToolsOf([]) == []
  {
  }

  lemma ListsShrink(nodes: seq<Node>)
    requires nodes != []
    ensures IdsOf(nodes)[..|nodes| - 1] == IdsOf(nodes[..|nodes| - 1])
      && IdsOf(nodes)[|nodes| - 1] == nodes[|nodes| - 1].id
    ensures ToolsOf(nodes)[..|nodes| - 1] == ToolsOf(nodes[..|nodes| - 1])
      && ToolsOf(nodes)[|nodes| - 1] == nodes[|nodes| - 1].tool
  {
  }

  lemma {:induction false} AloneSum(plan: Plan, nodes: seq<Node>)
    requires DistinctIds(plan.nodes) && forall i | 0 <= i < |nodes| :: nodes[i] in plan.nodes
    ensures forall id | id in IdsOf(nodes) :: id in Alone(plan)
    ensures SumOver(Alone(plan), IdsOf(nodes)) == Sum(CallCost(plan), ToolsOf(nodes))
  {
    hide UnitCost, DistinctIds, IdsOf, ToolsOf, Ids, NodeOf;
    NodesWeigh(plan, nodes);
    NoNodes();
    if nodes != [] {
      var init, last := nodes[..|nodes| - 1], nodes[|nodes| - 1];
      AloneSum(plan, init);
      ListsShrink(nodes);
      NodeOfMember(plan.nodes, last);
    }
  }

  /** The layered estimate is at most the sum over the compiled plan's nodes. */
  lemma CompiledCheaper(plan: Plan, templates: Templates, graph: Graph, groups: seq<BatchGroup>, batchCost: map<NodeId,
      nat>)
    requires DistinctIds(plan.nodes) && GraphOf(plan, templates, graph) && GroupsOk(plan, graph.layers, groups)
      && BatchCosts(plan, groups, batchCost)
    ensures SumOfMaxima(id => DispatchCost(plan, batchCost, id), graph.layers) <= Sum(CallCost(plan),
      ToolsOf(plan.nodes))
  {
    hide GraphOf, GroupsOk, BatchCosts, SumOfMaxima, Flatten, DistinctIds;
    MaximaCheaper(plan, templates, graph, groups, batchCost, |graph.layers|);
    assert graph.layers[..|graph.layers|] == graph.layers;
    FlatOrder(plan, templates, graph);
    AloneSum(plan, plan.nodes);
    SumSubset(Alone(plan), Flatten(graph.layers), IdsOf(plan.nodes));
  }

  // ---------------------------------------------------------------- summaries

  function GroupSizes(groups: seq<BatchGroup>): nat {
    if groups == [] then 0 else GroupSizes(groups[..|groups| - 1]) + |groups[|groups| - 1].nodes|
  }

  lemma {:induction false} GroupSizesCount(plan: Plan, layers: seq<seq<NodeId>>, groups: seq<BatchGroup>, m: nat)
    requires GroupsOk(plan, layers, groups) && m <= |groups|
    ensures GroupSizes(groups[..m]) == |GroupMembers(groups[..m])|
  {
    hide GroupOk;
    if m > 0 {
      GroupSizesCount(plan, layers, groups, m - 1);
      assert groups[..m][..m - 1] == groups[..m - 1];
      NextGroupApart(groups, m - 1);
      assert InSomeLayer(plan, layers, groups[m - 1]);
      var k :| 0 <= k < |layers| && GroupOk(plan, layers[k], groups[m - 1]);
      GroupInLayer(plan, layers[k], groups[m - 1]);
      NoRepeatsCount(groups[m - 1].nodes);
    }
  }

  lemma {:induction false} NoLarger(a: set<NodeId>, b: set<NodeId>)
    requires a <= b
    ensures |a| <= |b|
  {
    if a != {} {
      var x :| x in a;
      NoLarger(a - {x}, b - {x});
    }
  }

  /** Every batched node is counted once, and there are no more of them than nodes. */
  lemma BatchedCount(plan: Plan, templates: Templates, graph: Graph, groups: seq<BatchGroup>)
    requires DistinctIds(plan.nodes) && GraphOf(plan, templates, graph) && groups == AllGroups(plan, graph.layers)
    ensures GroupSizes(groups) == |GroupMembers(groups)| <= |plan.nodes| == |Ids(plan.nodes)|
  {
    hide AllGroups, GraphOf;
    GroupsAreOk(plan, templates, graph);
    GroupSizesCount(plan, graph.layers, groups, |groups|);
    assert groups[..|groups|] == groups;
    GroupsInPlan(plan, graph.layers, groups);
    NoLarger(GroupMembers(groups), Ids(plan.nodes));
    NoRepeatsCount(IdsOf(plan.nodes));
  }

  method SumTools(cost: ToolName -> nat, tools: seq<ToolName>) returns (total: nat)
    ensures total == Sum(cost, tools)
  {
    total := 0;
    for i := 0 to |tools|
      invariant total == Sum(cost, tools[..i])
    {
      assert tools[..i + 1][..i] == tools[..i];
      total := total + cost(tools[i]);
    }
    assert tools[..|tools|] == tools;
  }

  /** The dispatch cost of every batched node. */
  method CollectBatchCosts(plan: Plan, groups: seq<BatchGroup>) returns (batchCost: map<NodeId, nat>)
    requires GroupsApart(groups)
    ensures BatchCosts(plan, groups, batchCost)
  {
    hide UnitCost;
    batchCost := map[];
    for g := 0 to |groups|
      invariant forall h, id | 0 <= h < g && id in groups[h].nodes :: id in batchCost
      invariant forall id | id in batchCost ::
        exists h: nat ::
          h < g && InGroup(groups, id, h) && batchCost[id] == UnitCost(plan, groups[h].tool, |groups[h].nodes|)
    {
      var dispatch := UnitCost(plan, groups[g].tool, |groups[g].nodes|);
      ghost var before := batchCost;
      for i := 0 to |groups[g].nodes|
        invariant forall id | id in before :: id in batchCost
        invariant forall k | 0 <= k < i :: groups[g].nodes[k] in batchCost
        invariant forall id | id in batchCost ::
          (id in before && batchCost[id] == before[id]) || (InGroup(groups, id, g) && batchCost[id] == dispatch)
      {
        assert groups[g].nodes[i] in groups[g].nodes;
        batchCost := batchCost[groups[g].nodes[i] := dispatch];
      }
    }
  }

  /** Each layer's slowest dispatch, added up. */
  ghost predicate LayeredEstimate(plan: Plan, graph: Graph, groups: seq<BatchGroup>, total: nat) {
    exists batchCost ::
      BatchCosts(plan, groups, batchCost) && total == SumOfMaxima(id => DispatchCost(plan, batchCost, id), graph.layers)
  }

  /** The layered estimate: each layer's slowest dispatch, added up. */
  method CompiledMs(plan: Plan, graph: Graph, groups: seq<BatchGroup>) returns (total: nat)
    requires GroupsApart(groups)
    ensures LayeredEstimate(plan, graph, groups, total)
  {
    hide UnitCost, BatchCosts;
    var costs := CollectBatchCosts(plan, groups);
    total := 0;
    for k := 0 to |graph.layers|
      invariant total == SumOfMaxima(id => DispatchCost(plan, costs, id), graph.layers[..k])
    {
      var cost := id => DispatchCost(plan, costs, id);
      assert graph.layers[..k + 1][..k] == graph.layers[..k];
      total := total + MaxOver(cost, graph.layers[k]);
    }
    assert graph.layers[..|graph.layers|] == graph.layers;
  }

  // -------------------------------------------------------------- what it is

  ghost predicate DeclaresCost(plan: Plan, tool: ToolName, cost: Cost) {
    tool in plan.tools && plan.tools[tool].cost == Some(cost)
  }

  ghost function OrZero(amount: Option<nat>): nat {
    if amount.Some? then amount.value else 0
  }

  /** A dispatch takes the declared fixed time and once more the time per call for
      every call it carries; a tool that declares no cost is free. */
  lemma CostsAreDeclared(plan: Plan, tool: ToolName, calls: nat)
    ensures forall cost | DeclaresCost(plan, tool, cost) ::
      && UnitCost(plan, tool, 0) == OrZero(cost.fixedMs)
      && UnitCost(plan, tool, calls + 1) == UnitCost(plan, tool, calls) + OrZero(cost.perCallMs)
      && Tokens(plan)(tool) == OrZero(cost.tokens)
    ensures (!exists cost :: DeclaresCost(plan, tool, cost)) ==>
      UnitCost(plan, tool, calls) == 0 && Tokens(plan)(tool) == 0
  {
    if tool in plan.tools && plan.tools[tool].cost.Some? {
      assert DeclaresCost(plan, tool, plan.tools[tool].cost.value);
      var perCall := OrZero(plan.tools[tool].cost.value.perCallMs);
      assert perCall * (calls + 1) == perCall * calls + perCall;
    } else {
      assert 0 * calls == 0;
    }
  }

  /** A node is dispatched with its group, or alone when it is in none. */
  ghost predicate DispatchedAt(plan: Plan, groups: seq<BatchGroup>, id: NodeId, cost: nat) {
    if exists g: nat :: InGroup(groups, id, g) then
      exists g: nat :: InGroup(groups, id, g) && cost == UnitCost(plan, groups[g].tool, |groups[g].nodes|)
    else
      id in Ids(plan.nodes) && cost == UnitCost(plan, NodeOf(plan.nodes, id).tool, 1)
  }

  ghost predicate Slowest(plan: Plan, groups: seq<BatchGroup>, layer: seq<NodeId>, most: nat) {
    && (forall id | id in layer :: exists cost: nat :: DispatchedAt(plan, groups, id, cost) && cost <= most)
    && (most == 0 || exists id :: id in layer && DispatchedAt(plan, groups, id, most))
  }

  ghost function Total(amounts: seq<nat>): nat {
    if amounts == [] then 0 else Total(amounts[..|amounts| - 1]) + amounts[|amounts| - 1]
  }

  ghost predicate SlowestDispatches(plan: Plan, groups: seq<BatchGroup>, layers: seq<seq<NodeId>>, most: seq<nat>) {
    |most| == |layers| && forall k | 0 <= k < |layers| :: Slowest(plan, groups, layers[k], most[k])
  }

  lemma DispatchCostIs(plan: Plan, groups: seq<BatchGroup>, batchCost: map<NodeId, nat>, id: NodeId)
    requires BatchCosts(plan, groups, batchCost) && id in Ids(plan.nodes)
    ensures DispatchedAt(plan, groups, id, DispatchCost(plan, batchCost, id))
  {
    hide UnitCost;
  }

  lemma SlowestIs(plan: Plan, groups: seq<BatchGroup>, batchCost: map<NodeId, nat>, layer: seq<NodeId>)
    requires BatchCosts(plan, groups, batchCost) && forall id | id in layer :: id in Ids(plan.nodes)
    ensures Slowest(plan, groups, layer, MaxOver(id => DispatchCost(plan, batchCost, id), layer))
  {
    hide BatchCosts, DispatchedAt, DispatchCost, MaxOver, Ids;
    var cost := id => DispatchCost(plan, batchCost, id);
    forall id | id in layer
      ensures DispatchedAt(plan, groups, id, cost(id))
    {
      DispatchCostIs(plan, groups, batchCost, id);
    }
  }

  lemma {:induction false} MaximaAre(plan: Plan, groups: seq<BatchGroup>, batchCost: map<NodeId, nat>,
      layers: seq<seq<NodeId>>) returns (most: seq<nat>)
    requires BatchCosts(plan, groups, batchCost)
    requires forall k, id | 0 <= k < |layers| && id in layers[k] :: id in Ids(plan.nodes)
    ensures SlowestDispatches(plan, groups, layers, most)
    ensures Total(most) == SumOfMaxima(id => DispatchCost(plan, batchCost, id), layers)
  {
    hide BatchCosts, Slowest, DispatchCost, MaxOver, Ids;
    if layers == [] {
      most := [];
    } else {
      var before := MaximaAre(plan, groups, batchCost, layers[..|layers| - 1]);
      var layer := layers[|layers| - 1];
      SlowestIs(plan, groups, batchCost, layer);
      most := before + [MaxOver(id => DispatchCost(plan, batchCost, id), layer)];
      assert most[..|before|] == before;
    }
  }

  /** The layered estimate adds up, over the layers, the slowest dispatch of each. */
  lemma EstimateIs(plan: Plan, templates: Templates, graph: Graph, groups: seq<BatchGroup>, total: nat)
    requires GraphOf(plan, templates, graph) && LayeredEstimate(plan, graph, groups, total)
    ensures exists most :: SlowestDispatches(plan, groups, graph.layers, most) && total == Total(most)
  {
    hide BatchCosts, SlowestDispatches, SumOfMaxima, Ids;
    var batchCost :| BatchCosts(plan, groups, batchCost)
      && total == SumOfMaxima(id => DispatchCost(plan, batchCost, id), graph.layers);
    forall k, id | 0 <= k < |graph.layers| && id in graph.layers[k]
      ensures id in Ids(plan.nodes)
    {
      EmittedHasLayer(graph.layers, id);
    }
    var most := MaximaAre(plan, groups, batchCost, graph.layers);
  }

  predicate DeclaresCosts(plan: Plan) {
    exists tool | tool in plan.tools :: plan.tools[tool].cost.Some?
  }

  /** `summarize`: no estimate gets worse by compiling, and the calls counted
      after it are the units a parallel engine builds. */
  method Summarize(originalTools: seq<ToolName>, plan: Plan, graph: Graph, groups: seq<BatchGroup>,
      ghost templates: Templates, ghost original: Plan, ghost aliases: Aliases, ghost kept: set<NodeId>)
    returns (s: Summary)
    requires originalTools == ToolsOf(original.nodes) && plan == Prune(Contracted(original, aliases), kept)
    requires DistinctIds(plan.nodes) && GraphOf(plan, templates, graph) && groups == AllGroups(plan, graph.layers)
    ensures s.callsBefore == s.turnsBefore == |originalTools| && s.turnsAfter == if originalTools == [] then 0 else 1
    ensures s.callsAfter + |GroupMembers(groups)| == |groups| + |Ids(plan.nodes)|
    ensures s.serialMs.Some? <==> DeclaresCosts(plan)
    ensures s.compiledMs.Some? <==> DeclaresCosts(plan)
    ensures s.tokensBefore.Some? <==> DeclaresCosts(plan)
    ensures s.tokensAfter.Some? <==> DeclaresCosts(plan)
    ensures DeclaresCosts(plan) ==>
      s.serialMs == Some(Sum(CallCost(plan), originalTools)) && s.tokensBefore == Some(Sum(Tokens(plan), originalTools))
    ensures DeclaresCosts(plan) ==>
      s.tokensAfter == Some(Sum(Tokens(plan), ToolsOf(plan.nodes)))
      && LayeredEstimate(plan, graph, groups, s.compiledMs.value)
    ensures DeclaresCosts(plan) ==>
      s.compiledMs.value <= s.serialMs.value && s.tokensAfter.value <= s.tokensBefore.value
  {
    hide GraphOf, AllGroups, GroupsOk, DistinctIds, UnitCost, Contracted, KeepNodes, BatchCosts, SumOfMaxima, MaxOver,
      GroupMembers, Ids, DeclaresCosts;
    BatchedCount(plan, templates, graph, groups);
    GroupsAreOk(plan, templates, graph);
    GroupsOkApart(plan, graph.layers, groups);
    var batched := 0;
    for g := 0 to |groups|
      invariant batched == GroupSizes(groups[..g])
    {
      assert groups[..g + 1][..g] == groups[..g];
      batched := batched + |groups[g].nodes|;
    }
    assert groups[..|groups|] == groups;
    var after := |plan.nodes| - batched + |groups|;
    var turns := if originalTools == [] then 0 else 1;
    if !DeclaresCosts(plan) {
      return Summary(|originalTools|, after, |originalTools|, turns, None, None, None, None);
    }
    var serial := SumTools(CallCost(plan), originalTools);
    var tokensBefore := SumTools(Tokens(plan), originalTools);
    var tokensAfter := SumTools(Tokens(plan), ToolsOf(plan.nodes));
    var compiled := CompiledMs(plan, graph, groups);
    ghost var batchCost :| BatchCosts(plan, groups, batchCost)
      && compiled == SumOfMaxima(id => DispatchCost(plan, batchCost, id), graph.layers);
    CompiledCheaper(plan, templates, graph, groups, batchCost);
    CompiledSum(CallCost(plan), original, aliases, kept);
    CompiledSum(Tokens(plan), original, aliases, kept);
    s := Summary(|originalTools|, after, |originalTools|, turns, Some(serial), Some(compiled), Some(tokensBefore),
      Some(tokensAfter));
  }

  /** The calls estimated after compiling are the units a parallel engine runs. */
  method EstimatedCallsAreUnits(host: Host, plan: Plan, graph: Graph, groups: seq<BatchGroup>, options: Options,
      original: Plan, ghost templates: Templates, ghost aliases: Aliases, ghost kept: set<NodeId>)
    returns (estimated: nat, units: nat)
    requires WellFormedPlan(plan) && plan == Prune(Contracted(original, aliases), kept)
    requires GraphOf(plan, templates, graph) && groups == AllGroups(plan, graph.layers)
    requires ReadsApartFromWrites(graph.effects) && |Flatten(graph.layers)| <= MAX_KEY && !options.serial
    ensures estimated == units
  {
    hide WellFormedPlan, GraphOf, AllGroups, Contracted, KeepNodes, GroupMembers, Ids, ConfigOk, BuiltFor, GroupsOk,
      Flatten;
    DistinctNodes(plan);
    var s := Summarize(ToolsOf(original.nodes), plan, graph, groups, templates, original, aliases, kept);
    var c := NewConfig(host, plan, graph, groups, options, templates);
    estimated, units := s.callsAfter, |c.program.units|;
  }
}
