/** Batch groups, and the units and unit graph an engine is built from. */
module Batching {
  import opened Wrappers
  import opened Strings
  import opened Refs
  import opened Plans
  import opened Locks
  import opened Semantics
  import opened Scheduling
  import opened History
  import opened Layers
  import opened Graphs

  datatype BatchGroup = BatchGroup(tool: ToolName, nodes: seq<NodeId>)

  // ------------------------------------------------------------ specification

  predicate IsCandidate(plan: Plan, id: NodeId) {
    && id in Ids(plan.nodes)
    && var node := NodeOf(plan.nodes, id);
       var effects := EffectsOf(plan, node.tool);
       effects.Some? && effects.value.batchable && node.forEach.None?
  }

  function ToolOf(plan: Plan, id: NodeId): ToolName
    requires id in Ids(plan.nodes)
  {
    NodeOf(plan.nodes, id).tool
  }

  /** The batchable nodes of a layer that call `tool`, in layer order. */
  function Candidates(plan: Plan, layer: seq<NodeId>, tool: ToolName): seq<NodeId> {
    if layer == [] then []
    else
      var init, id := Candidates(plan, layer[..|layer| - 1], tool), layer[|layer| - 1];
      if IsCandidate(plan, id) && ToolOf(plan, id) == tool then init + [id] else init
  }

  function BatchTools(plan: Plan, layer: seq<NodeId>): set<ToolName> {
    set id | id in layer && IsCandidate(plan, id) :: ToolOf(plan, id)
  }

  /** `max(1)` of the declared batch size, or everything at once. */
  function BatchSize(plan: Plan, tool: ToolName, count: nat): (size: nat)
    ensures size > 0
  {
    var declared := if tool in plan.tools && plan.tools[tool].batchSize.Some? then plan.tools[tool].batchSize.value
      else count;
    if declared > 1 then declared else 1
  }

  /** The chunks of at least two nodes, in order. */
  function Chunked(tool: ToolName, nodes: seq<NodeId>, size: nat): seq<BatchGroup>
    requires size > 0
    decreases |nodes|
  {
    if |nodes| <= 1 then []
    else if |nodes| <= size then [BatchGroup(tool, nodes)]
    else (if size > 1 then [BatchGroup(tool, nodes[..size])] else []) + Chunked(tool, nodes[size..], size)
  }

  function ToolGroups(plan: Plan, layer: seq<NodeId>, tool: ToolName): seq<BatchGroup> {
    var nodes := Candidates(plan, layer, tool);
    Chunked(tool, nodes, BatchSize(plan, tool, |nodes|))
  }

  function ToolsGroups(plan: Plan, layer: seq<NodeId>, tools: seq<ToolName>): seq<BatchGroup> {
    if tools == [] then []
    else ToolsGroups(plan, layer, tools[..|tools| - 1]) + ToolGroups(plan, layer, tools[|tools| - 1])
  }

  function LayerGroups(plan: Plan, layer: seq<NodeId>): seq<BatchGroup> {
    ToolsGroups(plan, layer, Sorted(BatchTools(plan, layer)))
  }

  function AllGroups(plan: Plan, layers: seq<seq<NodeId>>): seq<BatchGroup> {
    if layers == [] then []
    else AllGroups(plan, layers[..|layers| - 1]) + LayerGroups(plan, layers[|layers| - 1])
  }

  // ---------------------------------------------------------------- grouping

  /** `find_batch_groups`. */
  method FindBatchGroups(plan: Plan, graph: Graph) returns (groups: seq<BatchGroup>)
    ensures groups == AllGroups(plan, graph.layers)
  {
    hide IsCandidate, BatchSize, LayerGroups;
    groups := [];
    for k := 0 to |graph.layers|
      invariant groups == AllGroups(plan, graph.layers[..k])
    {
      var more := GroupLayer(plan, graph.layers[k]);
      assert graph.layers[..k + 1][..k] == graph.layers[..k];
      groups := groups + more;
    }
    assert graph.layers[..|graph.layers|] == graph.layers;
  }

  method GroupLayer(plan: Plan, layer: seq<NodeId>) returns (groups: seq<BatchGroup>)
    ensures groups == LayerGroups(plan, layer)
  {
    hide IsCandidate, BatchSize, BatchTools, Candidates, ToolsGroups, Sorted;
    NoTools(plan, layer);
    var byTool := CollectByTool(plan, layer);
    groups := [];
    var tools := Sorted(byTool.Keys);
    for i := 0 to |tools|
      invariant groups == ToolsGroups(plan, layer, tools[..i])
    {
      assert tools[i] in byTool;
      var nodes := byTool[tools[i]];
      var more := SplitChunks(tools[i], nodes, BatchSize(plan, tools[i], |nodes|));
      NextTool(plan, layer, tools, i);
      groups := groups + more;
    }
    assert tools[..|tools|] == tools;
  }

  lemma NoTools(plan: Plan, layer: seq<NodeId>)
    ensures ToolsGroups(plan, layer, []) == []
  {
  }

  lemma NextTool(plan: Plan, layer: seq<NodeId>, tools: seq<ToolName>, i: nat)
    requires i < |tools|
    ensures ToolsGroups(plan, layer, tools[..i + 1]) ==
      ToolsGroups(plan, layer, tools[..i]) + ToolGroups(plan, layer, tools[i])
  {
    hide ToolGroups;
    assert tools[..i + 1][..i] == tools[..i];
  }

  /** The candidates of a layer, by tool. */
  method CollectByTool(plan: Plan, layer: seq<NodeId>) returns (byTool: map<ToolName, seq<NodeId>>)
    ensures byTool.Keys == BatchTools(plan, layer)
    ensures forall tool | tool in byTool :: byTool[tool] == Candidates(plan, layer, tool)
  {
    hide IsCandidate, Ids, BatchTools, Candidates, NodeOf;
    byTool := map[];
    NoCandidates(plan);
    for i := 0 to |layer|
      invariant byTool.Keys == BatchTools(plan, layer[..i])
      invariant forall tool :: Candidates(plan, layer[..i], tool) == if tool in byTool then byTool[tool] else []
    {
      var id := layer[i];
      CandidatesStep(plan, layer, i);
      ToolsStep(plan, layer, i);
      if IsCandidate(plan, id) {
        CandidateIsNode(plan, id);
        var tool := ToolOf(plan, id);
        byTool := byTool[tool := (if tool in byTool then byTool[tool] else []) + [id]];
      }
    }
    assert layer[..|layer|] == layer;
  }

  lemma NoCandidates(plan: Plan)
    ensures BatchTools(plan, []) == {} && forall tool :: Candidates(plan, [], tool) == []
  {
  }

  lemma CandidatesStep(plan: Plan, layer: seq<NodeId>, i: nat)
    requires i < |layer|
    ensures forall tool :: Candidates(plan, layer[..i + 1], tool) == Candidates(plan, layer[..i], tool)
              + if IsCandidate(plan, layer[i]) && ToolOf(plan, layer[i]) == tool then [layer[i]] else []
  {
    hide IsCandidate, Ids, NodeOf;
    assert layer[..i + 1][..i] == layer[..i];
  }

  lemma CandidateIsNode(plan: Plan, id: NodeId)
    requires IsCandidate(plan, id)
    ensures id in Ids(plan.nodes)
  {
  }

  lemma ToolsStep(plan: Plan, layer: seq<NodeId>, i: nat)
    requires i < |layer|
    ensures BatchTools(plan, layer[..i + 1]) ==
      BatchTools(plan, layer[..i]) + if IsCandidate(plan, layer[i]) then {ToolOf(plan, layer[i])} else {}
  {
    hide NodeOf;
    assert layer[..i + 1] == layer[..i] + [layer[i]];
    forall tool
      ensures tool in BatchTools(plan, layer[..i + 1]) <==>
        tool in BatchTools(plan, layer[..i]) || (IsCandidate(plan, layer[i]) && tool == ToolOf(plan, layer[i]))
    {
      if tool in BatchTools(plan, layer[..i]) {
        var id :| id in layer[..i] && IsCandidate(plan, id) && ToolOf(plan, id) == tool;
        assert id in layer[..i + 1];
      }
      if IsCandidate(plan, layer[i]) && tool == ToolOf(plan, layer[i]) {
        assert layer[i] in layer[..i + 1];
      }
    }
  }

  /** `nodes.chunks(size)`, without the chunks of one. */
  method SplitChunks(tool: ToolName, nodes: seq<NodeId>, size: nat) returns (groups: seq<BatchGroup>)
    requires size > 0
    ensures groups == Chunked(tool, nodes, size)
  {
    groups := [];
    var rest := nodes;
    while rest != []
      invariant groups + Chunked(tool, rest, size) == Chunked(tool, nodes, size)
      decreases |rest|
    {
      var end := if size < |rest| then size else |rest|;
      var chunk := rest[..end];
      if |chunk| > 1 {
        assert end == |rest| ==> chunk == rest && rest[end..] == [];
        assert Chunked(tool, rest, size) == [BatchGroup(tool, chunk)] + Chunked(tool, rest[end..], size);
        groups := groups + [BatchGroup(tool, chunk)];
      } else {
        assert Chunked(tool, rest, size) == Chunked(tool, rest[end..], size);
      }
      rest := rest[end..];
    }
  }

  // ------------------------------------------------------------- group facts

  /** A group lies in `layer`, calls one tool that is batchable, expands nothing,
      and fits the batch size. */
  ghost predicate GroupOk(plan: Plan, layer: seq<NodeId>, group: BatchGroup) {
    && |group.nodes| > 1
    && Increasing(group.nodes)
    && (forall id | id in group.nodes :: id in layer && IsCandidate(plan, id) && ToolOf(plan, id) == group.tool)
    && (group.tool in plan.tools && plan.tools[group.tool].batchSize.Some? ==>
          |group.nodes| <= BatchSize(plan, group.tool, |group.nodes|))
  }

  ghost predicate GroupsApart(groups: seq<BatchGroup>) {
    forall i, j | 0 <= i < j < |groups| :: Listing(groups[i].nodes) !! Listing(groups[j].nodes)
  }

  ghost predicate GroupsIn(plan: Plan, layer: seq<NodeId>, groups: seq<BatchGroup>) {
    forall i | 0 <= i < |groups| :: GroupOk(plan, layer, groups[i])
  }

  lemma ApartConcat(a: seq<BatchGroup>, b: seq<BatchGroup>)
    requires GroupsApart(a) && GroupsApart(b)
    requires forall i, j | 0 <= i < |a| && 0 <= j < |b| :: Listing(a[i].nodes) !! Listing(b[j].nodes)
    ensures GroupsApart(a + b)
  {
    hide Listing;
  }

  lemma {:induction false} CandidatesIncrease(plan: Plan, layer: seq<NodeId>, tool: ToolName)
    requires Increasing(layer)
    ensures Increasing(Candidates(plan, layer, tool))
    ensures forall id | id in Candidates(plan, layer, tool) ::
      id in layer && IsCandidate(plan, id) && ToolOf(plan, id) == tool
  {
    hide IsCandidate, Leq;
    if layer != [] {
      var init, last := layer[..|layer| - 1], layer[|layer| - 1];
      CandidatesIncrease(plan, init, tool);
      assert layer == init + [last];
      assert forall id | id in init :: Less(id, last) by {
        assert forall i | 0 <= i < |init| :: init[i] == layer[i];
      }
    }
  }

  ghost predicate ChunkOf(group: BatchGroup, tool: ToolName, nodes: seq<NodeId>, size: nat) {
    group.tool == tool && 1 < |group.nodes| <= size && Increasing(group.nodes) && Listing(group.nodes) <= Listing(nodes)
  }

  lemma {:induction false} ChunksFit(tool: ToolName, nodes: seq<NodeId>, size: nat)
    requires size > 0 && Increasing(nodes)
    ensures forall i | 0 <= i < |Chunked(tool, nodes, size)| ::
      ChunkOf(Chunked(tool, nodes, size)[i], tool, nodes, size)
    ensures GroupsApart(Chunked(tool, nodes, size))
    decreases |nodes|
  {
    hide Leq;
    if |nodes| > size && |nodes| > 1 {
      var head, tail := nodes[..size], nodes[size..];
      ChunksFit(tool, tail, size);
      assert nodes == head + tail;
      forall id | id in head
        ensures id !in tail
      {
        var i :| 0 <= i < size && nodes[i] == id;
        assert forall j | 0 <= j < |tail| :: tail[j] == nodes[size + j] && Less(nodes[i], nodes[size + j]);
      }
      assert Listing(head) !! Listing(tail) && Listing(head) <= Listing(nodes) && Listing(tail) <= Listing(nodes);
      var first := if size > 1 then [BatchGroup(tool, head)] else [];
      ApartConcat(first, Chunked(tool, tail, size));
    }
  }

  lemma ToolGroupsOk(plan: Plan, layer: seq<NodeId>, tool: ToolName)
    requires Increasing(layer)
    ensures GroupsIn(plan, layer, ToolGroups(plan, layer, tool)) && GroupsApart(ToolGroups(plan, layer, tool))
    ensures forall i | 0 <= i < |ToolGroups(plan, layer, tool)| :: ToolGroups(plan, layer, tool)[i].tool == tool
  {
    hide IsCandidate, Increasing;
    var nodes := Candidates(plan, layer, tool);
    CandidatesIncrease(plan, layer, tool);
    ChunksFit(tool, nodes, BatchSize(plan, tool, |nodes|));
    var groups := ToolGroups(plan, layer, tool);
    forall i | 0 <= i < |groups|
      ensures GroupOk(plan, layer, groups[i]) && groups[i].tool == tool
    {
      assert ChunkOf(groups[i], tool, nodes, BatchSize(plan, tool, |nodes|));
      assert forall id | id in groups[i].nodes :: id in Listing(groups[i].nodes);
    }
  }

  lemma {:induction false} ToolsGroupsOk(plan: Plan, layer: seq<NodeId>, tools: seq<ToolName>)
    requires Increasing(layer) && Increasing(tools)
    ensures GroupsIn(plan, layer, ToolsGroups(plan, layer, tools)) && GroupsApart(ToolsGroups(plan, layer, tools))
    ensures forall i | 0 <= i < |ToolsGroups(plan, layer, tools)| :: ToolsGroups(plan, layer, tools)[i].tool in tools
  {
    hide GroupOk, ToolGroups, GroupsApart, Leq;
    if tools != [] {
      var init, last := tools[..|tools| - 1], tools[|tools| - 1];
      ToolsGroupsOk(plan, layer, init);
      ToolGroupsOk(plan, layer, last);
      assert tools == init + [last];
      var a, b := ToolsGroups(plan, layer, init), ToolGroups(plan, layer, last);
      forall i, j | 0 <= i < |a| && 0 <= j < |b|
        ensures Listing(a[i].nodes) !! Listing(b[j].nodes)
      {
        assert a[i].tool in init;
        assert a[i].tool != b[j].tool;
        OtherTool(plan, layer, a[i], b[j]);
      }
      ApartConcat(a, b);
    } else {
      NoGroupsApart();
    }
  }

  lemma NoGroupsApart()
    ensures GroupsApart([])
  {
  }

  lemma OtherTool(plan: Plan, layer: seq<NodeId>, a: BatchGroup, b: BatchGroup)
    requires GroupOk(plan, layer, a) && GroupOk(plan, layer, b) && a.tool != b.tool
    ensures Listing(a.nodes) !! Listing(b.nodes)
  {
    hide IsCandidate;
  }

  /** Each group lies in one layer; groups do not share nodes. */
  ghost predicate GroupsOk(plan: Plan, layers: seq<seq<NodeId>>, groups: seq<BatchGroup>) {
    && GroupsApart(groups)
    && forall i | 0 <= i < |groups| :: InSomeLayer(plan, layers, groups[i])
  }

  ghost predicate InSomeLayer(plan: Plan, layers: seq<seq<NodeId>>, group: BatchGroup) {
    exists k :: 0 <= k < |layers| && GroupOk(plan, layers[k], group)
  }

  lemma {:induction false} AllGroupsOk(plan: Plan, deps: Dependencies, effects: map<NodeId, ResolvedEffects>,
      layers: seq<seq<NodeId>>, m: nat)
    requires deps.Keys <= effects.Keys && LayersOk(deps, effects, layers) && m <= |layers|
    ensures GroupsOk(plan, layers[..m], AllGroups(plan, layers[..m]))
  {
    hide GroupOk, LayerGroups, LayersOk, GroupsApart;
    if m == 0 {
      NoGroupsApart();
    } else {
      AllGroupsOk(plan, deps, effects, layers, m - 1);
      assert layers[..m][..m - 1] == layers[..m - 1];
      var a, b := AllGroups(plan, layers[..m - 1]), LayerGroups(plan, layers[m - 1]);
      LayerGroupsOk(plan, deps, effects, layers, m - 1);
      forall i | 0 <= i < |a|
        ensures InSomeLayer(plan, layers[..m], a[i])
        ensures forall j | 0 <= j < |b| :: Listing(a[i].nodes) !! Listing(b[j].nodes)
      {
        var k :| 0 <= k < m - 1 && GroupOk(plan, layers[..m - 1][k], a[i]);
        assert GroupOk(plan, layers[..m][k], a[i]);
        forall j | 0 <= j < |b|
          ensures Listing(a[i].nodes) !! Listing(b[j].nodes)
        {
          OtherLayer(plan, deps, effects, layers, k, m - 1, a[i], b[j]);
        }
      }
      forall j | 0 <= j < |b|
        ensures InSomeLayer(plan, layers[..m], b[j])
      {
        assert GroupOk(plan, layers[..m][m - 1], b[j]);
      }
      ApartConcat(a, b);
    }
  }

  lemma LayerGroupsOk(plan: Plan, deps: Dependencies, effects: map<NodeId, ResolvedEffects>, layers: seq<seq<NodeId>>,
      k: nat)
    requires deps.Keys <= effects.Keys && LayersOk(deps, effects, layers) && k < |layers|
    ensures GroupsIn(plan, layers[k], LayerGroups(plan, layers[k])) && GroupsApart(LayerGroups(plan, layers[k]))
  {
    LayerAt(deps, effects, layers, k);
    ToolsGroupsOk(plan, layers[k], Sorted(BatchTools(plan, layers[k])));
  }

  lemma OtherLayer(plan: Plan, deps: Dependencies, effects: map<NodeId, ResolvedEffects>, layers: seq<seq<NodeId>>,
      i: nat, j: nat, a: BatchGroup, b: BatchGroup)
    requires deps.Keys <= effects.Keys && LayersOk(deps, effects, layers) && i < j < |layers|
    requires GroupOk(plan, layers[i], a) && GroupOk(plan, layers[j], b)
    ensures Listing(a.nodes) !! Listing(b.nodes)
  {
    hide LayersOk;
    forall id | id in Listing(b.nodes)
      ensures id !in Listing(a.nodes)
    {
      NotBefore(deps, effects, layers, i, j, id);
    }
  }

  lemma GroupsAreOk(plan: Plan, templates: Templates, graph: Graph)
    requires GraphOf(plan, templates, graph)
    ensures GroupsOk(plan, graph.layers, AllGroups(plan, graph.layers))
  {
    AllGroupsOk(plan, graph.dependencies, graph.effects, graph.layers, |graph.layers|);
    assert graph.layers[..|graph.layers|] == graph.layers;
  }

  // -------------------------------------------------------------------- units

  function UnitCost(plan: Plan, tool: ToolName, calls: nat): nat {
    var cost := if tool in plan.tools then plan.tools[tool].cost else None;
    var fixed := if cost.Some? && cost.value.fixedMs.Some? then cost.value.fixedMs.value else 0;
    var perCall := if cost.Some? && cost.value.perCallMs.Some? then cost.value.perCallMs.value else 0;
    fixed + perCall * calls
  }

  function GroupUnit(plan: Plan, effects: map<NodeId, ResolvedEffects>, group: BatchGroup): Unit
    requires forall id | id in group.nodes :: id in effects
  {
    Unit(group.nodes, group.tool, true, MergeAll(EffectsIn(effects, group.nodes)),
      UnitCost(plan, group.tool, |group.nodes|))
  }

  function SingleUnit(plan: Plan, effects: map<NodeId, ResolvedEffects>, id: NodeId): Unit
    requires id in Ids(plan.nodes) && id in effects
  {
    Unit([id], ToolOf(plan, id), false, ForEffects(effects[id]), UnitCost(plan, ToolOf(plan, id), 1))
  }

  /** A batch group's unit or a single node's unit. */
  ghost predicate UnitFrom(plan: Plan, effects: map<NodeId, ResolvedEffects>, groups: seq<BatchGroup>, unit: Unit) {
    || (exists g :: 0 <= g < |groups| && (forall id | id in groups[g].nodes :: id in effects)
         && unit == GroupUnit(plan, effects, groups[g]))
    || (exists id :: id in Ids(plan.nodes) && id in effects && unit == SingleUnit(plan, effects, id))
  }

  /** Each node of `done` is in the one unit `unitOf` says. */
  ghost predicate Placement(units: seq<Unit>, unitOf: map<NodeId, nat>) {
    && (forall n | n in unitOf :: unitOf[n] < |units| && n in units[unitOf[n]].members)
    && forall u, n | 0 <= u < |units| && n in units[u].members :: n in unitOf && unitOf[n] == u
  }

  ghost predicate UnitsFrom(plan: Plan, effects: map<NodeId, ResolvedEffects>, groups: seq<BatchGroup>,
      units: seq<Unit>) {
    forall u | 0 <= u < |units| :: UnitFrom(plan, effects, groups, units[u])
  }

  /** The first units are the groups, in order. */
  ghost predicate GroupsFirst(groups: seq<BatchGroup>, units: seq<Unit>) {
    && |groups| <= |units|
    && forall g | 0 <= g < |groups| ::
         units[g].batch && units[g].members == groups[g].nodes && units[g].tool == groups[g].tool
  }

  lemma AddUnit(units: seq<Unit>, unitOf: map<NodeId, nat>, unit: Unit, unitOf': map<NodeId, nat>)
    requires Placement(units, unitOf) && Listing(unit.members) !! unitOf.Keys
    requires unitOf'.Keys == unitOf.Keys + Listing(unit.members)
    requires forall n | n in unitOf' :: unitOf'[n] == if n in unitOf then unitOf[n] else |units|
    ensures Placement(units + [unit], unitOf')
  {
    var units' := units + [unit];
    forall n | n in unitOf'
      ensures unitOf'[n] < |units'| && n in units'[unitOf'[n]].members
    {
    }
    forall u, n | 0 <= u < |units'| && n in units'[u].members
      ensures n in unitOf' && unitOf'[n] == u
    {
      if u == |units| {
        assert n in Listing(unit.members);
      }
    }
  }

  function GroupMembers(groups: seq<BatchGroup>): set<NodeId> {
    if groups == [] then {} else GroupMembers(groups[..|groups| - 1]) + Listing(groups[|groups| - 1].nodes)
  }

  lemma {:induction false} MembersOfGroups(groups: seq<BatchGroup>, n: NodeId)
    ensures n in GroupMembers(groups) <==> exists g :: 0 <= g < |groups| && n in groups[g].nodes
  {
    if groups != [] {
      var init := groups[..|groups| - 1];
      MembersOfGroups(init, n);
      if n in GroupMembers(init) {
        var g :| 0 <= g < |init| && n in init[g].nodes;
        assert n in groups[g].nodes;
      }
      if g :| 0 <= g < |groups| && n in groups[g].nodes {
        if g < |init| {
          assert n in init[g].nodes;
        }
      }
    }
  }

  lemma NextGroupApart(groups: seq<BatchGroup>, g: nat)
    requires GroupsApart(groups) && g < |groups|
    ensures Listing(groups[g].nodes) !! GroupMembers(groups[..g])
    ensures GroupMembers(groups[..g + 1]) == GroupMembers(groups[..g]) + Listing(groups[g].nodes)
  {
    assert groups[..g + 1][..g] == groups[..g];
    forall n | n in GroupMembers(groups[..g])
      ensures n !in Listing(groups[g].nodes)
    {
      MembersOfGroups(groups[..g], n);
      var k :| 0 <= k < g && n in groups[..g][k].nodes;
      assert n in Listing(groups[k].nodes);
    }
  }

  /** One unit per group, its lock merged member by member. */
  method GroupUnits(plan: Plan, effects: map<NodeId, ResolvedEffects>, groups: seq<BatchGroup>)
    returns (units: seq<Unit>, unitOf: map<NodeId, nat>)
    requires GroupsApart(groups) && forall g, id | 0 <= g < |groups| && id in groups[g].nodes :: id in effects
    ensures |units| == |groups| && forall g | 0 <= g < |groups| :: units[g] == GroupUnit(plan, effects, groups[g])
    ensures Placement(units, unitOf) && unitOf.Keys == GroupMembers(groups)
  {
    hide Placement, GroupsApart, GroupMembers, UnitCost, MergeAll;
    units, unitOf := [], map[];
    NothingPlaced();
    for g := 0 to |groups|
      invariant |units| == g && forall k | 0 <= k < g :: units[k] == GroupUnit(plan, effects, groups[k])
      invariant Placement(units, unitOf) && unitOf.Keys == GroupMembers(groups[..g])
    {
      NextGroupApart(groups, g);
      var unit, unitOf' := MakeGroupUnit(plan, effects, groups[g], |units|, unitOf);
      AddUnit(units, unitOf, unit, unitOf');
      units, unitOf := units + [unit], unitOf';
    }
    assert groups[..|groups|] == groups;
  }

  lemma NothingPlaced()
    ensures Placement([], map[]) && GroupMembers([]) == {}
  {
  }

  lemma NothingMerged(effects: map<NodeId, ResolvedEffects>, members: seq<NodeId>)
    requires forall id | id in members :: id in effects
    ensures MergeAll(EffectsIn(effects, members[..0])) == NoLocks
  {
  }

  lemma MergeMore(effects: map<NodeId, ResolvedEffects>, members: seq<NodeId>, i: nat)
    requires i < |members| && forall id | id in members :: id in effects
    ensures MergeAll(EffectsIn(effects, members[..i + 1])) ==
      Merge(MergeAll(EffectsIn(effects, members[..i])), ForEffects(effects[members[i]]))
  {
    hide Merge;
    var before, after := EffectsIn(effects, members[..i]), EffectsIn(effects, members[..i + 1]);
    assert after[..|after| - 1] == before;
  }

  method MakeGroupUnit(plan: Plan, effects: map<NodeId, ResolvedEffects>, group: BatchGroup, index: nat,
      unitOf: map<NodeId, nat>)
    returns (unit: Unit, unitOf': map<NodeId, nat>)
    requires (forall id | id in group.nodes :: id in effects) && Listing(group.nodes) !! unitOf.Keys
    ensures unit == GroupUnit(plan, effects, group)
    ensures unitOf'.Keys == unitOf.Keys + Listing(group.nodes)
    ensures forall n | n in unitOf' :: unitOf'[n] == if n in unitOf then unitOf[n] else index
  {
    hide Merge, MergeAll, ForEffects;
    var lock := NoLocks;
    unitOf' := unitOf;
    var members := group.nodes;
    NothingMerged(effects, members);
    for i := 0 to |members|
      invariant lock == MergeAll(EffectsIn(effects, members[..i]))
      invariant unitOf'.Keys == unitOf.Keys + Listing(members[..i])
      invariant forall n | n in unitOf' :: unitOf'[n] == if n in unitOf then unitOf[n] else index
    {
      assert members[i] in Listing(members);
      MergeMore(effects, members, i);
      ListingMore(members, i);
      lock := Merge(lock, ForEffects(effects[members[i]]));
      unitOf' := unitOf'[members[i] := index];
    }
    assert members[..|members|] == members;
    unit := Unit(members, group.tool, true, lock, UnitCost(plan, group.tool, |members|));
  }

  /** The unit of one node, unless a group took it. */
  method AddSingle(plan: Plan, effects: map<NodeId, ResolvedEffects>, ghost groups: seq<BatchGroup>, units: seq<Unit>,
      unitOf: map<NodeId, nat>, id: NodeId)
    returns (units': seq<Unit>, unitOf': map<NodeId, nat>)
    requires id in Ids(plan.nodes) && id in effects
    requires Placement(units, unitOf) && UnitsFrom(plan, effects, groups, units)
    ensures Placement(units', unitOf') && UnitsFrom(plan, effects, groups, units')
    ensures unitOf'.Keys == unitOf.Keys + {id} && units <= units'
    ensures |units'| + |unitOf| == |units| + |unitOf'|
  {
    hide Placement, UnitsFrom, Ids, SingleUnit, Listing;
    units', unitOf' := units, unitOf;
    if id !in unitOf {
      var unit := SingleUnit(plan, effects, id);
      SingleFrom(plan, effects, groups, units, id);
      unitOf' := unitOf[id := |units|];
      AddUnit(units, unitOf, unit, unitOf');
      units' := units + [unit];
    }
  }

  /** A unit for each node no group took, in id order. */
  method SingleUnits(plan: Plan, effects: map<NodeId, ResolvedEffects>, ghost groups: seq<BatchGroup>,
      units0: seq<Unit>, unitOf0: map<NodeId, nat>)
    returns (units: seq<Unit>, unitOf: map<NodeId, nat>)
    requires unitOf0.Keys <= Ids(plan.nodes) <= effects.Keys
    requires Placement(units0, unitOf0) && UnitsFrom(plan, effects, groups, units0)
    ensures Placement(units, unitOf) && UnitsFrom(plan, effects, groups, units)
    ensures unitOf.Keys == Ids(plan.nodes) && units0 <= units
    ensures |units| + |unitOf0| == |units0| + |Ids(plan.nodes)|
  {
    hide *;
    var ids := Sorted(Ids(plan.nodes));
    units, unitOf := units0, unitOf0;
    for i := 0 to |ids|
      invariant Placement(units, unitOf) && UnitsFrom(plan, effects, groups, units) && units0 <= units
      invariant unitOf.Keys <= Ids(plan.nodes) && forall k | 0 <= k < i :: ids[k] in unitOf
      invariant |units| + |unitOf0| == |units0| + |unitOf|
    {
      assert ids[i] in Ids(plan.nodes);
      units, unitOf := AddSingle(plan, effects, groups, units, unitOf, ids[i]);
    }
    assert Ids(plan.nodes) <= unitOf.Keys by {
      forall id | id in Ids(plan.nodes)
        ensures id in unitOf
      {
        var k :| 0 <= k < |ids| && ids[k] == id;
      }
    }
    KeyCount(unitOf);
  }

  /** A unit per group, then one per remaining node. */
  method BuildUnits(plan: Plan, effects: map<NodeId, ResolvedEffects>, groups: seq<BatchGroup>)
    returns (units: seq<Unit>, unitOf: map<NodeId, nat>)
    requires GroupsApart(groups) && GroupMembers(groups) <= Ids(plan.nodes) <= effects.Keys
    ensures Placement(units, unitOf) && unitOf.Keys == Ids(plan.nodes) && UnitsFrom(plan, effects, groups, units)
    ensures GroupsFirst(groups, units)
    ensures |units| + |GroupMembers(groups)| == |groups| + |Ids(plan.nodes)|
  {
    hide Placement, GroupsApart, GroupMembers, UnitsFrom, Ids, GroupUnit;
    AllMembers(groups);
    units, unitOf := GroupUnits(plan, effects, groups);
    GroupUnitsFrom(plan, effects, groups, units);
    GroupUnitsFirst(plan, effects, groups, units);
    KeyCount(unitOf);
    units, unitOf := SingleUnits(plan, effects, groups, units, unitOf);
  }

  lemma GroupUnitsFirst(plan: Plan, effects: map<NodeId, ResolvedEffects>, groups: seq<BatchGroup>, units: seq<Unit>)
    requires forall g, id | 0 <= g < |groups| && id in groups[g].nodes :: id in effects
    requires |units| == |groups| && forall g | 0 <= g < |groups| :: units[g] == GroupUnit(plan, effects, groups[g])
    ensures GroupsFirst(groups, units)
  {
    hide MergeAll, EffectsIn, UnitCost;
  }

  lemma KeyCount(m: map<NodeId, nat>)
    ensures |m| == |m.Keys|
  {
  }

  lemma AllMembers(groups: seq<BatchGroup>)
    ensures forall g, id | 0 <= g < |groups| && id in groups[g].nodes :: id in GroupMembers(groups)
  {
    forall g, id | 0 <= g < |groups| && id in groups[g].nodes
      ensures id in GroupMembers(groups)
    {
      MembersOfGroups(groups, id);
    }
  }

  lemma SingleFrom(plan: Plan, effects: map<NodeId, ResolvedEffects>, groups: seq<BatchGroup>, units: seq<Unit>,
      id: NodeId)
    requires id in Ids(plan.nodes) && id in effects && UnitsFrom(plan, effects, groups, units)
    ensures UnitsFrom(plan, effects, groups, units + [SingleUnit(plan, effects, id)])
    ensures Listing(SingleUnit(plan, effects, id).members) == {id}
  {
    assert UnitFrom(plan, effects, groups, SingleUnit(plan, effects, id));
  }

  lemma GroupUnitsFrom(plan: Plan, effects: map<NodeId, ResolvedEffects>, groups: seq<BatchGroup>, units: seq<Unit>)
    requires forall g, id | 0 <= g < |groups| && id in groups[g].nodes :: id in effects
    requires |units| == |groups| && forall g | 0 <= g < |groups| :: units[g] == GroupUnit(plan, effects, groups[g])
    ensures UnitsFrom(plan, effects, groups, units)
  {
    hide GroupUnit;
  }

  // --------------------------------------------------------------- unit graph

  /** The other units that node `n`'s dependencies live in. */
  function Targets(deps: Dependencies, unitOf: map<NodeId, nat>, n: NodeId): set<nat>
    requires n in deps && n in unitOf && deps[n] <= unitOf.Keys
  {
    set d | d in deps[n] && unitOf[d] != unitOf[n] :: unitOf[d]
  }

  ghost predicate Covered(deps: Dependencies, unitOf: map<NodeId, nat>, units: nat) {
    && deps.Keys == unitOf.Keys
    && (forall n | n in deps :: deps[n] <= deps.Keys)
    && forall n | n in unitOf :: unitOf[n] < units
  }

  ghost predicate EdgeFrom(deps: Dependencies, unitOf: map<NodeId, nat>, done: set<NodeId>, n: NodeId, u: nat, v: nat) {
    n in done && n in deps && n in unitOf && deps[n] <= unitOf.Keys && unitOf[n] == u && v in Targets(deps, unitOf, n)
  }

  /** The edges that the nodes of `done` contribute. */
  ghost predicate Wired(deps: Dependencies, unitOf: map<NodeId, nat>, done: set<NodeId>, edges: seq<set<nat>>) {
    forall u: nat, v: nat ::
      u < |edges| && v in edges[u] <==> u < |edges| && exists n :: EdgeFrom(deps, unitOf, done, n, u, v)
  }

  /** The second matrix is the first transposed. */
  ghost predicate Transposed(edges: seq<set<nat>>, back: seq<set<nat>>) {
    && |edges| == |back|
    && (forall u, v | 0 <= u < |edges| && 0 <= v < |edges| :: v in back[u] <==> u in edges[v])
    && (forall u, v | 0 <= u < |edges| && v in edges[u] :: v < |edges|)
    && (forall u, v | 0 <= u < |edges| && v in back[u] :: v < |edges|)
  }

  /** Adds edges from `u` to every unit of `targets`, both ways. */
  method AddEdges(edges: seq<set<nat>>, back: seq<set<nat>>, u: nat, targets: set<nat>)
        returns (edges': seq<set<nat>>, back': seq<set<nat>>)
    requires Transposed(edges, back) && u < |edges| && forall v | v in targets :: v < |edges|
    ensures Transposed(edges', back') && edges' == edges[u := edges[u] + targets]
  {
    edges', back' := edges, back;
    var todo := targets;
    assert edges[u] + (targets - todo) == edges[u];
    while todo != {}
      invariant todo <= targets && Transposed(edges', back')
      invariant |edges'| == |edges| && edges' == edges[u := edges[u] + (targets - todo)]
    {
      var v :| v in todo;
      todo := todo - {v};
      edges' := edges'[u := edges'[u] + {v}];
      back' := back'[v := back'[v] + {u}];
      assert edges'[u] == edges[u] + (targets - todo);
    }
    assert targets - {} == targets;
  }

  lemma WiredStep(deps: Dependencies, unitOf: map<NodeId, nat>, done: set<NodeId>, edges: seq<set<nat>>, n: NodeId)
    requires Covered(deps, unitOf, |edges|) && Wired(deps, unitOf, done, edges) && n in deps
    ensures unitOf[n] < |edges| && forall v | v in Targets(deps, unitOf, n) :: v < |edges|
    ensures Wired(deps, unitOf, done + {n}, edges[unitOf[n] := edges[unitOf[n]] + Targets(deps, unitOf, n)])
  {
    var edges' := edges[unitOf[n] := edges[unitOf[n]] + Targets(deps, unitOf, n)];
    forall u: nat, v: nat
      ensures u < |edges'| && v in edges'[u] <==>
        u < |edges'| && exists m :: EdgeFrom(deps, unitOf, done + {n}, m, u, v)
    {
      if u < |edges'| && v in edges'[u] {
        if v in edges[u] {
          var m :| EdgeFrom(deps, unitOf, done, m, u, v);
          assert EdgeFrom(deps, unitOf, done + {n}, m, u, v);
        } else {
          assert EdgeFrom(deps, unitOf, done + {n}, n, u, v);
        }
      }
      if u < |edges'| {
        if m :| EdgeFrom(deps, unitOf, done + {n}, m, u, v) {
          if m != n {
            assert EdgeFrom(deps, unitOf, done, m, u, v);
          }
        }
      }
    }
  }

  /** Unit dependencies from node dependencies. */
  method WireUnits(deps: Dependencies, unitOf: map<NodeId, nat>, units: nat)
        returns (unitDeps: seq<set<nat>>, unitDependents: seq<set<nat>>)
    requires Covered(deps, unitOf, units)
    ensures |unitDeps| == units && Transposed(unitDeps, unitDependents)
    ensures Wired(deps, unitOf, deps.Keys, unitDeps)
  {
    hide Wired, Targets;
    unitDeps := seq(units, _ => {});
    unitDependents := seq(units, _ => {});
    assert Wired(deps, unitOf, {}, unitDeps) by {
      NothingWired(deps, unitOf, unitDeps);
    }
    var todo := deps.Keys;
    assert deps.Keys - todo == {};
    while todo != {}
      invariant todo <= deps.Keys && |unitDeps| == units && Transposed(unitDeps, unitDependents)
      invariant Wired(deps, unitOf, deps.Keys - todo, unitDeps)
    {
      var n :| n in todo;
      WiredStep(deps, unitOf, deps.Keys - todo, unitDeps, n);
      assert deps.Keys - (todo - {n}) == deps.Keys - todo + {n};
      unitDeps, unitDependents := AddEdges(unitDeps, unitDependents, unitOf[n], Targets(deps, unitOf, n));
      todo := todo - {n};
    }
    assert deps.Keys - {} == deps.Keys;
  }

  lemma NothingWired(deps: Dependencies, unitOf: map<NodeId, nat>, edges: seq<set<nat>>)
    requires forall u | 0 <= u < |edges| :: edges[u] == {}
    ensures Wired(deps, unitOf, {}, edges)
  {
  }

  // ------------------------------------------------------------------- layers

  lemma CanRunSymmetric(a: ResolvedEffects, b: ResolvedEffects)
    ensures a.CanRunWith(b) <==> b.CanRunWith(a)
  {
  }

  /** Different members of one layer can run together. */
  lemma LayerMates(deps: Dependencies, effects: map<NodeId, ResolvedEffects>, layers: seq<seq<NodeId>>, k: nat,
      x: NodeId, y: NodeId)
    requires deps.Keys <= effects.Keys && LayersOk(deps, effects, layers) && k < |layers|
    requires x in layers[k] && y in layers[k] && x != y
    ensures x in effects && y in effects && effects[x].CanRunWith(effects[y])
  {
    LayerAt(deps, effects, layers, k);
    var i :| 0 <= i < |layers[k]| && layers[k][i] == x;
    var j :| 0 <= j < |layers[k]| && layers[k][j] == y;
    CanRunSymmetric(effects[x], effects[y]);
  }

  /** The layer all members of a unit lie in. */
  ghost predicate UnitLayer(layers: seq<seq<NodeId>>, unit: Unit, k: nat) {
    k < |layers| && unit.members != [] && forall n | n in unit.members :: n in layers[k]
  }

  ghost predicate HasLayer(layers: seq<seq<NodeId>>, unit: Unit) {
    exists k: nat :: UnitLayer(layers, unit, k)
  }

  lemma UnitsHaveLayers(plan: Plan, templates: Templates, graph: Graph, groups: seq<BatchGroup>, unit: Unit)
    requires GraphOf(plan, templates, graph) && GroupsOk(plan, graph.layers, groups)
      && UnitFrom(plan, graph.effects, groups, unit)
    ensures HasLayer(graph.layers, unit)
  {
    hide LayersOk, GroupUnit, IsCandidate;
    if g :| 0 <= g < |groups| && (forall id | id in groups[g].nodes :: id in graph.effects)
            && unit == GroupUnit(plan, graph.effects, groups[g]) {
      assert InSomeLayer(plan, graph.layers, groups[g]);
      var k :| 0 <= k < |graph.layers| && GroupOk(plan, graph.layers[k], groups[g]);
      GroupUnitMembers(plan, graph.effects, groups[g]);
      assert UnitLayer(graph.layers, unit, k);
    } else {
      var id :| id in Ids(plan.nodes) && id in graph.effects && unit == SingleUnit(plan, graph.effects, id);
      EmittedHasLayer(graph.layers, id);
      var k :| 0 <= k < |graph.layers| && id in graph.layers[k];
      assert UnitLayer(graph.layers, unit, k);
    }
  }

  lemma GroupUnitMembers(plan: Plan, effects: map<NodeId, ResolvedEffects>, group: BatchGroup)
    requires forall id | id in group.nodes :: id in effects
    ensures GroupUnit(plan, effects, group).members == group.nodes && GroupUnit(plan, effects, group).batch
      && GroupUnit(plan, effects, group).tool == group.tool
  {
  }

  ghost function UnitLayerOf(layers: seq<seq<NodeId>>, unit: Unit): (k: nat)
    requires HasLayer(layers, unit)
    ensures UnitLayer(layers, unit, k)
  {
    var k: nat :| UnitLayer(layers, unit, k);
    k
  }

  /** The layer of a node is the layer of its unit. */
  lemma LayerOfMember(deps: Dependencies, effects: map<NodeId, ResolvedEffects>, layers: seq<seq<NodeId>>, unit: Unit,
      k: nat, n: NodeId, j: nat)
    requires deps.Keys <= effects.Keys && LayersOk(deps, effects, layers)
    requires UnitLayer(layers, unit, k) && n in unit.members && j < |layers| && n in layers[j]
    ensures j == k
  {
    LayersDistinct(deps, effects, layers, n);
  }

  // ------------------------------------------------------------ configuration

  /** What the caller of a run chooses. */
  datatype Options = Options(serial: bool, maxConcurrency: Option<nat>, failFast: bool, cancellable: bool)

  const MAX_KEY: nat := 0xFFFF_FFFF_FFFF_FFFF

  function ToolLimits(plan: Plan): map<ToolName, nat> {
    map tool | tool in plan.tools && plan.tools[tool].maxConcurrency.Some? :: plan.tools[tool].maxConcurrency.value
  }

  /** Declared effects do not both read and write one resource. */
  ghost predicate ReadsApartFromWrites(effects: map<NodeId, ResolvedEffects>) {
    forall n | n in effects && effects[n].declared :: effects[n].readSet !! effects[n].writeSet
  }

  /** The engine's fixed parts describe `plan`, cut into units from `groups`. */
  ghost predicate BuiltFor(host: Host, plan: Plan, graph: Graph, groups: seq<BatchGroup>, c: Config) {
    && c.program.host == host && c.program.tools == plan.tools && c.program.nodes == Index(plan.nodes)
    && Placement(c.program.units, c.program.unitOf) && c.program.unitOf.Keys == Ids(plan.nodes)
    && UnitsFrom(plan, graph.effects, groups, c.program.units) && GroupsFirst(groups, c.program.units)
    && |c.unitDeps| == Units(c) && Transposed(c.unitDeps, c.unitDependents)
    && Wired(graph.dependencies, c.program.unitOf, graph.dependencies.Keys, c.unitDeps)
    && |c.readyKeys| == Units(c)
  }

  lemma BuiltParts(host: Host, plan: Plan, graph: Graph, groups: seq<BatchGroup>, c: Config)
    requires BuiltFor(host, plan, graph, groups, c)
    ensures c.program.host == host && c.program.tools == plan.tools && c.program.nodes == Index(plan.nodes)
    ensures GroupsFirst(groups, c.program.units)
  {
  }

  lemma MemberTool(plan: Plan, effects: map<NodeId, ResolvedEffects>, layers: seq<seq<NodeId>>, groups: seq<BatchGroup>,
      unit: Unit, n: NodeId)
    requires GroupsOk(plan, layers, groups) && UnitFrom(plan, effects, groups, unit) && n in unit.members
    ensures n in Ids(plan.nodes) && ToolOf(plan, n) == unit.tool
    ensures unit.batch ==> NodeOf(plan.nodes, n).forEach.None?
  {
    hide GroupUnit, Ids;
    if g :| 0 <= g < |groups| && (forall id | id in groups[g].nodes :: id in effects)
            && unit == GroupUnit(plan, effects, groups[g]) {
      assert InSomeLayer(plan, layers, groups[g]);
      var k :| 0 <= k < |layers| && GroupOk(plan, layers[k], groups[g]);
      GroupUnitMembers(plan, effects, groups[g]);
    }
  }

  lemma MembersDistinct(plan: Plan, effects: map<NodeId, ResolvedEffects>, layers: seq<seq<NodeId>>,
      groups: seq<BatchGroup>, unit: Unit)
    requires GroupsOk(plan, layers, groups) && UnitFrom(plan, effects, groups, unit)
    ensures forall i, j | 0 <= i < j < |unit.members| :: unit.members[i] != unit.members[j]
    ensures !unit.batch ==> |unit.members| == 1
  {
    hide GroupUnit, Ids, IsCandidate, Leq;
    if g :| 0 <= g < |groups| && (forall id | id in groups[g].nodes :: id in effects)
            && unit == GroupUnit(plan, effects, groups[g]) {
      assert InSomeLayer(plan, layers, groups[g]);
      var k :| 0 <= k < |layers| && GroupOk(plan, layers[k], groups[g]);
      GroupUnitMembers(plan, effects, groups[g]);
    }
  }

  lemma IndexIsNodeOf(plan: Plan, id: NodeId)
    requires id in Ids(plan.nodes)
    ensures id in Index(plan.nodes) && Index(plan.nodes)[id] == NodeOf(plan.nodes, id)
  {
  }

  lemma BuiltProgramOk(host: Host, plan: Plan, templates: Templates, graph: Graph, groups: seq<BatchGroup>, c: Config)
    requires WellFormedPlan(plan) && GraphOf(plan, templates, graph) && GroupsOk(plan, graph.layers, groups)
      && BuiltFor(host, plan, graph, groups, c)
    ensures ProgramOk(c.program)
  {
    hide WellFormedPlan, GraphOf, GroupsOk, UnitFrom, Wired, Transposed, CollectRefs, NodeDeps, Index, Ids, NodeOf;
    var p := c.program;
    IndexKeys(plan);
    forall n | n in p.nodes
      ensures p.nodes[n].id == n && CollectRefs(p.nodes[n].input).Ok?
    {
      IndexIsNodeOf(plan, n);
      ValidAt(plan, n);
    }
    forall u | 0 <= u < |p.units|
      ensures UnitOk(p, p.units[u])
    {
      MembersDistinct(plan, graph.effects, graph.layers, groups, p.units[u]);
      forall n | n in p.units[u].members
        ensures n in p.nodes && p.nodes[n].tool == p.units[u].tool && (p.units[u].batch ==> p.nodes[n].forEach.None?)
      {
        MemberTool(plan, graph.effects, graph.layers, groups, p.units[u], n);
        IndexIsNodeOf(plan, n);
      }
    }
  }

  lemma IndexKeys(plan: Plan)
    ensures Index(plan.nodes).Keys == Ids(plan.nodes)
  {
  }

  // Every unit ranks at its layer.

  ghost function UnitLayers(layers: seq<seq<NodeId>>, units: seq<Unit>): (rank: seq<nat>)
    requires forall u | 0 <= u < |units| :: HasLayer(layers, units[u])
    ensures |rank| == |units| && forall u | 0 <= u < |units| :: UnitLayer(layers, units[u], rank[u])
  {
    seq(|units|, u requires 0 <= u < |units| => UnitLayerOf(layers, units[u]))
  }

  lemma AllUnitsHaveLayers(plan: Plan, templates: Templates, graph: Graph, groups: seq<BatchGroup>, units: seq<Unit>)
    requires GraphOf(plan, templates, graph) && GroupsOk(plan, graph.layers, groups)
      && UnitsFrom(plan, graph.effects, groups, units)
    ensures forall u | 0 <= u < |units| :: HasLayer(graph.layers, units[u])
  {
    hide GraphOf, GroupsOk, UnitFrom;
    forall u | 0 <= u < |units|
      ensures HasLayer(graph.layers, units[u])
    {
      UnitsHaveLayers(plan, templates, graph, groups, units[u]);
    }
  }

  /** A dependency's unit lies in an earlier layer. */
  lemma TargetBelow(deps: Dependencies, effects: map<NodeId, ResolvedEffects>, layers: seq<seq<NodeId>>,
      units: seq<Unit>, unitOf: map<NodeId, nat>, rank: seq<nat>, n: NodeId, d: NodeId)
    requires deps.Keys <= effects.Keys && LayersOk(deps, effects, layers)
    requires Placement(units, unitOf) && |rank| == |units|
      && forall u | 0 <= u < |units| :: UnitLayer(layers, units[u], rank[u])
    requires n in deps && n in unitOf && d in deps[n] && d in unitOf
    ensures rank[unitOf[d]] < rank[unitOf[n]] && unitOf[d] != unitOf[n]
  {
    hide LayersOk, LayerOk;
    var u, v := unitOf[n], unitOf[d];
    assert UnitLayer(layers, units[u], rank[u]) && UnitLayer(layers, units[v], rank[v]);
    DependencyEarlier(deps, effects, layers, rank[u], n, d);
    var i :| 0 <= i < rank[u] && d in layers[i];
    LayerOfMember(deps, effects, layers, units[v], rank[v], d, i);
  }

  lemma BuiltRank(host: Host, plan: Plan, templates: Templates, graph: Graph, groups: seq<BatchGroup>, c: Config,
      rank: seq<nat>)
    requires GraphOf(plan, templates, graph) && BuiltFor(host, plan, graph, groups, c)
      && Covered(graph.dependencies, c.program.unitOf, Units(c))
    requires |rank| == Units(c) && forall u | 0 <= u < Units(c) :: UnitLayer(graph.layers, c.program.units[u], rank[u])
    ensures UnitRank(c, rank)
  {
    hide LayersOk, Placement, UnitsFrom, Index, UnitLayer;
    forall u, d | 0 <= u < Units(c) && d in c.unitDeps[u]
      ensures d < Units(c) && rank[d] < rank[u]
    {
      var n :| EdgeFrom(graph.dependencies, c.program.unitOf, graph.dependencies.Keys, n, u, d);
      var e :| e in graph.dependencies[n] && c.program.unitOf[e] != c.program.unitOf[n] && d == c.program.unitOf[e];
      TargetBelow(graph.dependencies, graph.effects, graph.layers, c.program.units, c.program.unitOf, rank, n, e);
    }
  }

  lemma BuiltCovers(host: Host, plan: Plan, templates: Templates, graph: Graph, groups: seq<BatchGroup>, c: Config,
      rank: seq<nat>)
    requires WellFormedPlan(plan) && GraphOf(plan, templates, graph) && BuiltFor(host, plan, graph, groups, c)
      && Covered(graph.dependencies, c.program.unitOf, Units(c))
    requires |rank| == Units(c) && forall u | 0 <= u < Units(c) :: UnitLayer(graph.layers, c.program.units[u], rank[u])
    ensures CoversData(c)
  {
    hide LayersOk, UnitsFrom, UnitLayer, DataDeps, WellFormedPlan, NodeOf, Index, Ids;
    forall u, d | 0 <= u < Units(c) && DependsOn(c.program, u, d)
      ensures d in c.program.unitOf && c.program.unitOf[d] in c.unitDeps[u]
    {
      var n :| n in c.program.units[u].members && d in DataDeps(c.program.nodes[n]);
      IndexIsNodeOf(plan, n);
      assert d in graph.dependencies[n];
      TargetBelow(graph.dependencies, graph.effects, graph.layers, c.program.units, c.program.unitOf, rank, n, d);
      assert c.program.unitOf[d] in Targets(graph.dependencies, c.program.unitOf, n);
      assert EdgeFrom(graph.dependencies, c.program.unitOf, graph.dependencies.Keys, n, u, c.program.unitOf[d]);
    }
  }

  lemma UnitLockOk(plan: Plan, templates: Templates, graph: Graph, groups: seq<BatchGroup>, unit: Unit)
    requires CoherentTools(plan) && GraphOf(plan, templates, graph) && GroupsOk(plan, graph.layers, groups)
      && UnitFrom(plan, graph.effects, groups, unit)
    requires ReadsApartFromWrites(graph.effects)
    ensures !SelfConflicting(unit.lock)
  {
    hide LayersOk, IsCandidate, MergeAll;
    EffectsCoherent(plan, templates);
    if g :| 0 <= g < |groups| && (forall id | id in groups[g].nodes :: id in graph.effects)
            && unit == GroupUnit(plan, graph.effects, groups[g]) {
      assert InSomeLayer(plan, graph.layers, groups[g]);
      var k :| 0 <= k < |graph.layers| && GroupOk(plan, graph.layers[k], groups[g]);
      GroupLockOk(plan, graph.dependencies, graph.effects, graph.layers, k, groups[g]);
    }
  }

  lemma GroupLockOk(plan: Plan, deps: Dependencies, effects: map<NodeId, ResolvedEffects>, layers: seq<seq<NodeId>>,
      k: nat, group: BatchGroup)
    requires deps.Keys <= effects.Keys && LayersOk(deps, effects, layers) && k < |layers|
      && GroupOk(plan, layers[k], group)
    requires ReadsApartFromWrites(effects) && forall n | n in effects :: effects[n].Coherent()
    requires forall id | id in group.nodes :: id in effects
    ensures forall i | 0 <= i < |group.nodes| :: effects[group.nodes[i]].declared
    ensures !SelfConflicting(MergeAll(EffectsIn(effects, group.nodes)))
  {
    hide LayersOk, IsCandidate, MergeAll, LayerOk, Leq;
    var nodes := group.nodes;
    var members := EffectsIn(effects, nodes);
    forall i, j | 0 <= i < j < |nodes|
      ensures members[i].CanRunWith(members[j])
    {
      assert Less(nodes[i], nodes[j]);
      LayerMates(deps, effects, layers, k, nodes[i], nodes[j]);
    }
    forall i | 0 <= i < |nodes|
      ensures members[i].declared
    {
      if i == 0 {
        assert members[0].CanRunWith(members[1]);
      } else {
        assert members[0].CanRunWith(members[i]);
      }
    }
    BatchLockDisjoint(members);
  }

  lemma GraphCovered(plan: Plan, templates: Templates, graph: Graph, unitOf: map<NodeId, nat>, units: seq<Unit>)
    requires WellFormedPlan(plan) && GraphOf(plan, templates, graph) && Placement(units, unitOf)
      && unitOf.Keys == Ids(plan.nodes)
    ensures Covered(graph.dependencies, unitOf, |units|)
  {
    hide GraphOf, WellFormedPlan, Placement, Ids;
    PlacementBound(units, unitOf);
    GraphKeys(plan, templates, graph);
    GraphClosed(plan, templates, graph);
  }

  lemma GraphClosed(plan: Plan, templates: Templates, graph: Graph)
    requires WellFormedPlan(plan) && GraphOf(plan, templates, graph)
    ensures forall n | n in graph.dependencies :: graph.dependencies[n] <= graph.dependencies.Keys
  {
    hide LayersOk, NodeDeps, CollectRefs, EffectsFor, NodeOf, Ids, WellFormedPlan;
    forall n | n in graph.dependencies
      ensures graph.dependencies[n] <= graph.dependencies.Keys
    {
      ValidAt(plan, n);
    }
  }

  /** What `Engine::new` builds from a valid plan satisfies everything a run
      needs: units partition the nodes, each in one layer, with an acyclic unit
      graph that covers every reference. */
  lemma BuiltIsOk(host: Host, plan: Plan, templates: Templates, graph: Graph, groups: seq<BatchGroup>, c: Config)
    requires WellFormedPlan(plan) && GraphOf(plan, templates, graph) && GroupsOk(plan, graph.layers, groups)
      && BuiltFor(host, plan, graph, groups, c)
    requires ReadsApartFromWrites(graph.effects)
    ensures ConfigOk(c)
    ensures exists rank :: UnitRank(c, rank) && DataRank(c.program, rank)
  {
    hide WellFormedPlan, GraphOf, GroupsOk, UnitFrom, Wired, Placement, Index, ProgramOk, Covered, UnitLayer, HasLayer,
      UnitRank, CoversData, DataRank, Locks.SelfConflicting;
    BuiltProgramOk(host, plan, templates, graph, groups, c);
    GraphCovered(plan, templates, graph, c.program.unitOf, c.program.units);
    AllUnitsHaveLayers(plan, templates, graph, groups, c.program.units);
    var rank := UnitLayers(graph.layers, c.program.units);
    BuiltRank(host, plan, templates, graph, groups, c, rank);
    BuiltCovers(host, plan, templates, graph, groups, c, rank);
    RankCovers(c, rank);
    PlanCoherent(plan);
    forall u | 0 <= u < Units(c)
      ensures !SelfConflicting(c.program.units[u].lock)
    {
      UnitLockOk(plan, templates, graph, groups, c.program.units[u]);
    }
  }

  lemma PlanCoherent(plan: Plan)
    requires WellFormedPlan(plan)
    ensures CoherentTools(plan)
  {
  }

  lemma RankCovers(c: Config, rank: seq<nat>)
    requires ProgramOk(c.program) && UnitRank(c, rank) && CoversData(c)
    ensures DataRank(c.program, rank)
  {
    hide DependsOn, UnitOk;
  }

  // ------------------------------------------------------------- serial order

  function Flatten(layers: seq<seq<NodeId>>): seq<NodeId> {
    if layers == [] then [] else Flatten(layers[..|layers| - 1]) + layers[|layers| - 1]
  }

  ghost predicate NoRepeats(nodes: seq<NodeId>) {
    forall i, j | 0 <= i < j < |nodes| :: nodes[i] != nodes[j]
  }

  lemma {:induction false} NoRepeatsCount(nodes: seq<NodeId>)
    requires NoRepeats(nodes)
    ensures |Listing(nodes)| == |nodes|
  {
    if nodes != [] {
      var init, last := nodes[..|nodes| - 1], nodes[|nodes| - 1];
      NoRepeatsCount(init);
      assert nodes == init + [last];
      assert Listing(nodes) == Listing(init) + {last};
      assert last !in Listing(init);
    }
  }

  /** Each node once, after everything it depends on. */
  ghost predicate Topological(deps: Dependencies, nodes: seq<NodeId>) {
    && NoRepeats(nodes)
    && forall i | 0 <= i < |nodes| :: nodes[i] in deps && deps[nodes[i]] <= Listing(nodes[..i])
  }

  lemma TopologicalAppend(deps: Dependencies, before: seq<NodeId>, layer: seq<NodeId>)
    requires Topological(deps, before) && NoRepeats(layer)
    requires forall n | n in layer :: n in deps && n !in Listing(before) && deps[n] <= Listing(before)
    ensures Topological(deps, before + layer)
  {
    var after := before + layer;
    forall i | 0 <= i < |after|
      ensures after[i] in deps && deps[after[i]] <= Listing(after[..i])
    {
      if i < |before| {
        assert after[..i] == before[..i];
      } else {
        assert after[..i] == before + layer[..i - |before|];
        assert after[i] in layer;
        assert forall d | d in Listing(before) :: d in after[..i];
      }
    }
    forall i, j | 0 <= i < j < |after|
      ensures after[i] != after[j]
    {
      if i < |before| <= j {
        assert after[j] in layer && after[i] in Listing(before);
      }
    }
  }

  lemma {:induction false} FlattenTopological(deps: Dependencies, effects: map<NodeId, ResolvedEffects>,
      layers: seq<seq<NodeId>>, m: nat)
    requires deps.Keys <= effects.Keys && LayersOk(deps, effects, layers) && m <= |layers|
    ensures Topological(deps, Flatten(layers[..m])) && Listing(Flatten(layers[..m])) == Emitted(layers[..m])
  {
    hide LayersOk, Leq, Topological;
    if m == 0 {
      EmptyTopological(deps);
    } else {
      FlattenTopological(deps, effects, layers, m - 1);
      assert layers[..m][..m - 1] == layers[..m - 1];
      LayerAt(deps, effects, layers, m - 1);
      var before, layer := Flatten(layers[..m - 1]), layers[m - 1];
      assert NoRepeats(layer) by {
        LayerNoRepeats(deps, effects, Emitted(layers[..m - 1]), layer);
      }
      TopologicalAppend(deps, before, layer);
      assert Listing(before + layer) == Listing(before) + Members(layer);
    }
  }

  lemma EmptyTopological(deps: Dependencies)
    ensures Topological(deps, [])
  {
  }

  lemma LayerNoRepeats(deps: Dependencies, effects: map<NodeId, ResolvedEffects>, before: set<NodeId>,
      layer: seq<NodeId>)
    requires deps.Keys <= effects.Keys && LayerOk(deps, effects, before, layer)
    ensures NoRepeats(layer)
  {
    hide Leq;
  }

  /** Unit `u` holds the node at its position in the order. */
  ghost predicate Positions(flat: seq<NodeId>, unitOf: map<NodeId, nat>, position: seq<nat>) {
    && (forall u | 0 <= u < |position| :: position[u] < |flat| && flat[position[u]] in unitOf
         && unitOf[flat[position[u]]] == u)
    && forall i | 0 <= i < |flat| :: flat[i] in unitOf && unitOf[flat[i]] < |position| && position[unitOf[flat[i]]] == i
  }

  ghost predicate Inhabited(unitOf: map<NodeId, nat>, u: nat) {
    exists n :: n in unitOf && unitOf[n] == u
  }

  /** Serial keys: the inverted position in the flattened layers. */
  method SerialKeys(layers: seq<seq<NodeId>>, unitOf: map<NodeId, nat>, units: nat)
        returns (keys: seq<nat>, ghost position: seq<nat>)
    requires |Flatten(layers)| <= MAX_KEY
    requires NoRepeats(Flatten(layers)) && Listing(Flatten(layers)) == unitOf.Keys
    requires forall m, n | m in unitOf && n in unitOf && unitOf[m] == unitOf[n] :: m == n
    requires forall n | n in unitOf :: unitOf[n] < units
    requires forall u | 0 <= u < units :: Inhabited(unitOf, u)
    ensures |keys| == units
      && forall i | 0 <= i < |Flatten(layers)| ::
           unitOf[Flatten(layers)[i]] < units && keys[unitOf[Flatten(layers)[i]]] == MAX_KEY - i
    ensures |position| == units && Positions(Flatten(layers), unitOf, position)
    ensures forall u | 0 <= u < units :: keys[u] == MAX_KEY - position[u]
  {
    var flat := Flatten(layers);
    var order: map<nat, nat> := map[];
    for i := 0 to |flat|
      invariant forall k | 0 <= k < i :: flat[k] in unitOf && unitOf[flat[k]] in order && order[unitOf[flat[k]]] == k
      invariant forall u | u in order :: order[u] < i && flat[order[u]] in unitOf && unitOf[flat[order[u]]] == u
    {
      assert flat[i] in Listing(flat);
      order := order[unitOf[flat[i]] := i];
    }
    forall u | 0 <= u < units
      ensures u in order
    {
      assert Inhabited(unitOf, u);
      var n :| n in unitOf && unitOf[n] == u;
      assert n in Listing(flat);
      var i :| 0 <= i < |flat| && flat[i] == n;
    }
    position := seq(units, u requires 0 <= u < units => order[u]);
    keys := seq(units, u requires 0 <= u < units => MAX_KEY - if u in order then order[u] else MAX_KEY);
  }

  lemma PositionsSerial(host: Host, plan: Plan, templates: Templates, graph: Graph, groups: seq<BatchGroup>, c: Config,
      position: seq<nat>)
    requires GraphOf(plan, templates, graph) && BuiltFor(host, plan, graph, groups, c)
    requires |position| == Units(c) && Positions(Flatten(graph.layers), c.program.unitOf, position)
      && |Flatten(graph.layers)| <= MAX_KEY
    requires forall u | 0 <= u < Units(c) :: c.readyKeys[u] == MAX_KEY - position[u]
    requires c.globalLimit == Some(1) && forall tool | tool in c.toolLimits :: c.toolLimits[tool] > 0
    ensures Serial(c, position)
  {
    hide LayersOk, UnitsFrom, Index, Placement, Targets;
    var flat := Flatten(graph.layers);
    FlattenTopological(graph.dependencies, graph.effects, graph.layers, |graph.layers|);
    assert graph.layers[..|graph.layers|] == graph.layers;
    hide Flatten;
    forall u, d | 0 <= u < Units(c) && d in c.unitDeps[u]
      ensures d < Units(c) && position[d] < position[u]
    {
      var n :| EdgeFrom(graph.dependencies, c.program.unitOf, graph.dependencies.Keys, n, u, d);
      EarlierTarget(graph.dependencies, c.program.unitOf, flat, position, n, d);
    }
    hide BuiltFor;
  }

  lemma EarlierTarget(deps: Dependencies, unitOf: map<NodeId, nat>, flat: seq<NodeId>, position: seq<nat>, n: NodeId,
      v: nat)
    requires Topological(deps, flat) && Positions(flat, unitOf, position) && Listing(flat) == deps.Keys
    requires n in deps && n in unitOf && deps[n] <= unitOf.Keys && v in Targets(deps, unitOf, n)
    ensures v < |position| && unitOf[n] < |position| && position[v] < position[unitOf[n]]
  {
    var d :| d in deps[n] && unitOf[d] == v;
    assert n in Listing(flat);
    var i :| 0 <= i < |flat| && flat[i] == n;
    assert d in Listing(flat[..i]);
    var j :| 0 <= j < i && flat[j] == d;
  }

  /** Without groups every unit is one node's. */
  lemma SinglesInjective(plan: Plan, effects: map<NodeId, ResolvedEffects>, units: seq<Unit>, unitOf: map<NodeId, nat>)
    requires Placement(units, unitOf) && UnitsFrom(plan, effects, [], units)
    ensures forall m, n | m in unitOf && n in unitOf && unitOf[m] == unitOf[n] :: m == n
    ensures forall u | 0 <= u < |units| :: Inhabited(unitOf, u)
    ensures forall u | 0 <= u < |units| :: !units[u].batch
  {
    forall u | 0 <= u < |units|
      ensures !units[u].batch && |units[u].members| == 1 && units[u].members[0] in unitOf
        && unitOf[units[u].members[0]] == u
      ensures Inhabited(unitOf, u)
    {
      assert UnitFrom(plan, effects, [], units[u]);
      assert units[u].members[0] in units[u].members;
    }
  }

  lemma NoGroupsOk(plan: Plan, layers: seq<seq<NodeId>>)
    ensures GroupsOk(plan, layers, []) && GroupMembers([]) == {}
  {
  }

  lemma GroupsInPlan(plan: Plan, layers: seq<seq<NodeId>>, groups: seq<BatchGroup>)
    requires GroupsOk(plan, layers, groups)
    ensures GroupMembers(groups) <= Ids(plan.nodes)
  {
    forall n | n in GroupMembers(groups)
      ensures n in Ids(plan.nodes)
    {
      MembersOfGroups(groups, n);
      var g :| 0 <= g < |groups| && n in groups[g].nodes;
      assert InSomeLayer(plan, layers, groups[g]);
    }
  }

  function UsedGroups(groups: seq<BatchGroup>, options: Options): seq<BatchGroup> {
    if options.serial then [] else groups
  }

  /** `Engine::new`: units, their dependencies, and their priorities. */
  method NewConfig(host: Host, plan: Plan, graph: Graph, groups: seq<BatchGroup>, options: Options,
      ghost templates: Templates) returns (c: Config)
    requires WellFormedPlan(plan) && GraphOf(plan, templates, graph) && groups == AllGroups(plan, graph.layers)
    requires ReadsApartFromWrites(graph.effects) && |Flatten(graph.layers)| <= MAX_KEY
    ensures BuiltFor(host, plan, graph, UsedGroups(groups, options), c)
      && GroupsOk(plan, graph.layers, UsedGroups(groups, options))
    ensures ConfigOk(c) && exists rank :: UnitRank(c, rank) && DataRank(c.program, rank)
    ensures c.toolLimits == ToolLimits(plan) && c.failFast == options.failFast && c.cancellable == options.cancellable
    ensures c.globalLimit == if options.serial then Some(1) else options.maxConcurrency
    ensures !options.serial ==> forall u | 0 <= u < Units(c) :: c.readyKeys[u] == c.program.units[u].cost
    ensures options.serial ==> Unbatched(c.program)
    ensures options.serial && (forall tool | tool in c.toolLimits :: c.toolLimits[tool] > 0) ==>
      exists position :: Serial(c, position)
    ensures Units(c) + |GroupMembers(UsedGroups(groups, options))| == |UsedGroups(groups, options)| + |Ids(plan.nodes)|
  {
    hide WellFormedPlan, GraphOf, GroupsOk, Placement, UnitsFrom, GroupsFirst, Wired, Transposed, Covered, AllGroups,
      GroupMembers, Ids, Flatten, ConfigOk, DataRank, UnitRank, Serial, Positions;
    var used := UsedGroups(groups, options);
    GroupsAreOk(plan, templates, graph);
    NoGroupsOk(plan, graph.layers);
    GroupsInPlan(plan, graph.layers, used);
    GroupsOkApart(plan, graph.layers, used);
    GraphKeys(plan, templates, graph);
    var units, unitOf := BuildUnits(plan, graph.effects, used);
    GraphCovered(plan, templates, graph, unitOf, units);
    var unitDeps, unitDependents := WireUnits(graph.dependencies, unitOf, |units|);
    var keys: seq<nat>;
    ghost var position: seq<nat> := [];
    if options.serial {
      SinglesInjective(plan, graph.effects, units, unitOf);
      FlatOrder(plan, templates, graph);
      PlacementBound(units, unitOf);
      keys, position := SerialKeys(graph.layers, unitOf, |units|);
    } else {
      keys := seq(|units|, u requires 0 <= u < |units| => units[u].cost);
    }
    c := Config(Program(host, plan.tools, Index(plan.nodes), units, unitOf), unitDeps, unitDependents, keys,
                ToolLimits(plan), if options.serial then Some(1)
                  else options.maxConcurrency, options.failFast, options.cancellable);
    TransposedSizes(unitDeps, unitDependents);
    BuiltIsOk(host, plan, templates, graph, used, c);
    if options.serial && (forall tool | tool in c.toolLimits :: c.toolLimits[tool] > 0) {
      PositionsSerial(host, plan, templates, graph, used, c, position);
    }
  }

  lemma GroupsOkApart(plan: Plan, layers: seq<seq<NodeId>>, groups: seq<BatchGroup>)
    requires GroupsOk(plan, layers, groups)
    ensures GroupsApart(groups)
  {
  }

  lemma GraphKeys(plan: Plan, templates: Templates, graph: Graph)
    requires GraphOf(plan, templates, graph)
    ensures graph.dependencies.Keys == graph.effects.Keys == Ids(plan.nodes)
  {
  }

  lemma PlacementBound(units: seq<Unit>, unitOf: map<NodeId, nat>)
    requires Placement(units, unitOf)
    ensures forall n | n in unitOf :: unitOf[n] < |units|
  {
  }

  lemma TransposedSizes(edges: seq<set<nat>>, back: seq<set<nat>>)
    requires Transposed(edges, back)
    ensures |edges| == |back|
  {
  }

  lemma FlatOrder(plan: Plan, templates: Templates, graph: Graph)
    requires GraphOf(plan, templates, graph)
    ensures NoRepeats(Flatten(graph.layers)) && Listing(Flatten(graph.layers)) == Ids(plan.nodes)
  {
    FlattenTopological(graph.dependencies, graph.effects, graph.layers, |graph.layers|);
    assert graph.layers[..|graph.layers|] == graph.layers;
  }

  // ------------------------------------------------------ what is not batched

  lemma {:induction false} GroupsWithin(a: seq<BatchGroup>, b: seq<BatchGroup>)
    ensures GroupMembers(a + b) == GroupMembers(a) + GroupMembers(b)
    decreases |b|
  {
    if b == [] {
      assert a + b == a;
    } else {
      assert (a + b)[..|a + b| - 1] == a + b[..|b| - 1];
      GroupsWithin(a, b[..|b| - 1]);
    }
  }

  lemma OneGroup(group: BatchGroup)
    ensures GroupMembers([group]) == Listing(group.nodes)
  {
    assert [group][..0] == [];
  }

  lemma OneChunkLess(a: nat, size: nat)
    requires size > 1
    ensures (a + size) % size == a % size
  {
    SameRemainder(size, a / size + 1, a % size, (a + size) / size, (a + size) % size);
  }

  lemma StepUp(size: nat, q: int, q': int)
    requires q < q'
    ensures size * q' >= size * q + size
  {
    assert size * (q' - q - 1) >= 0;
  }

  lemma SameRemainder(size: nat, q: int, r: nat, q': int, r': nat)
    requires r < size && r' < size && size * q + r == size * q' + r'
    ensures r == r'
  {
    if q < q' {
      StepUp(size, q, q');
    } else if q' < q {
      StepUp(size, q', q);
    }
  }

  lemma {:induction false} ChunksCover(tool: ToolName, nodes: seq<NodeId>, size: nat, i: nat)
    requires size > 1 && i < |nodes|
    ensures nodes[i] in GroupMembers(Chunked(tool, nodes, size)) || (i == |nodes| - 1 && |nodes| % size == 1)
    decreases |nodes|
  {
    hide GroupMembers;
    if |nodes| > size {
      var head, tail := nodes[..size], nodes[size..];
      OneGroup(BatchGroup(tool, head));
      GroupsWithin([BatchGroup(tool, head)], Chunked(tool, tail, size));
      OneChunkLess(|tail|, size);
      if i < size {
        assert head[i] == nodes[i];
      } else {
        ChunksCover(tool, tail, size, i - size);
      }
    } else if |nodes| > 1 {
      OneGroup(BatchGroup(tool, nodes));
    }
  }

  lemma {:induction false} ToolIsGrouped(plan: Plan, layer: seq<NodeId>, tools: seq<ToolName>, tool: ToolName)
    requires tool in tools
    ensures GroupMembers(ToolGroups(plan, layer, tool)) <= GroupMembers(ToolsGroups(plan, layer, tools))
  {
    hide ToolGroups, GroupMembers;
    var init, last := tools[..|tools| - 1], tools[|tools| - 1];
    GroupsWithin(ToolsGroups(plan, layer, init), ToolGroups(plan, layer, last));
    if tool != last {
      ToolIsGrouped(plan, layer, init, tool);
    }
  }

  lemma {:induction false} LayerIsGrouped(plan: Plan, layers: seq<seq<NodeId>>, m: nat, k: nat)
    requires k < m <= |layers|
    ensures GroupMembers(LayerGroups(plan, layers[k])) <= GroupMembers(AllGroups(plan, layers[..m]))
    decreases m
  {
    hide LayerGroups, GroupMembers;
    assert layers[..m][..m - 1] == layers[..m - 1];
    GroupsWithin(AllGroups(plan, layers[..m - 1]), LayerGroups(plan, layers[m - 1]));
    if k < m - 1 {
      LayerIsGrouped(plan, layers, m - 1, k);
    }
  }

  lemma {:induction false} CandidateListed(plan: Plan, layer: seq<NodeId>, id: NodeId)
    requires id in layer && IsCandidate(plan, id)
    ensures id in Ids(plan.nodes) && id in Candidates(plan, layer, ToolOf(plan, id))
  {
    var init := layer[..|layer| - 1];
    assert layer == init + [layer[|layer| - 1]];
    if id in init {
      CandidateListed(plan, init, id);
    }
  }

  /** Batching is maximal: a batchable node stays on its own only when its tool
      admits one call a batch, or it is the odd one left over in its layer. */
  lemma LeftOnItsOwn(plan: Plan, layers: seq<seq<NodeId>>, k: nat, id: NodeId)
    requires k < |layers| && id in layers[k] && IsCandidate(plan, id) && id !in GroupMembers(AllGroups(plan, layers))
    ensures id in Ids(plan.nodes)
    ensures var nodes := Candidates(plan, layers[k], ToolOf(plan, id));
      var size := BatchSize(plan, ToolOf(plan, id), |nodes|);
      |nodes| > 0 && (size == 1 || (id == nodes[|nodes| - 1] && |nodes| % size == 1))
  {
    hide IsCandidate, BatchSize, GroupMembers, Chunked, NodeOf;
    CandidateListed(plan, layers[k], id);
    var tool := ToolOf(plan, id);
    var nodes := Candidates(plan, layers[k], tool);
    var size := BatchSize(plan, tool, |nodes|);
    assert layers[..|layers|] == layers;
    LayerIsGrouped(plan, layers, |layers|, k);
    assert tool in BatchTools(plan, layers[k]);
    ToolIsGrouped(plan, layers[k], Sorted(BatchTools(plan, layers[k])), tool);
    var i :| 0 <= i < |nodes| && nodes[i] == id;
    if size > 1 {
      ChunksCover(tool, nodes, size, i);
    }
  }
}
