/** Validation and dependency graph construction. */
module Graphs {
  import opened Wrappers
  import opened Json
  import opened Strings
  import opened Refs
  import opened Plans
  import opened Semantics
  import opened Layers

  datatype GraphError =
    | UnsupportedVersion
    | InvalidNodeId(id: NodeId)
    | DuplicateNode(id: NodeId)
    | UnknownTool(id: NodeId)
    | InvalidEffects(tool: ToolName)
    | SelfReference(id: NodeId)
    | UnknownDependency(id: NodeId, dependency: NodeId)
    | InvalidNodeReference(id: NodeId)
    | UnknownOutputReference(output: string)
    | GraphCycle(id: NodeId)

  /** Filling a resource template from a node's input; given from outside. */
  type Templates = (Resource, Json) -> Resource

  datatype Graph = Graph(dependencies: Dependencies, layers: seq<seq<NodeId>>, effects: map<NodeId, ResolvedEffects>)

  // ----------------------------------------------------------- specification

  function Listing(ids: seq<NodeId>): set<NodeId> {
    set d | d in ids
  }

  /** Everything a node waits for: explicit edges and references. */
  function NodeDeps(node: Node): set<NodeId> {
    Listing(node.dependsOn) + DataDeps(node)
  }

  /** `ResolvedEffects::for_node`. */
  function EffectsFor(node: Node, effects: Option<Effects>, templates: Templates): ResolvedEffects {
    match effects
    case None => ResolvedEffects(node.tool, false, false, {}, {}, false)
    case Some(e) =>
      ResolvedEffects(node.tool, e.DeclaresSideEffects(), e.pure,
        (set r | r in e.readSet :: templates(r, node.input)),
        (set r | r in e.writeSet :: templates(r, node.input)),
        e.commutative)
  }

  function NodeOf(nodes: seq<Node>, id: NodeId): (node: Node)
    requires id in Ids(nodes)
    ensures node in nodes && node.id == id
  {
    if nodes[0].id == id then nodes[0] else NodeOf(nodes[1..], id)
  }

  function Index(nodes: seq<Node>): map<NodeId, Node> {
    map id | id in Ids(nodes) :: NodeOf(nodes, id)
  }

  function DependenciesOf(plan: Plan): Dependencies {
    map id | id in Ids(plan.nodes) :: NodeDeps(NodeOf(plan.nodes, id))
  }

  function EffectsOfNodes(plan: Plan, templates: Templates): map<NodeId, ResolvedEffects> {
    map id | id in Ids(plan.nodes) :: EffectsFor(NodeOf(plan.nodes, id), EffectsOf(plan, NodeOf(plan.nodes, id).tool),
      templates)
  }

  ghost predicate ValidNode(plan: Plan, node: Node) {
    && ValidNodeId(node.id)
    && node.tool in plan.tools
    && CollectRefs(node.input).Ok?
    && node.id !in NodeDeps(node)
    && NodeDeps(node) <= Ids(plan.nodes)
  }

  ghost predicate CoherentTools(plan: Plan) {
    forall tool | tool in plan.tools && plan.tools[tool].effects.Some? ::
      !plan.tools[tool].effects.value.IsContradictory()
  }

  /** What validation demands of a plan besides acyclicity. */
  ghost predicate WellFormedPlan(plan: Plan) {
    && plan.version == CURRENT_VERSION
    && DistinctIds(plan.nodes)
    && CoherentTools(plan)
    && (forall i | 0 <= i < |plan.nodes| :: ValidNode(plan, plan.nodes[i]))
    && (forall name | name in plan.outputs :: plan.outputs[name].node in Ids(plan.nodes))
  }

  ghost predicate ValidPlan(plan: Plan) {
    WellFormedPlan(plan) && Acyclic(DependenciesOf(plan))
  }

  /** The graph of a valid plan. */
  ghost predicate GraphOf(plan: Plan, templates: Templates, graph: Graph) {
    && graph.dependencies == DependenciesOf(plan)
    && graph.effects == EffectsOfNodes(plan, templates)
    && Layering(graph.dependencies, graph.effects, graph.layers)
  }

  /** The plan alone decides its graph, layers included. */
  lemma GraphUnique(plan: Plan, templates: Templates, a: Graph, b: Graph)
    requires GraphOf(plan, templates, a) && GraphOf(plan, templates, b)
    ensures a == b
  {
    hide EffectsFor, NodeDeps, Layering;
    LayeringUnique(a.dependencies, a.effects, a.layers, b.layers);
  }

  /** A node exhibits the fault the error names. */
  ghost predicate Faulty(plan: Plan, node: Node, error: GraphError) {
    match error
    case InvalidNodeId(id) => node.id == id && !ValidNodeId(id)
    case UnknownTool(id) => node.id == id && node.tool !in plan.tools
    case SelfReference(id) => node.id == id && id in NodeDeps(node)
    case UnknownDependency(id, d) => node.id == id && d in NodeDeps(node) && d !in Ids(plan.nodes)
    case InvalidNodeReference(id) => node.id == id && CollectRefs(node.input).Err?
    case _ => false
  }

  /** The error is a fact about the plan. */
  ghost predicate Describes(plan: Plan, error: GraphError) {
    match error
    case UnsupportedVersion => plan.version != CURRENT_VERSION
    case DuplicateNode(id) => exists i, j :: 0 <= i < j < |plan.nodes| && plan.nodes[i].id == plan.nodes[j].id == id
    case InvalidEffects(tool) => tool in plan.tools && plan.tools[tool].effects.Some?
      && plan.tools[tool].effects.value.IsContradictory()
    case UnknownOutputReference(name) => name in plan.outputs && plan.outputs[name].node !in Ids(plan.nodes)
    case GraphCycle(id) => !Acyclic(DependenciesOf(plan)) && FirstToCycle(DependenciesOf(plan), id)
    case _ => exists i :: 0 <= i < |plan.nodes| && Faulty(plan, plan.nodes[i], error)
  }

  // ------------------------------------------------------------------ facts

  lemma IdIn(nodes: seq<Node>, node: Node)
    requires node in nodes
    ensures node.id in Ids(nodes)
  {
    var i :| 0 <= i < |nodes| && nodes[i] == node;
  }

  lemma NodeAt(nodes: seq<Node>, i: nat)
    requires DistinctIds(nodes) && i < |nodes|
    ensures nodes[i].id in Ids(nodes) && NodeOf(nodes, nodes[i].id) == nodes[i]
  {
    var node := NodeOf(nodes, nodes[i].id);
    var j :| 0 <= j < |nodes| && nodes[j] == node;
    assert nodes[j].id == nodes[i].id;
  }

  lemma NodeOfMember(nodes: seq<Node>, node: Node)
    requires DistinctIds(nodes) && node in nodes
    ensures node.id in Ids(nodes) && NodeOf(nodes, node.id) == node
  {
    var i :| 0 <= i < |nodes| && nodes[i] == node;
    NodeAt(nodes, i);
  }

  lemma ValidAt(plan: Plan, id: NodeId)
    requires WellFormedPlan(plan) && id in Ids(plan.nodes)
    ensures ValidNode(plan, NodeOf(plan.nodes, id))
  {
    var i :| 0 <= i < |plan.nodes| && plan.nodes[i] == NodeOf(plan.nodes, id);
  }

  lemma EffectsCoherent(plan: Plan, templates: Templates)
    requires CoherentTools(plan)
    ensures forall id | id in Ids(plan.nodes) :: EffectsOfNodes(plan, templates)[id].Coherent()
  {
  }

  // -------------------------------------------------------------- validation

  /** Each id once, each valid; the list as a lookup table. */
  method IndexNodes(plan: Plan) returns (result: Result<map<NodeId, Node>, GraphError>)
    ensures result.Err? ==> Describes(plan, result.error)
    ensures result.Ok? ==> DistinctIds(plan.nodes) && forall i | 0 <= i < |plan.nodes| :: ValidNodeId(plan.nodes[i].id)
    ensures result.Ok? ==> result.value == Index(plan.nodes)
  {
    hide ValidNodeId, NodeOf, NodeDeps, CollectRefs;
    var nodes := plan.nodes;
    var indexed: map<NodeId, Node> := map[];
    for i := 0 to |nodes|
      invariant DistinctIds(nodes[..i]) && forall k | 0 <= k < i :: ValidNodeId(nodes[k].id)
      invariant forall id :: id in indexed <==> exists k :: 0 <= k < i && nodes[k].id == id
      invariant forall k | 0 <= k < i :: indexed[nodes[k].id] == nodes[k]
    {
      var node := nodes[i];
      if !ValidNodeId(node.id) {
        assert Faulty(plan, nodes[i], InvalidNodeId(node.id));
        return Err(InvalidNodeId(node.id));
      }
      if node.id in indexed {
        return Err(DuplicateNode(node.id));
      }
      indexed := indexed[node.id := node];
    }
    assert nodes[..|nodes|] == nodes;
    IndexIs(nodes, indexed);
    result := Ok(indexed);
  }

  lemma IndexIs(nodes: seq<Node>, indexed: map<NodeId, Node>)
    requires DistinctIds(nodes)
    requires forall id :: id in indexed <==> exists k :: 0 <= k < |nodes| && nodes[k].id == id
    requires forall k | 0 <= k < |nodes| :: indexed[nodes[k].id] == nodes[k]
    ensures indexed == Index(nodes)
  {
    hide NodeOf;
    forall id | id in Ids(nodes)
      ensures id in indexed && indexed[id] == NodeOf(nodes, id)
    {
      var i :| 0 <= i < |nodes| && nodes[i].id == id;
      NodeAt(nodes, i);
    }
  }

  method EnsureToolsExist(plan: Plan, index: map<NodeId, Node>) returns (error: Option<GraphError>)
    requires DistinctIds(plan.nodes) && index == Index(plan.nodes)
    ensures error.Some? ==> Describes(plan, error.value)
    ensures error.None? ==> forall id | id in index :: index[id].tool in plan.tools
  {
    hide Describes, DistinctIds, Ids;
    var ids := Sorted(index.Keys);
    for i := 0 to |ids|
      invariant forall k | 0 <= k < i :: index[ids[k]].tool in plan.tools
    {
      var node := index[ids[i]];
      if node.tool !in plan.tools {
        assert node in plan.nodes;
        FaultFound(plan, node, UnknownTool(node.id));
        return Some(UnknownTool(node.id));
      }
    }
    error := None;
  }

  lemma FaultFound(plan: Plan, node: Node, error: GraphError)
    requires node in plan.nodes && Faulty(plan, node, error)
    ensures Describes(plan, error)
  {
    var i :| 0 <= i < |plan.nodes| && plan.nodes[i] == node;
  }

  method EnsureEffectsAreCoherent(plan: Plan) returns (error: Option<GraphError>)
    ensures error.Some? ==> Describes(plan, error.value)
    ensures error.None? <==> CoherentTools(plan)
  {
    hide FirstToCycle, Acyclic, DependenciesOf, Faulty, Ids, Less, Increasing;
    var tools := Sorted(plan.tools.Keys);
    for i := 0 to |tools|
      invariant forall k | 0 <= k < i && plan.tools[tools[k]].effects.Some? ::
        !plan.tools[tools[k]].effects.value.IsContradictory()
    {
      var effects := plan.tools[tools[i]].effects;
      if effects.Some? && effects.value.IsContradictory() {
        return Some(InvalidEffects(tools[i]));
      }
    }
    error := None;
  }

  /** One edge: not to itself, not to nowhere. */
  method InsertDependency(plan: Plan, node: Node, dependency: NodeId, index: map<NodeId, Node>, deps: set<NodeId>)
    returns (result: Result<set<NodeId>, GraphError>)
    requires node in plan.nodes && index.Keys == Ids(plan.nodes) && dependency in NodeDeps(node)
    ensures result.Err? ==> Describes(plan, result.error)
    ensures result.Ok? <==> dependency != node.id && dependency in index
    ensures result.Ok? ==> result.value == deps + {dependency}
  {
    hide DataDeps;
    if dependency == node.id {
      FaultFound(plan, node, SelfReference(node.id));
      return Err(SelfReference(node.id));
    }
    if dependency !in index {
      FaultFound(plan, node, UnknownDependency(node.id, dependency));
      return Err(UnknownDependency(node.id, dependency));
    }
    result := Ok(deps + {dependency});
  }

  /** The edges `ids` of one node. */
  method InsertAll(plan: Plan, node: Node, ids: seq<NodeId>, index: map<NodeId, Node>, deps: set<NodeId>)
    returns (result: Result<set<NodeId>, GraphError>)
    requires node in plan.nodes && index.Keys == Ids(plan.nodes) && Listing(ids) <= NodeDeps(node)
    ensures result.Err? ==> Describes(plan, result.error)
    ensures result.Ok? <==> node.id !in Listing(ids) && Listing(ids) <= index.Keys
    ensures result.Ok? ==> result.value == deps + Listing(ids)
  {
    hide NodeDeps, Describes, Ids;
    var all := deps;
    for i := 0 to |ids|
      invariant all == deps + Listing(ids[..i])
      invariant node.id !in Listing(ids[..i]) && Listing(ids[..i]) <= index.Keys
    {
      assert ids[i] in Listing(ids);
      assert Listing(ids[..i + 1]) == Listing(ids[..i]) + {ids[i]};
      all :- InsertDependency(plan, node, ids[i], index, all);
    }
    assert ids[..|ids|] == ids;
    result := Ok(all);
  }

  function RefIds(refs: seq<ValueRef>): (ids: seq<NodeId>)
    ensures Listing(ids) == RefNodes(refs)
  {
    var ids := seq(|refs|, i requires 0 <= i < |refs| => refs[i].node);
    assert forall i | 0 <= i < |refs| :: ids[i] in ids && refs[i].node == ids[i];
    ids
  }

  /** The node's references parse, and lead to other nodes of the plan. */
  ghost predicate Linked(plan: Plan, node: Node) {
    CollectRefs(node.input).Ok? && node.id !in NodeDeps(node) && NodeDeps(node) <= Ids(plan.nodes)
  }

  method NodeDependencies(plan: Plan, node: Node, index: map<NodeId, Node>)
        returns (result: Result<set<NodeId>, GraphError>)
    requires node in plan.nodes && index.Keys == Ids(plan.nodes)
    ensures result.Err? ==> Describes(plan, result.error)
    ensures result.Ok? <==> Linked(plan, node)
    ensures result.Ok? ==> result.value == NodeDeps(node)
  {
    hide Describes, Ids, Listing, CollectRefs, RefNodes, RefIds;
    var deps :- InsertAll(plan, node, node.dependsOn, index, {});
    var refs := CollectRefs(node.input);
    if refs.Err? {
      FaultFound(plan, node, InvalidNodeReference(node.id));
      return Err(InvalidNodeReference(node.id));
    }
    deps :- InsertAll(plan, node, RefIds(refs.value), index, deps);
    if node.forEach.Some? {
      deps :- InsertDependency(plan, node, node.forEach.value.node, index, deps);
    }
    if node.condition.Some? {
      deps :- InsertDependency(plan, node, node.condition.value.target.node, index, deps);
    }
    result := Ok(deps);
  }

  method CollectDependencies(plan: Plan, index: map<NodeId, Node>) returns (result: Result<Dependencies, GraphError>)
    requires DistinctIds(plan.nodes) && index == Index(plan.nodes)
    ensures result.Err? ==> Describes(plan, result.error)
    ensures result.Ok? <==> forall id | id in index :: Linked(plan, index[id])
    ensures result.Ok? ==> result.value == DependenciesOf(plan)
  {
    hide Describes, NodeDeps, CollectRefs, Linked, NodeOf, Ids, DistinctIds, Index, Listing, DependenciesOf;
    IndexFacts(plan);
    var ids := Sorted(index.Keys);
    var deps: Dependencies := map[];
    ListingNone();
    for i := 0 to |ids|
      invariant deps.Keys == Listing(ids[..i])
      invariant forall id | id in deps :: id in index && deps[id] == NodeDeps(index[id]) && Linked(plan, index[id])
    {
      assert ids[i] in index;
      var node := index[ids[i]];
      var found :- NodeDependencies(plan, node, index);
      deps := deps[node.id := found];
      ListingMore(ids, i);
    }
    ListingWhole(ids, index.Keys);
    assert ids[..|ids|] == ids;
    DependenciesFrom(plan, deps);
    result := Ok(deps);
  }

  lemma ListingNone()
    ensures Listing([]) == {}
  {
  }

  lemma ListingMore(ids: seq<NodeId>, i: nat)
    requires i < |ids|
    ensures Listing(ids[..i + 1]) == Listing(ids[..i]) + {ids[i]}
  {
    assert ids[..i + 1] == ids[..i] + [ids[i]];
  }

  lemma ListingWhole(ids: seq<NodeId>, s: set<NodeId>)
    requires forall id :: id in ids <==> id in s
    ensures Listing(ids) == s
  {
  }

  lemma IndexFacts(plan: Plan)
    requires DistinctIds(plan.nodes)
    ensures Index(plan.nodes).Keys == Ids(plan.nodes)
    ensures forall id | id in Index(plan.nodes) :: Index(plan.nodes)[id].id == id && Index(plan.nodes)[id] in plan.nodes
  {
  }

  lemma DependenciesFrom(plan: Plan, deps: Dependencies)
    requires deps.Keys == Ids(plan.nodes) == Index(plan.nodes).Keys
    requires forall id | id in deps :: deps[id] == NodeDeps(Index(plan.nodes)[id])
    ensures deps == DependenciesOf(plan)
  {
    hide NodeDeps;
  }

  method EnsureOutputsExist(plan: Plan, index: map<NodeId, Node>) returns (error: Option<GraphError>)
    requires index.Keys == Ids(plan.nodes)
    ensures error.Some? ==> Describes(plan, error.value)
    ensures error.None? <==> forall name | name in plan.outputs :: plan.outputs[name].node in index
  {
    var names := Sorted(plan.outputs.Keys);
    for i := 0 to |names|
      invariant forall k | 0 <= k < i :: plan.outputs[names[k]].node in index
    {
      if plan.outputs[names[i]].node !in index {
        return Some(UnknownOutputReference(names[i]));
      }
    }
    error := None;
  }

  lemma AllNodesValid(plan: Plan)
    requires DistinctIds(plan.nodes) && forall i | 0 <= i < |plan.nodes| :: ValidNodeId(plan.nodes[i].id)
    requires forall id | id in Ids(plan.nodes) :: NodeOf(plan.nodes, id).tool in plan.tools
    requires forall id | id in Ids(plan.nodes) :: Linked(plan, NodeOf(plan.nodes, id))
    ensures forall i | 0 <= i < |plan.nodes| :: ValidNode(plan, plan.nodes[i])
  {
    hide NodeDeps, CollectRefs, Ids, DistinctIds, ValidNodeId;
    forall i | 0 <= i < |plan.nodes|
      ensures ValidNode(plan, plan.nodes[i])
    {
      NodeAt(plan.nodes, i);
    }
  }

  lemma DescribesInvalid(plan: Plan, error: GraphError)
    requires Describes(plan, error)
    ensures !ValidPlan(plan)
  {
    hide NodeDeps, CollectRefs, Acyclic, ValidNodeId;
    if i :| 0 <= i < |plan.nodes| && Faulty(plan, plan.nodes[i], error) {
      assert !ValidNode(plan, plan.nodes[i]);
    }
  }

  /** Accepts exactly the valid plans, with their graph; otherwise names a fault
      the plan has. */
  method Validate(plan: Plan, templates: Templates) returns (result: Result<Graph, GraphError>)
    ensures result.Ok? <==> ValidPlan(plan)
    ensures result.Ok? ==> GraphOf(plan, templates, result.value)
    ensures result.Err? ==> Describes(plan, result.error)
  {
    hide FirstToCycle, Within, Describes, ValidNode, NodeDeps, Linked, Ids, CollectRefs, DistinctIds, Acyclic, LayersOk,
      EffectsFor,
      ValidNodeId;
    if plan.version != CURRENT_VERSION {
      assert Describes(plan, UnsupportedVersion) by { Unsupported(plan); }
      return Err(UnsupportedVersion);
    }
    var indexed := IndexNodes(plan);
    if indexed.Err? {
      DescribesInvalid(plan, indexed.error);
      return Err(indexed.error);
    }
    var index := indexed.value;
    var fault := EnsureToolsExist(plan, index);
    if fault.Some? {
      DescribesInvalid(plan, fault.value);
      return Err(fault.value);
    }
    fault := EnsureEffectsAreCoherent(plan);
    if fault.Some? {
      DescribesInvalid(plan, fault.value);
      return Err(fault.value);
    }
    var collected := CollectDependencies(plan, index);
    if collected.Err? {
      DescribesInvalid(plan, collected.error);
      return Err(collected.error);
    }
    fault := EnsureOutputsExist(plan, index);
    if fault.Some? {
      DescribesInvalid(plan, fault.value);
      return Err(fault.value);
    }
    AllNodesValid(plan);
    var effects := EffectsOfNodes(plan, templates);
    EffectsCoherent(plan, templates);
    DependenciesWithin(plan);
    var layered := SafeLayers(collected.value, effects);
    if layered.Cycle? {
      CycleDescribes(plan, layered.node);
      return Err(GraphCycle(layered.node));
    }
    result := Ok(Graph(collected.value, layered.layers, effects));
  }

  lemma Unsupported(plan: Plan)
    requires plan.version != CURRENT_VERSION
    ensures Describes(plan, UnsupportedVersion) && !ValidPlan(plan)
  {
  }

  lemma DependenciesWithin(plan: Plan)
    requires forall i | 0 <= i < |plan.nodes| :: ValidNode(plan, plan.nodes[i])
    ensures Within(DependenciesOf(plan))
  {
    hide NodeDeps, Ids, CollectRefs;
    forall id | id in Ids(plan.nodes)
      ensures NodeDeps(NodeOf(plan.nodes, id)) <= Ids(plan.nodes)
    {
      var node := NodeOf(plan.nodes, id);
      assert node in plan.nodes;
      var i :| 0 <= i < |plan.nodes| && plan.nodes[i] == node;
      assert ValidNode(plan, plan.nodes[i]);
    }
  }

  lemma CycleDescribes(plan: Plan, n: NodeId)
    requires !Acyclic(DependenciesOf(plan)) && FirstToCycle(DependenciesOf(plan), n)
    ensures Describes(plan, GraphCycle(n)) && !ValidPlan(plan)
  {
  }

  // ------------------------------------------------------------------ pruning

  function KeepNodes(nodes: seq<Node>, kept: set<NodeId>): seq<Node> {
    if nodes == [] then []
    else
      var init := KeepNodes(nodes[..|nodes| - 1], kept);
      if nodes[|nodes| - 1].id in kept then init + [nodes[|nodes| - 1]] else init
  }

  /** The plan with only the nodes in `kept`. */
  function Prune(plan: Plan, kept: set<NodeId>): Plan {
    plan.(nodes := KeepNodes(plan.nodes, kept))
  }

  /** No node in `kept` depends on one outside. */
  ghost predicate Closed(deps: Dependencies, kept: set<NodeId>) {
    forall n | n in kept && n in deps :: deps[n] <= kept
  }

  lemma {:induction false} KeepMembers(nodes: seq<Node>, kept: set<NodeId>)
    ensures forall node :: node in KeepNodes(nodes, kept) <==> node in nodes && node.id in kept
  {
    if nodes != [] {
      KeepMembers(nodes[..|nodes| - 1], kept);
      assert nodes == nodes[..|nodes| - 1] + [nodes[|nodes| - 1]];
    }
  }

  /** `at` are the positions of the nodes in `kept`, in order. */
  ghost predicate Picks(nodes: seq<Node>, kept: set<NodeId>, at: seq<nat>, picked: seq<Node>) {
    && |picked| == |at| && (forall i | 0 <= i < |at| :: at[i] < |nodes| && picked[i] == nodes[at[i]])
    && (forall i, j | 0 <= i < j < |at| :: at[i] < at[j])
    && forall k: nat | k < |nodes| :: nodes[k].id in kept <==> k in at
  }

  lemma PicksMore(init: seq<Node>, last: Node, kept: set<NodeId>, at: seq<nat>, picked: seq<Node>)
    requires Picks(init, kept, at, picked)
    ensures last.id in kept ==> Picks(init + [last], kept, at + [|init|], picked + [last])
    ensures last.id !in kept ==> Picks(init + [last], kept, at, picked)
  {
    var nodes := init + [last];
    var more: seq<nat> := at + [|init|];
    forall k: nat | k < |nodes|
      ensures k in more <==> k in at || k == |init|
      ensures k < |init| ==> (nodes[k].id in kept <==> k in at)
    {
      assert k < |init| ==> nodes[k] == init[k];
    }
    assert |init| !in at;
  }

  /** Pruning leaves the order of the nodes. */
  lemma {:induction false} KeepOrder(nodes: seq<Node>, kept: set<NodeId>)
    ensures exists at: seq<nat> :: Picks(nodes, kept, at, KeepNodes(nodes, kept))
  {
    hide Picks;
    if nodes == [] {
      NothingPicked(kept);
    } else {
      var init, last := nodes[..|nodes| - 1], nodes[|nodes| - 1];
      KeepOrder(init, kept);
      var at: seq<nat> :| Picks(init, kept, at, KeepNodes(init, kept));
      PicksMore(init, last, kept, at, KeepNodes(init, kept));
      assert nodes == init + [last];
      if last.id in kept {
        assert Picks(nodes, kept, at + [|init|], KeepNodes(nodes, kept));
      } else {
        assert Picks(nodes, kept, at, KeepNodes(nodes, kept));
      }
    }
  }

  lemma NothingPicked(kept: set<NodeId>)
    ensures Picks([], kept, [], KeepNodes([], kept))
  {
  }

  lemma KeepIds(nodes: seq<Node>, kept: set<NodeId>)
    ensures Ids(KeepNodes(nodes, kept)) == Ids(nodes) * kept
  {
    KeepMembers(nodes, kept);
    var after := KeepNodes(nodes, kept);
    forall id
      ensures id in Ids(after) <==> id in Ids(nodes) && id in kept
    {
      if id in Ids(after) {
        var i :| 0 <= i < |after| && after[i].id == id;
        IdIn(nodes, after[i]);
      }
      if id in Ids(nodes) && id in kept {
        var i :| 0 <= i < |nodes| && nodes[i].id == id;
        IdIn(after, nodes[i]);
      }
    }
  }

  lemma {:induction false} KeepDistinct(nodes: seq<Node>, kept: set<NodeId>)
    requires DistinctIds(nodes)
    ensures DistinctIds(KeepNodes(nodes, kept))
  {
    if nodes != [] {
      var init := nodes[..|nodes| - 1];
      KeepDistinct(init, kept);
      KeepMembers(init, kept);
      var before := KeepNodes(init, kept);
      forall i | 0 <= i < |before|
        ensures before[i].id != nodes[|nodes| - 1].id
      {
        var k :| 0 <= k < |init| && init[k] == before[i];
        assert nodes[k] == before[i];
      }
    }
  }

  lemma KeepNode(nodes: seq<Node>, kept: set<NodeId>, id: NodeId)
    requires DistinctIds(nodes) && id in Ids(nodes) && id in kept
    ensures id in Ids(KeepNodes(nodes, kept)) && NodeOf(KeepNodes(nodes, kept), id) == NodeOf(nodes, id)
  {
    KeepIds(nodes, kept);
    KeepMembers(nodes, kept);
    KeepDistinct(nodes, kept);
    NodeOfMember(KeepNodes(nodes, kept), NodeOf(nodes, id));
  }

  function Restrict<T>(m: map<NodeId, T>, kept: set<NodeId>): map<NodeId, T> {
    map id | id in m && id in kept :: m[id]
  }

  lemma PruneMaps(plan: Plan, templates: Templates, kept: set<NodeId>)
    requires DistinctIds(plan.nodes)
    ensures DependenciesOf(Prune(plan, kept)) == Restrict(DependenciesOf(plan), kept)
    ensures EffectsOfNodes(Prune(plan, kept), templates) == Restrict(EffectsOfNodes(plan, templates), kept)
  {
    hide NodeDeps, EffectsFor, EffectsOf, NodeOf, DistinctIds, Ids, KeepNodes;
    var nodes := plan.nodes;
    KeepIds(nodes, kept);
    forall id | id in Ids(nodes) && id in kept
      ensures id in Ids(KeepNodes(nodes, kept)) && NodeOf(KeepNodes(nodes, kept), id) == NodeOf(nodes, id)
    {
      KeepNode(nodes, kept, id);
    }
    forall tool
      ensures EffectsOf(Prune(plan, kept), tool) == EffectsOf(plan, tool)
    {
      SameEffects(plan, kept, tool);
    }
  }

  lemma SameEffects(plan: Plan, kept: set<NodeId>, tool: ToolName)
    ensures EffectsOf(Prune(plan, kept), tool) == EffectsOf(plan, tool)
  {
  }

  lemma RestrictAcyclic(deps: Dependencies, kept: set<NodeId>)
    requires Acyclic(deps) && Closed(deps, kept)
    ensures Acyclic(Restrict(deps, kept))
  {
    var rank :| RankOk(deps, rank);
    assert RankOk(Restrict(deps, kept), rank);
  }

  /** Removing nodes nothing kept depends on leaves a valid plan. */
  lemma PruneValid(plan: Plan, kept: set<NodeId>)
    requires ValidPlan(plan) && Closed(DependenciesOf(plan), kept)
    requires forall name | name in plan.outputs :: plan.outputs[name].node in kept
    ensures ValidPlan(Prune(plan, kept))
  {
    hide NodeDeps, CollectRefs, ValidNodeId, RankOk;
    var nodes := plan.nodes;
    KeepIds(nodes, kept);
    KeepMembers(nodes, kept);
    KeepDistinct(nodes, kept);
    PruneMaps(plan, (r, _) => r, kept);
    RestrictAcyclic(DependenciesOf(plan), kept);
    hide Acyclic, KeepNodes;
    var after := KeepNodes(nodes, kept);
    forall i | 0 <= i < |after|
      ensures ValidNode(Prune(plan, kept), after[i])
    {
      assert after[i] in nodes;
      NodeOfMember(nodes, after[i]);
      assert DependenciesOf(plan)[after[i].id] == NodeDeps(after[i]);
      ValidAt(plan, after[i].id);
    }
  }

  /** Rebuilds the layers over the kept nodes, without validating again. */
  method Retain(graph: Graph, kept: set<NodeId>) returns (result: Result<Graph, GraphError>)
    requires graph.dependencies.Keys <= graph.effects.Keys
      && forall n | n in graph.effects :: graph.effects[n].Coherent()
    ensures result.Ok? <==> Acyclic(Restrict(graph.dependencies, kept))
    ensures result.Ok? ==>
      result.value.dependencies == Restrict(graph.dependencies, kept)
        && result.value.effects == Restrict(graph.effects, kept)
    ensures result.Ok? ==> Layering(result.value.dependencies, result.value.effects, result.value.layers)
    ensures result.Err? ==> result.error.GraphCycle?
    ensures result.Err? && Within(Restrict(graph.dependencies, kept)) ==>
      FirstToCycle(Restrict(graph.dependencies, kept), result.error.id)
  {
    hide Layering, FirstToCycle, Within;
    var dependencies := Restrict(graph.dependencies, kept);
    var effects := Restrict(graph.effects, kept);
    var layered := SafeLayers(dependencies, effects);
    if layered.Cycle? {
      return Err(GraphCycle(layered.node));
    }
    result := Ok(Graph(dependencies, layered.layers, effects));
  }

  /** What `Retain` rebuilds is the graph validation would build for the pruned
      plan, layers included. */
  lemma RetainIsValidate(plan: Plan, templates: Templates, graph: Graph, kept: set<NodeId>, retained: Graph,
      validated: Graph)
    requires ValidPlan(plan) && GraphOf(plan, templates, graph) && Closed(graph.dependencies, kept)
    requires forall name | name in plan.outputs :: plan.outputs[name].node in kept
    requires retained.dependencies == Restrict(graph.dependencies, kept)
      && retained.effects == Restrict(graph.effects, kept)
    requires Layering(retained.dependencies, retained.effects, retained.layers)
    requires GraphOf(Prune(plan, kept), templates, validated)
    ensures ValidPlan(Prune(plan, kept)) && retained == validated
  {
    hide LayersOk, NodeDeps, EffectsFor;
    PruneValid(plan, kept);
    PruneMaps(plan, templates, kept);
    LayeringUnique(retained.dependencies, retained.effects, retained.layers, validated.layers);
  }
}
