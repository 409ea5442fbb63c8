/** Which calls are batched together, stated of the nodes and of what their tools
    declare. */
module Groupings {
  import opened Wrappers
  import opened Strings
  import opened Plans
  import opened Layers
  import opened Graphs
  import opened Batching

  /** A node that calls `tool`, which batches, and that expands nothing. */
  ghost predicate Batches(plan: Plan, id: NodeId, tool: ToolName) {
    exists node, e :: node in plan.nodes && node.id == id && node.tool == tool && node.forEach.None?
      && tool in plan.tools && plan.tools[tool].effects == Some(e) && e.batchable
  }

  /** `nodes` are the nodes of the layer that batch as calls of `tool`, in order. */
  ghost predicate Batchable(plan: Plan, layer: seq<NodeId>, tool: ToolName, nodes: seq<NodeId>) {
    Increasing(nodes) && forall id :: id in nodes <==> id in layer && Batches(plan, id, tool)
  }

  /** All of them, or, under a batch size, a full chunk of them or the last one. */
  ghost predicate IsBatch(plan: Plan, tool: ToolName, nodes: seq<NodeId>, batch: seq<NodeId>) {
    && |batch| > 1
    && tool in plan.tools
    && match plan.tools[tool].batchSize
       case None => batch == nodes
       case Some(size) => exists i: nat :: PieceAt(nodes, size, i, batch)
  }

  ghost predicate PieceAt(nodes: seq<NodeId>, size: nat, i: nat, piece: seq<NodeId>) {
    && i * size <= |nodes|
    && piece == nodes[i * size..][..if size < |nodes| - i * size then size else |nodes| - i * size]
  }

  // ------------------------------------------------------------- candidates

  lemma CandidateIs(plan: Plan, id: NodeId, tool: ToolName)
    requires DistinctIds(plan.nodes)
    ensures IsCandidate(plan, id) && ToolOf(plan, id) == tool <==> Batches(plan, id, tool)
  {
    hide DistinctIds, Ids, NodeOf;
    forall node | node in plan.nodes && node.id == id
      ensures id in Ids(plan.nodes) && NodeOf(plan.nodes, id) == node
    {
      NodeOfMember(plan.nodes, node);
    }
    if id in Ids(plan.nodes) {
      assert NodeOf(plan.nodes, id) in plan.nodes;
    }
  }

  lemma {:induction false} CandidatesAre(plan: Plan, layer: seq<NodeId>, tool: ToolName)
    requires DistinctIds(plan.nodes)
    ensures forall id :: id in Candidates(plan, layer, tool) <==> id in layer && Batches(plan, id, tool)
  {
    hide Batches, IsCandidate, DistinctIds;
    if layer != [] {
      var init, last := layer[..|layer| - 1], layer[|layer| - 1];
      CandidatesAre(plan, init, tool);
      CandidateIs(plan, last, tool);
      assert layer == init + [last];
    }
  }

  lemma {:induction false} IncreasingUnique(a: seq<NodeId>, b: seq<NodeId>)
    requires Increasing(a) && Increasing(b) && forall id :: id in a <==> id in b
    ensures a == b
  {
    hide Leq;
    if b != [] {
      assert b[0] in b;
    }
    if a != [] {
      assert a[0] in a;
      FirstLeast(a);
      FirstLeast(b);
      LeqAntisymmetric(a[0], b[0]);
      forall id
        ensures id in a[1..] <==> id in b[1..]
      {
        assert id in a <==> id == a[0] || id in a[1..];
        assert id in b <==> id == b[0] || id in b[1..];
      }
      IncreasingUnique(a[1..], b[1..]);
    }
  }

  lemma FirstLeast(a: seq<NodeId>)
    requires Increasing(a) && a != []
    ensures a[0] !in a[1..] && forall id | id in a :: Leq(a[0], id)
  {
    hide Leq;
    LeqTotal(a[0], a[0]);
  }

  lemma BatchableUnique(plan: Plan, layer: seq<NodeId>, tool: ToolName, nodes: seq<NodeId>)
    requires DistinctIds(plan.nodes) && Increasing(layer) && Batchable(plan, layer, tool, nodes)
    ensures nodes == Candidates(plan, layer, tool)
  {
    hide Batches, IsCandidate, DistinctIds, Increasing;
    CandidatesAre(plan, layer, tool);
    CandidatesIncrease(plan, layer, tool);
    IncreasingUnique(nodes, Candidates(plan, layer, tool));
  }

  // ----------------------------------------------------------------- chunks

  ghost predicate SomePiece(nodes: seq<NodeId>, size: nat, piece: seq<NodeId>) {
    exists i: nat :: PieceAt(nodes, size, i, piece)
  }

  lemma NextPiece(nodes: seq<NodeId>, size: nat, i: nat, piece: seq<NodeId>)
    requires size <= |nodes|
    ensures PieceAt(nodes, size, i + 1, piece) <==> PieceAt(nodes[size..], size, i, piece)
  {
    assert (i + 1) * size == i * size + size;
    if i * size <= |nodes| - size {
      assert nodes[size..][i * size..] == nodes[(i + 1) * size..];
    }
  }

  lemma FirstPiece(nodes: seq<NodeId>, size: nat, piece: seq<NodeId>)
    ensures PieceAt(nodes, size, 0, piece) <==> piece == nodes[..if size < |nodes| then size else |nodes|]
  {
    assert nodes[0..] == nodes;
  }

  lemma PiecesSplit(nodes: seq<NodeId>, size: nat, piece: seq<NodeId>)
    requires 0 < size < |nodes|
    ensures SomePiece(nodes, size, piece) <==> piece == nodes[..size] || SomePiece(nodes[size..], size, piece)
  {
    hide PieceAt;
    FirstPiece(nodes, size, piece);
    if i: nat :| PieceAt(nodes, size, i, piece) && i > 0 {
      NextPiece(nodes, size, i - 1, piece);
    }
    if i: nat :| PieceAt(nodes[size..], size, i, piece) {
      NextPiece(nodes, size, i, piece);
    }
  }

  lemma LatePiece(nodes: seq<NodeId>, size: nat, i: nat, piece: seq<NodeId>)
    requires |nodes| <= size && i > 0 && piece != []
    ensures !PieceAt(nodes, size, i, piece)
  {
    assert i * size >= size;
  }

  lemma OnePiece(nodes: seq<NodeId>, size: nat, piece: seq<NodeId>)
    requires |nodes| <= size && |piece| > 1
    ensures SomePiece(nodes, size, piece) <==> piece == nodes
  {
    hide PieceAt;
    FirstPiece(nodes, size, piece);
    forall i: nat | i > 0
      ensures !PieceAt(nodes, size, i, piece)
    {
      LatePiece(nodes, size, i, piece);
    }
  }

  lemma {:induction false} ChunksArePieces(tool: ToolName, nodes: seq<NodeId>, size: nat, group: BatchGroup)
    requires size > 0
    ensures group in Chunked(tool, nodes, size) <==>
      group.tool == tool && |group.nodes| > 1 && SomePiece(nodes, size, group.nodes)
    decreases |nodes|
  {
    hide SomePiece;
    if |nodes| <= size {
      if |group.nodes| > 1 {
        OnePiece(nodes, size, group.nodes);
      }
    } else {
      PiecesSplit(nodes, size, group.nodes);
      ChunksArePieces(tool, nodes[size..], size, group);
    }
  }

  lemma ToolGroupsAre(plan: Plan, layer: seq<NodeId>, tool: ToolName, group: BatchGroup)
    requires tool in plan.tools
    ensures group in ToolGroups(plan, layer, tool) <==>
      group.tool == tool && IsBatch(plan, tool, Candidates(plan, layer, tool), group.nodes)
  {
    hide Chunked, SomePiece, PieceAt, Candidates;
    var nodes := Candidates(plan, layer, tool);
    var size := BatchSize(plan, tool, |nodes|);
    ChunksArePieces(tool, nodes, size, group);
    if |group.nodes| > 1 {
      match plan.tools[tool].batchSize
      case None =>
        OnePieceAll(nodes, size, group.nodes);
      case Some(declared) =>
        SameSizes(nodes, declared, size, group.nodes);
    }
  }

  lemma OnePieceAll(nodes: seq<NodeId>, size: nat, piece: seq<NodeId>)
    requires |piece| > 1 && |nodes| <= size
    ensures SomePiece(nodes, size, piece) <==> piece == nodes
  {
    hide SomePiece;
    OnePiece(nodes, size, piece);
  }

  lemma SameSizes(nodes: seq<NodeId>, declared: nat, size: nat, piece: seq<NodeId>)
    requires |piece| > 1 && size == if declared > 1 then declared else 1
    ensures SomePiece(nodes, size, piece) <==> exists i: nat :: PieceAt(nodes, declared, i, piece)
  {
    if declared == 0 {
      forall i: nat
        ensures !PieceAt(nodes, declared, i, piece) && !PieceAt(nodes, size, i, piece)
      {
      }
    }
  }

  // -------------------------------------------------------------- collected

  lemma {:induction false} ToolsGroupsAre(plan: Plan, layer: seq<NodeId>, tools: seq<ToolName>, group: BatchGroup)
    ensures group in ToolsGroups(plan, layer, tools) <==>
      group.tool in tools && group in ToolGroups(plan, layer, group.tool)
  {
    hide ToolGroups;
    if tools != [] {
      var init, last := tools[..|tools| - 1], tools[|tools| - 1];
      ToolsGroupsAre(plan, layer, init, group);
      assert tools == init + [last];
      if group in ToolGroups(plan, layer, last) {
        GroupsTool(plan, layer, last, group);
      }
    }
  }

  lemma GroupsTool(plan: Plan, layer: seq<NodeId>, tool: ToolName, group: BatchGroup)
    requires group in ToolGroups(plan, layer, tool)
    ensures group.tool == tool && |group.nodes| > 1
    ensures forall id | id in group.nodes :: id in Candidates(plan, layer, tool)
  {
    hide Candidates, Chunked, PieceAt;
    var nodes := Candidates(plan, layer, tool);
    var size := BatchSize(plan, tool, |nodes|);
    ChunksArePieces(tool, nodes, size, group);
    var i: nat :| PieceAt(nodes, size, i, group.nodes);
    PieceWithin(nodes, size, i, group.nodes);
  }

  lemma PieceWithin(nodes: seq<NodeId>, size: nat, i: nat, piece: seq<NodeId>)
    requires PieceAt(nodes, size, i, piece)
    ensures forall id | id in piece :: id in nodes
  {
    assert forall id | id in nodes[i * size..] :: id in nodes;
  }

  lemma LayerGroupsAre(plan: Plan, layer: seq<NodeId>, group: BatchGroup)
    ensures group in LayerGroups(plan, layer) <==> group in ToolGroups(plan, layer, group.tool)
    ensures group in LayerGroups(plan, layer) ==> group.nodes != [] && forall id | id in group.nodes :: id in layer
  {
    hide ToolGroups, IsCandidate, Candidates;
    ToolsGroupsAre(plan, layer, Sorted(BatchTools(plan, layer)), group);
    if group in ToolGroups(plan, layer, group.tool) {
      GroupsTool(plan, layer, group.tool, group);
      CandidatesWithin(plan, layer, group.tool);
      assert group.nodes[0] in group.nodes;
    }
  }

  lemma {:induction false} CandidatesWithin(plan: Plan, layer: seq<NodeId>, tool: ToolName)
    ensures forall id | id in Candidates(plan, layer, tool) ::
      id in layer && IsCandidate(plan, id) && ToolOf(plan, id) == tool
  {
    hide IsCandidate;
    if layer != [] {
      var init, last := layer[..|layer| - 1], layer[|layer| - 1];
      CandidatesWithin(plan, init, tool);
      assert layer == init + [last];
    }
  }

  lemma {:induction false} AllGroupsAre(plan: Plan, layers: seq<seq<NodeId>>, group: BatchGroup)
    ensures group in AllGroups(plan, layers) <==> exists k :: 0 <= k < |layers| && group in LayerGroups(plan, layers[k])
  {
    hide LayerGroups;
    if layers != [] {
      var init, last := layers[..|layers| - 1], layers[|layers| - 1];
      AllGroupsAre(plan, init, group);
      if group in AllGroups(plan, init) {
        var k :| 0 <= k < |init| && group in LayerGroups(plan, init[k]);
        assert layers[k] == init[k];
      }
      if k :| 0 <= k < |layers| && group in LayerGroups(plan, layers[k]) {
        if k < |init| {
          assert init[k] == layers[k];
        }
      }
    }
  }

  /** The groups that call `tool` in a layer are exactly the batches of the nodes
      there that batch as its calls. */
  lemma GroupsAreBatches(plan: Plan, templates: Templates, graph: Graph, k: nat, nodes: seq<NodeId>, group: BatchGroup)
    requires DistinctIds(plan.nodes) && GraphOf(plan, templates, graph) && k < |graph.layers|
    requires group.tool in plan.tools && Batchable(plan, graph.layers[k], group.tool, nodes)
    requires exists id :: id in group.nodes && id in graph.layers[k]
    ensures group in AllGroups(plan, graph.layers) <==> IsBatch(plan, group.tool, nodes, group.nodes)
  {
    hide DistinctIds, GraphOf, AllGroups, LayerGroups, ToolGroups, IsBatch, Batchable, Increasing;
    AllGroupsAre(plan, graph.layers, group);
    LayerIncreases(plan, templates, graph, k);
    BatchableUnique(plan, graph.layers[k], group.tool, nodes);
    LayerGroupsAre(plan, graph.layers[k], group);
    ToolGroupsAre(plan, graph.layers[k], group.tool, group);
    var id :| id in group.nodes && id in graph.layers[k];
    forall j | 0 <= j < |graph.layers| && group in LayerGroups(plan, graph.layers[j])
      ensures j == k
    {
      LayerGroupsAre(plan, graph.layers[j], group);
      OneLayer(plan, templates, graph, j, k, id);
    }
  }

  lemma LayerIncreases(plan: Plan, templates: Templates, graph: Graph, k: nat)
    requires GraphOf(plan, templates, graph) && k < |graph.layers|
    ensures Increasing(graph.layers[k])
  {
    GraphKeys(plan, templates, graph);
    LayerAt(graph.dependencies, graph.effects, graph.layers, k);
  }

  lemma OneLayer(plan: Plan, templates: Templates, graph: Graph, j: nat, k: nat, id: NodeId)
    requires GraphOf(plan, templates, graph) && j < |graph.layers| && k < |graph.layers|
    requires id in graph.layers[j] && id in graph.layers[k]
    ensures j == k
  {
    GraphKeys(plan, templates, graph);
    LayersDistinct(graph.dependencies, graph.effects, graph.layers, id);
  }
}
