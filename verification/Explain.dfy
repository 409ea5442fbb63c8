/** Why unordered nodes were serialized: the order index, a bitset form of the
    transitive closure, and the diagnostics drawn from it. */
module Explains {
  import opened Wrappers
  import opened Strings
  import opened Plans
  import opened Layers
  import opened Graphs
  import opened Batching
  import opened BitMatrices

  // ------------------------------------------------------------ reachability

  /** Edges from later positions to earlier ones. */
  ghost predicate Descending(edges: seq<set<nat>>) {
    forall p, q | 0 <= p < |edges| && q in edges[p] :: q < p
  }

  /** Some chain of edges leads from `p` to `q`. */
  ghost predicate Reaches(edges: seq<set<nat>>, p: nat, q: nat)
    requires Descending(edges) && p < |edges|
    decreases p
  {
    q in edges[p] || exists m | m in edges[p] :: Reaches(edges, m, q)
  }

  lemma {:induction false} ReachesThrough(edges: seq<set<nat>>, p: nat, m: nat, q: nat)
    requires Descending(edges) && p < |edges| && m < |edges| && Reaches(edges, p, m) && q in edges[m]
    ensures Reaches(edges, p, q)
    decreases p
  {
    if m !in edges[p] {
      var k :| k in edges[p] && Reaches(edges, k, m);
      ReachesThrough(edges, k, m, q);
    } else {
      assert Reaches(edges, m, q);
    }
  }

  lemma {:induction false} LastEdge(edges: seq<set<nat>>, p: nat, q: nat) returns (m: nat)
    requires Descending(edges) && p < |edges| && Reaches(edges, p, q)
    ensures m < |edges| && q in edges[m] && (m == p || Reaches(edges, p, m))
    decreases p
  {
    if q in edges[p] {
      m := p;
    } else {
      var k :| k in edges[p] && Reaches(edges, k, q);
      m := LastEdge(edges, k, q);
    }
  }

  /** The targets and everything reachable from them. */
  ghost function Down(edges: seq<set<nat>>, targets: set<nat>): set<nat>
    requires Descending(edges)
  {
    set q | 0 <= q < |edges| && (q in targets || exists m | m in targets :: m < |edges| && Reaches(edges, m, q))
  }

  ghost function Ancestors(edges: seq<set<nat>>, p: nat): set<nat>
    requires Descending(edges) && p < |edges|
  {
    set q | 0 <= q < |edges| && Reaches(edges, p, q)
  }

  /** The sources and everything that reaches them. */
  ghost function Up(edges: seq<set<nat>>, sources: set<nat>): set<nat>
    requires Descending(edges)
  {
    set p | 0 <= p < |edges| && (p in sources || exists m | m in sources :: Reaches(edges, p, m))
  }

  ghost function Descendants(edges: seq<set<nat>>, q: nat): set<nat>
    requires Descending(edges)
  {
    set p | 0 <= p < |edges| && Reaches(edges, p, q)
  }

  ghost function ParentsFrom(edges: seq<set<nat>>, bound: nat, q: nat): set<nat> {
    set m | bound <= m < |edges| && q in edges[m]
  }

  lemma AncestorsDown(edges: seq<set<nat>>, p: nat)
    requires Descending(edges) && p < |edges|
    ensures Ancestors(edges, p) == Down(edges, edges[p])
  {
  }

  lemma DownStep(edges: seq<set<nat>>, done: set<nat>, m: nat)
    requires Descending(edges) && m < |edges|
    ensures Down(edges, done + {m}) == Down(edges, done) + Ancestors(edges, m) + {m}
  {
  }

  lemma UpStep(edges: seq<set<nat>>, done: set<nat>, m: nat)
    requires Descending(edges) && m < |edges|
    ensures Up(edges, done + {m}) == Up(edges, done) + Descendants(edges, m) + {m}
  {
  }

  /** Once all later positions were visited, a position's descendants are complete. */
  lemma DescendantsUp(edges: seq<set<nat>>, bound: nat, q: nat)
    requires Descending(edges) && bound <= q + 1
    ensures Descendants(edges, q) == Up(edges, ParentsFrom(edges, bound, q))
  {
    forall p | 0 <= p < |edges|
      ensures p in Descendants(edges, q) <==> p in Up(edges, ParentsFrom(edges, bound, q))
    {
      if Reaches(edges, p, q) {
        var m := LastEdge(edges, p, q);
        assert m in ParentsFrom(edges, bound, q);
      }
      if m :| m in ParentsFrom(edges, bound, q) && Reaches(edges, p, m) {
        ReachesThrough(edges, p, m, q);
      }
    }
  }

  // -------------------------------------------------------------- the passes

  /** Node positions, and the edges between them. */
  ghost predicate Indexed(ids: seq<NodeId>, index: map<NodeId, nat>) {
    && (forall n | n in index :: index[n] < |ids| && ids[index[n]] == n)
    && forall p | 0 <= p < |ids| :: ids[p] in index && index[ids[p]] == p
  }

  ghost predicate EdgesOf(deps: Dependencies, ids: seq<NodeId>, index: map<NodeId, nat>, edges: seq<set<nat>>) {
    && |edges| == |ids|
    && forall p | 0 <= p < |ids| ::
         ids[p] in deps && deps[ids[p]] <= index.Keys && edges[p] == set d | d in deps[ids[p]] && d in index :: index[d]
  }

  function Positions(index: map<NodeId, nat>, nodes: set<NodeId>): set<nat>
    requires nodes <= index.Keys
  {
    set d | d in nodes :: index[d]
  }

  ghost function AncestorRows(edges: seq<set<nat>>, bound: nat): (rows: seq<set<nat>>)
    requires Descending(edges) && bound <= |edges|
    ensures |rows| == |edges| && forall p | 0 <= p < |edges| :: rows[p] == if p < bound then Ancestors(edges, p) else {}
  {
    seq(|edges|, p requires 0 <= p < |edges| => if p < bound then Ancestors(edges, p) else {})
  }

  ghost function DescendantRows(edges: seq<set<nat>>, bound: nat): (rows: seq<set<nat>>)
    requires Descending(edges)
    ensures |rows| == |edges| && forall q | 0 <= q < |edges| :: rows[q] == Up(edges, ParentsFrom(edges, bound, q))
  {
    seq(|edges|, q requires 0 <= q < |edges| => Up(edges, ParentsFrom(edges, bound, q)))
  }

  lemma EmptyMatrix(bits: seq<Word>, words: nat, rows: seq<set<nat>>)
    requires |bits| == |rows| * words && (forall i | 0 <= i < |bits| :: bits[i] == {})
      && forall r | 0 <= r < |rows| :: rows[r] == {}
    ensures Matrix(bits, words, rows)
  {
    forall r | 0 <= r < |rows|
      ensures RowBounded(bits, words, r, |rows|) && RowIs(bits, words, r, rows[r])
    {
      RowsFit(words, r, |rows|);
      forall k | 0 <= k < words
        ensures At(bits, words, r, k) == {}
      {
      }
    }
  }

  /** The forward pass: each row gathers its dependencies and their rows. */
  method ForwardPass(deps: Dependencies, ids: seq<NodeId>, index: map<NodeId, nat>, words: nat,
      ghost edges: seq<set<nat>>) returns (ancestors: array<Word>)
    requires Indexed(ids, index) && EdgesOf(deps, ids, index, edges) && Descending(edges) && |ids| <= 64 * words
    ensures fresh(ancestors) && Matrix(ancestors[..], words, AncestorRows(edges, |edges|))
  {
    hide Matrix, Ancestors, Down;
    ancestors := new Word[|ids| * words](_ => {});
    EmptyMatrix(ancestors[..], words, AncestorRows(edges, 0));
    for p := 0 to |ids|
      invariant Matrix(ancestors[..], words, AncestorRows(edges, p))
    {
      ghost var rows := AncestorRows(edges, p);
      assert rows[p := {}] == rows;
      DownNone(edges);
      var todo := deps[ids[p]];
      assert deps[ids[p]] - todo == {} && Positions(index, {}) == {};
      while todo != {}
        invariant todo <= deps[ids[p]] <= index.Keys
        invariant Matrix(ancestors[..], words, rows[p := Down(edges, Positions(index, deps[ids[p]] - todo))])
      {
        var dep :| dep in todo;
        var q := index[dep];
        ghost var done := deps[ids[p]] - todo;
        assert q in edges[p];
        ghost var current := rows[p := Down(edges, Positions(index, done))];
        OrRow(ancestors, words, q, p, current);
        ghost var merged := current[p := current[p] + current[q]];
        SetBit(ancestors, words, p, q, merged);
        assert Positions(index, done + {dep}) == Positions(index, done) + {q};
        DownStep(edges, Positions(index, done), q);
        assert merged[p := merged[p] + {q}] == rows[p := Down(edges, Positions(index, done + {dep}))];
        todo := todo - {dep};
        assert deps[ids[p]] - todo == done + {dep};
      }
      assert deps[ids[p]] - todo == deps[ids[p]];
      assert Positions(index, deps[ids[p]]) == edges[p];
      AncestorsDown(edges, p);
      assert rows[p := Ancestors(edges, p)] == AncestorRows(edges, p + 1);
    }
  }

  lemma DownNone(edges: seq<set<nat>>)
    requires Descending(edges)
    ensures Down(edges, {}) == {}
  {
  }

  /** The rows while position `m` hands its descendants to its dependencies. */
  ghost function HandingDown(edges: seq<set<nat>>, m: nat, done: set<nat>): (rows: seq<set<nat>>)
    requires Descending(edges)
    ensures |rows| == |edges|
    ensures forall q | 0 <= q < |edges| ::
      rows[q] == Up(edges, ParentsFrom(edges, m + 1, q) + if q in done then {m} else {})
  {
    seq(|edges|, q requires 0 <= q < |edges| => Up(edges, ParentsFrom(edges, m + 1, q) + if q in done then {m} else {}))
  }

  lemma HandStart(edges: seq<set<nat>>, m: nat)
    requires Descending(edges)
    ensures HandingDown(edges, m, {}) == DescendantRows(edges, m + 1)
  {
    forall q | 0 <= q < |edges|
      ensures HandingDown(edges, m, {})[q] == DescendantRows(edges, m + 1)[q]
    {
      assert ParentsFrom(edges, m + 1, q) + {} == ParentsFrom(edges, m + 1, q);
    }
  }

  lemma HandRows(edges: seq<set<nat>>, m: nat, done: set<nat>, q: nat)
    requires Descending(edges) && m < |edges| && q in edges[m] && done <= edges[m] && q !in done
    ensures q < m && m !in done
    ensures Up(edges, ParentsFrom(edges, m + 1, m) + {}) == Descendants(edges, m)
    ensures Up(edges, ParentsFrom(edges, m + 1, q) + {m}) ==
      Up(edges, ParentsFrom(edges, m + 1, q) + {}) + Descendants(edges, m) + {m}
  {
    hide Up, Descendants, ParentsFrom;
    DescendantsUp(edges, m + 1, m);
    assert ParentsFrom(edges, m + 1, m) + {} == ParentsFrom(edges, m + 1, m);
    UpStep(edges, ParentsFrom(edges, m + 1, q), m);
    assert ParentsFrom(edges, m + 1, q) + {} == ParentsFrom(edges, m + 1, q);
  }

  lemma HandStep(edges: seq<set<nat>>, m: nat, done: set<nat>, q: nat)
    requires Descending(edges) && m < |edges| && q in edges[m] && done <= edges[m] && q !in done
    ensures var rows := HandingDown(edges, m, done);
      && q < m && rows[m] == Descendants(edges, m)
      && HandingDown(edges, m, done + {q}) == rows[q := rows[q] + rows[m]][q := rows[q] + rows[m] + {m}]
  {
    HandRows(edges, m, done, q);
    hide Up, ParentsFrom, Descendants, Descending;
    var rows, after := HandingDown(edges, m, done), HandingDown(edges, m, done + {q});
    forall r | 0 <= r < |edges|
      ensures after[r] == rows[q := rows[q] + rows[m]][q := rows[q] + rows[m] + {m}][r]
    {
    }
  }

  lemma HandEnd(edges: seq<set<nat>>, m: nat)
    requires Descending(edges) && m < |edges|
    ensures HandingDown(edges, m, edges[m]) == DescendantRows(edges, m)
  {
    forall q | 0 <= q < |edges|
      ensures HandingDown(edges, m, edges[m])[q] == DescendantRows(edges, m)[q]
    {
      assert ParentsFrom(edges, m, q) == ParentsFrom(edges, m + 1, q) + if q in edges[m] then {m} else {};
    }
  }

  /** Position `p` hands its row, and itself, to each of its dependencies. */
  method HandDown(deps: Dependencies, ids: seq<NodeId>, index: map<NodeId, nat>, words: nat, ghost edges: seq<set<nat>>,
      descendants: array<Word>, p: nat)
    requires Indexed(ids, index) && EdgesOf(deps, ids, index, edges) && Descending(edges) && |ids| <= 64 * words
      && p < |ids|
    requires Matrix(descendants[..], words, DescendantRows(edges, p + 1))
    modifies descendants
    ensures Matrix(descendants[..], words, DescendantRows(edges, p))
  {
    hide Matrix, Up, ParentsFrom, Descending, Indexed, EdgesOf, Positions;
    HandStart(edges, p);
    DependenciesIndexed(deps, ids, index, edges, p);
    var todo := deps[ids[p]];
    assert deps[ids[p]] - todo == {};
    while todo != {}
      invariant todo <= deps[ids[p]] <= index.Keys
      invariant Matrix(descendants[..], words, HandingDown(edges, p, Positions(index, deps[ids[p]] - todo)))
    {
      var dep :| dep in todo;
      var q := index[dep];
      ghost var done := deps[ids[p]] - todo;
      PositionNew(deps, ids, index, edges, p, done, dep);
      ghost var rows := HandingDown(edges, p, Positions(index, done));
      HandStep(edges, p, Positions(index, done), q);
      OrRow(descendants, words, p, q, rows);
      SetBit(descendants, words, q, p, rows[q := rows[q] + rows[p]]);
      todo := todo - {dep};
      assert deps[ids[p]] - todo == done + {dep};
    }
    assert deps[ids[p]] - todo == deps[ids[p]];
    HandEnd(edges, p);
  }

  lemma DependenciesIndexed(deps: Dependencies, ids: seq<NodeId>, index: map<NodeId, nat>, edges: seq<set<nat>>, p: nat)
    requires Indexed(ids, index) && EdgesOf(deps, ids, index, edges) && p < |ids|
    ensures ids[p] in deps && deps[ids[p]] <= index.Keys && Positions(index, deps[ids[p]]) == edges[p]
      && Positions(index, {}) == {}
    ensures |edges| == |ids|
  {
  }

  /** The backward pass: each row hands itself down to its dependencies. */
  method BackwardPass(deps: Dependencies, ids: seq<NodeId>, index: map<NodeId, nat>, words: nat,
      ghost edges: seq<set<nat>>) returns (descendants: array<Word>)
    requires Indexed(ids, index) && EdgesOf(deps, ids, index, edges) && Descending(edges) && |ids| <= 64 * words
    ensures fresh(descendants) && Matrix(descendants[..], words, DescendantRows(edges, 0))
  {
    hide Matrix, Up, ParentsFrom, Descending, Indexed;
    descendants := new Word[|ids| * words](_ => {});
    NoParents(edges);
    EmptyMatrix(descendants[..], words, DescendantRows(edges, |edges|));
    var p: nat := |ids|;
    while p > 0
      invariant p <= |ids| && Matrix(descendants[..], words, DescendantRows(edges, p))
    {
      p := p - 1;
      HandDown(deps, ids, index, words, edges, descendants, p);
    }
  }

  lemma PositionNew(deps: Dependencies, ids: seq<NodeId>, index: map<NodeId, nat>, edges: seq<set<nat>>, p: nat,
      done: set<NodeId>, dep: NodeId)
    requires Indexed(ids, index) && EdgesOf(deps, ids, index, edges) && p < |ids| && done <= deps[ids[p]]
      && dep in deps[ids[p]] && dep !in done
    ensures Positions(index, done) <= edges[p] && index[dep] in edges[p] && index[dep] !in Positions(index, done)
    ensures Positions(index, done + {dep}) == Positions(index, done) + {index[dep]}
  {
  }

  lemma NoParents(edges: seq<set<nat>>)
    requires Descending(edges)
    ensures forall q | 0 <= q < |edges| :: DescendantRows(edges, |edges|)[q] == {}
  {
    forall q | 0 <= q < |edges|
      ensures DescendantRows(edges, |edges|)[q] == {}
    {
      assert ParentsFrom(edges, |edges|, q) == {};
    }
  }

  // ---------------------------------------------------------------- partners

  /** Positions in different layers with no chain of edges between them. */
  ghost predicate UnorderedAcross(edges: seq<set<nat>>, layerOf: seq<nat>, p: nat, q: nat)
    requires Descending(edges) && |layerOf| == |edges| && p < |edges| && q < |edges|
  {
    layerOf[p] != layerOf[q] && !Reaches(edges, p, q) && !Reaches(edges, q, p)
  }

  ghost function Partners(edges: seq<set<nat>>, layerOf: seq<nat>, p: nat): set<nat>
    requires Descending(edges) && |layerOf| == |edges| && p < |edges|
  {
    set q | 0 <= q < |edges| && UnorderedAcross(edges, layerOf, p, q)
  }

  ghost function LayerMembers(layerOf: seq<nat>, k: nat): set<nat> {
    set q | 0 <= q < |layerOf| && layerOf[q] == k
  }

  /** Edges lead to strictly earlier layers. */
  ghost predicate Layered(edges: seq<set<nat>>, layerOf: seq<nat>) {
    && |layerOf| == |edges|
    && forall p, q | 0 <= p < |edges| && q in edges[p] :: q < |edges| && layerOf[q] < layerOf[p]
  }

  lemma {:induction false} ReachesEarlierLayer(edges: seq<set<nat>>, layerOf: seq<nat>, p: nat, q: nat)
    requires Descending(edges) && Layered(edges, layerOf) && p < |edges| && Reaches(edges, p, q)
    ensures q < |edges| && layerOf[q] < layerOf[p]
    decreases p
  {
    if q !in edges[p] {
      var m :| m in edges[p] && Reaches(edges, m, q);
      ReachesEarlierLayer(edges, layerOf, m, q);
    }
  }

  function FirstPositions(n: nat): (s: set<nat>)
    ensures |s| == n && forall p :: p in s <==> 0 <= p < n
  {
    if n == 0 then {} else FirstPositions(n - 1) + {n - 1}
  }

  lemma UnionSize(a: set<nat>, b: set<nat>)
    requires a !! b
    ensures |a + b| == |a| + |b|
  {
  }

  /** The count never underflows, and is the number of unordered partners in
      other layers. */
  lemma PartnerCount(edges: seq<set<nat>>, layerOf: seq<nat>, p: nat)
    requires Descending(edges) && Layered(edges, layerOf) && p < |edges|
    ensures |LayerMembers(layerOf, layerOf[p])| >= 1
    ensures |edges| - 1 >= |Ancestors(edges, p)| + |Descendants(edges, p)|
    ensures |edges| - 1 - (|Ancestors(edges, p)| + |Descendants(edges, p)|) >= |LayerMembers(layerOf, layerOf[p])| - 1
    ensures |Partners(edges, layerOf, p)| ==
      |edges| - 1 - (|Ancestors(edges, p)| + |Descendants(edges, p)|) - (|LayerMembers(layerOf, layerOf[p])| - 1)
  {
    var up, down := Ancestors(edges, p), Descendants(edges, p);
    var layer, partners := LayerMembers(layerOf, layerOf[p]), Partners(edges, layerOf, p);
    assert p in layer;
    forall q | 0 <= q < |edges|
      ensures q in up ==> q !in down && q !in layer && q !in partners
      ensures q in down ==> q !in layer && q !in partners
    {
      if q in up {
        ReachesEarlierLayer(edges, layerOf, p, q);
      }
      if q in down {
        ReachesEarlierLayer(edges, layerOf, q, p);
      }
    }
    assert up !! down && (up + down) !! layer && (up + down + layer) !! partners;
    UnionSize(up, down);
    UnionSize(up + down, layer);
    UnionSize(up + down + layer, partners);
    assert up + down + layer + partners == FirstPositions(|edges|);
  }

  // ---------------------------------------------------------- the order index

  datatype OrderIndex = OrderIndex(
    ids: seq<NodeId>,
    index: map<NodeId, nat>,
    layerOf: seq<nat>,
    layerSizes: seq<nat>,
    words: nat,
    ancestors: seq<Word>,
    descendants: seq<Word>)

  ghost function EdgesIn(graph: Graph, o: OrderIndex): (edges: seq<set<nat>>)
    ensures |edges| == |o.ids|
  {
    seq(|o.ids|, p requires 0 <= p < |o.ids| =>
      if o.ids[p] in graph.dependencies && graph.dependencies[o.ids[p]] <= o.index.Keys
      then Positions(o.index, graph.dependencies[o.ids[p]]) else {})
  }

  /** The graph's nodes are its layers' members, in dependency order. */
  ghost predicate GraphOk(graph: Graph) {
    graph.dependencies.Keys == graph.effects.Keys && Layering(graph.dependencies, graph.effects, graph.layers)
  }

  ghost predicate LayersIn(layers: seq<seq<NodeId>>, index: map<NodeId, nat>, layerOf: seq<nat>) {
    forall k, n | 0 <= k < |layers| && n in layers[k] :: n in index && index[n] < |layerOf| && layerOf[index[n]] == k
  }

  /** The index says what the graph says: positions, layers, and the transitive
      closure both ways. */
  ghost predicate Indexes(graph: Graph, o: OrderIndex) {
    var edges := EdgesIn(graph, o);
    && o.ids == Flatten(graph.layers) && Indexed(o.ids, o.index) && o.index.Keys == graph.dependencies.Keys
    && EdgesOf(graph.dependencies, o.ids, o.index, edges) && Descending(edges)
    && |o.layerOf| == |o.ids| && LayersIn(graph.layers, o.index, o.layerOf) && Layered(edges, o.layerOf)
    && |o.layerSizes| == |graph.layers| && (forall k | 0 <= k < |graph.layers| :: o.layerSizes[k] == |graph.layers[k]|)
    && |o.ids| <= 64 * o.words
    && Matrix(o.ancestors, o.words, AncestorRows(edges, |edges|))
    && Matrix(o.descendants, o.words, DescendantRows(edges, 0))
  }

  method IndexIds(ids: seq<NodeId>) returns (index: map<NodeId, nat>)
    requires NoRepeats(ids)
    ensures Indexed(ids, index) && index.Keys == Listing(ids)
  {
    index := map[];
    ListingNone();
    for p := 0 to |ids|
      invariant forall n | n in index :: index[n] < p && ids[index[n]] == n
      invariant forall q | 0 <= q < p :: ids[q] in index && index[ids[q]] == q
      invariant index.Keys == Listing(ids[..p])
    {
      ListingMore(ids, p);
      index := index[ids[p] := p];
    }
    assert ids[..|ids|] == ids;
  }

  method IndexLayers(layers: seq<seq<NodeId>>, index: map<NodeId, nat>, n: nat)
        returns (layerOf: seq<nat>, layerSizes: seq<nat>)
    requires forall k, x | 0 <= k < |layers| && x in layers[k] :: x in index && index[x] < n
    requires forall x, y | x in index && y in index && index[x] == index[y] :: x == y
    requires forall i, j, x | 0 <= i < |layers| && 0 <= j < |layers| && x in layers[i] && x in layers[j] :: i == j
    ensures |layerOf| == n && LayersIn(layers, index, layerOf)
    ensures |layerSizes| == |layers| && forall k | 0 <= k < |layers| :: layerSizes[k] == |layers[k]|
  {
    layerSizes := [];
    layerOf := seq(n, _ => 0);
    for k := 0 to |layers|
      invariant |layerSizes| == k && forall j | 0 <= j < k :: layerSizes[j] == |layers[j]|
      invariant |layerOf| == n && forall j, x | 0 <= j < k && x in layers[j] :: layerOf[index[x]] == j
    {
      layerSizes := layerSizes + [|layers[k]|];
      for i := 0 to |layers[k]|
        invariant |layerOf| == n && forall j, x | 0 <= j < k && x in layers[j] :: layerOf[index[x]] == j
        invariant forall h | 0 <= h < i :: layerOf[index[layers[k][h]]] == k
      {
        assert layers[k][i] in layers[k];
        layerOf := layerOf[index[layers[k][i]] := k];
      }
    }
  }

  /** `OrderIndex::new`. */
  method NewOrderIndex(graph: Graph) returns (o: OrderIndex)
    requires GraphOk(graph)
    ensures Indexes(graph, o)
  {
    hide LayersOk, Flatten, Matrix, AncestorRows, DescendantRows, Emitted;
    var ids := Flatten(graph.layers);
    FlatGraph(graph);
    var index := IndexIds(ids);
    LayersIndexed(graph, index);
    var layerOf, layerSizes := IndexLayers(graph.layers, index, |ids|);
    var words := (|ids| + 63) / 64;
    o := OrderIndex(ids, index, layerOf, layerSizes, words, [], []);
    ghost var edges := EdgesIn(graph, o);
    GraphEdges(graph, o);
    var ancestors := ForwardPass(graph.dependencies, ids, index, words, edges);
    var descendants := BackwardPass(graph.dependencies, ids, index, words, edges);
    o := o.(ancestors := ancestors[..], descendants := descendants[..]);
    assert EdgesIn(graph, o) == edges;
  }

  lemma FlatGraph(graph: Graph)
    requires GraphOk(graph)
    ensures Topological(graph.dependencies, Flatten(graph.layers))
      && Listing(Flatten(graph.layers)) == graph.dependencies.Keys
  {
    FlattenTopological(graph.dependencies, graph.effects, graph.layers, |graph.layers|);
    assert graph.layers[..|graph.layers|] == graph.layers;
  }

  lemma LayersIndexed(graph: Graph, index: map<NodeId, nat>)
    requires GraphOk(graph) && Indexed(Flatten(graph.layers), index) && index.Keys == graph.dependencies.Keys
    ensures forall k, x | 0 <= k < |graph.layers| && x in graph.layers[k] ::
      x in index && index[x] < |Flatten(graph.layers)|
    ensures forall i, j, x | 0 <= i < |graph.layers| && 0 <= j < |graph.layers| && x in graph.layers[i]
        && x in graph.layers[j] ::
      i == j
  {
    hide LayersOk, Flatten, Emitted;
    forall k, x | 0 <= k < |graph.layers| && x in graph.layers[k]
      ensures x in index && index[x] < |Flatten(graph.layers)|
    {
      EmittedHasLayer(graph.layers, x);
    }
    forall i, j, x | 0 <= i < |graph.layers| && 0 <= j < |graph.layers| && x in graph.layers[i] && x in graph.layers[j]
      ensures i == j
    {
      LayersDistinct(graph.dependencies, graph.effects, graph.layers, x);
    }
  }

  lemma GraphEdges(graph: Graph, o: OrderIndex)
    requires GraphOk(graph) && o.ids == Flatten(graph.layers) && Indexed(o.ids, o.index)
      && o.index.Keys == graph.dependencies.Keys
    requires |o.layerOf| == |o.ids| && LayersIn(graph.layers, o.index, o.layerOf)
    ensures EdgesOf(graph.dependencies, o.ids, o.index, EdgesIn(graph, o)) && Descending(EdgesIn(graph, o))
      && Layered(EdgesIn(graph, o), o.layerOf)
  {
    hide LayersOk, Flatten, Emitted, LayersIn;
    var edges := EdgesIn(graph, o);
    forall p | 0 <= p < |o.ids|
      ensures o.ids[p] in graph.dependencies && graph.dependencies[o.ids[p]] <= o.index.Keys
      ensures forall q | q in edges[p] :: q < p && o.layerOf[q] < o.layerOf[p]
    {
      var n := o.ids[p];
      PositionEarlier(graph, o.ids, o.index, p);
      forall q | q in edges[p]
        ensures q < p && o.layerOf[q] < o.layerOf[p]
      {
        var d :| d in graph.dependencies[n] && q == o.index[d];
        LayerEarlier(graph, o.index, o.layerOf, n, d);
      }
    }
  }

  lemma PositionEarlier(graph: Graph, ids: seq<NodeId>, index: map<NodeId, nat>, p: nat)
    requires GraphOk(graph) && ids == Flatten(graph.layers) && Indexed(ids, index)
      && index.Keys == graph.dependencies.Keys && p < |ids|
    ensures ids[p] in graph.dependencies && graph.dependencies[ids[p]] <= index.Keys
    ensures forall d | d in graph.dependencies[ids[p]] :: index[d] < p
  {
    FlatGraph(graph);
    hide GraphOk, Flatten;
    forall d | d in graph.dependencies[ids[p]]
      ensures d in index && index[d] < p
    {
      assert d in Listing(ids[..p]);
      var j :| 0 <= j < p && ids[j] == d;
    }
  }

  lemma LayerEarlier(graph: Graph, index: map<NodeId, nat>, layerOf: seq<nat>, n: NodeId, d: NodeId)
    requires GraphOk(graph) && LayersIn(graph.layers, index, layerOf) && n in graph.dependencies
      && d in graph.dependencies[n]
    ensures n in index && d in index && index[n] < |layerOf| && index[d] < |layerOf|
    ensures layerOf[index[d]] < layerOf[index[n]]
  {
    hide LayersOk, Emitted;
    EmittedHasLayer(graph.layers, n);
    var k :| 0 <= k < |graph.layers| && n in graph.layers[k];
    DependencyEarlier(graph.dependencies, graph.effects, graph.layers, k, n, d);
  }

  // --------------------------------------------------------- in terms of nodes

  ghost predicate Chain(deps: Dependencies, path: seq<NodeId>) {
    |path| > 1 && forall i | 0 <= i < |path| - 1 :: path[i] in deps && path[i + 1] in deps[path[i]]
  }

  /** `a` depends on `b`, directly or through others. */
  ghost predicate Ordered(deps: Dependencies, a: NodeId, b: NodeId) {
    exists path :: Chain(deps, path) && path[0] == a && path[|path| - 1] == b
  }

  /** The two nodes lie in different layers although neither depends on the other. */
  ghost predicate Serialized(graph: Graph, a: NodeId, b: NodeId) {
    && a in graph.dependencies && b in graph.dependencies
    && (forall k | 0 <= k < |graph.layers| :: !(a in graph.layers[k] && b in graph.layers[k]))
    && !Ordered(graph.dependencies, a, b) && !Ordered(graph.dependencies, b, a)
  }

  lemma {:induction false} ChainReaches(graph: Graph, o: OrderIndex, path: seq<NodeId>)
    requires Indexes(graph, o) && Chain(graph.dependencies, path)
    ensures path[0] in o.index && path[|path| - 1] in o.index
    ensures Reaches(EdgesIn(graph, o), o.index[path[0]], o.index[path[|path| - 1]])
  {
    hide Matrix, Flatten;
    var edges := EdgesIn(graph, o);
    assert path[0] in graph.dependencies && path[1] in graph.dependencies[path[0]];
    assert edges[o.index[path[0]]] == Positions(o.index, graph.dependencies[path[0]]);
    if |path| > 2 {
      var rest := path[1..];
      assert forall i | 0 <= i < |rest| :: rest[i] == path[i + 1];
      ChainReaches(graph, o, rest);
    }
  }

  lemma {:induction false} ReachesChain(graph: Graph, o: OrderIndex, p: nat, q: nat) returns (path: seq<NodeId>)
    requires Indexes(graph, o) && p < |o.ids| && q < |o.ids| && Reaches(EdgesIn(graph, o), p, q)
    ensures Chain(graph.dependencies, path) && path[0] == o.ids[p] && path[|path| - 1] == o.ids[q]
    decreases p
  {
    hide Matrix, Flatten, Layered, LayersIn, AncestorRows, DescendantRows, Reaches;
    var edges := EdgesIn(graph, o);
    var m := FirstEdge(edges, p, q);
    if m == q {
      path := [o.ids[p], o.ids[q]];
    } else {
      var rest := ReachesChain(graph, o, m, q);
      path := [o.ids[p]] + rest;
    }
  }

  lemma FirstEdge(edges: seq<set<nat>>, p: nat, q: nat) returns (m: nat)
    requires Descending(edges) && p < |edges| && Reaches(edges, p, q)
    ensures m in edges[p] && m < p && (m == q || Reaches(edges, m, q))
  {
    if q in edges[p] {
      m := q;
    } else {
      m :| m in edges[p] && Reaches(edges, m, q);
    }
  }

  /** The bitsets hold exactly the dependency chains. */
  lemma ReachesIsOrdered(graph: Graph, o: OrderIndex, p: nat, q: nat)
    requires Indexes(graph, o) && p < |o.ids| && q < |o.ids|
    ensures Reaches(EdgesIn(graph, o), p, q) <==> Ordered(graph.dependencies, o.ids[p], o.ids[q])
  {
    hide Matrix, Flatten, Reaches, EdgesIn;
    if Reaches(EdgesIn(graph, o), p, q) {
      var path := ReachesChain(graph, o, p, q);
    }
    if path :| Chain(graph.dependencies, path) && path[0] == o.ids[p] && path[|path| - 1] == o.ids[q] {
      ChainReaches(graph, o, path);
    }
  }

  lemma UnorderedIsSerialized(graph: Graph, o: OrderIndex, p: nat, q: nat)
    requires GraphOk(graph) && Indexes(graph, o) && p < |o.ids| && q < |o.ids|
    ensures UnorderedAcross(EdgesIn(graph, o), o.layerOf, p, q) <==> Serialized(graph, o.ids[p], o.ids[q])
  {
    ReachesIsOrdered(graph, o, p, q);
    ReachesIsOrdered(graph, o, q, p);
    hide Matrix, Flatten, Reaches, EdgesIn, Ordered, LayersOk, Emitted;
    var a, b := o.ids[p], o.ids[q];
    EmittedHasLayer(graph.layers, a);
    EmittedHasLayer(graph.layers, b);
    var i :| 0 <= i < |graph.layers| && a in graph.layers[i];
    var j :| 0 <= j < |graph.layers| && b in graph.layers[j];
  }

  /** `unordered_cross_layer`: two layer numbers and two bits. */
  method UnorderedCrossLayer(graph: Graph, o: OrderIndex, p: nat, q: nat) returns (unordered: bool)
    requires GraphOk(graph) && Indexes(graph, o) && p < |o.ids| && q < |o.ids|
    ensures unordered <==> Serialized(graph, o.ids[p], o.ids[q])
  {
    hide Matrix, Flatten, Reaches, Serialized, GraphOk;
    ghost var edges := EdgesIn(graph, o);
    UnorderedIsSerialized(graph, o, p, q);
    var forward := GetBit(o.ancestors, o.words, p, q, AncestorRows(edges, |edges|));
    var backward := GetBit(o.ancestors, o.words, q, p, AncestorRows(edges, |edges|));
    unordered := o.layerOf[p] != o.layerOf[q] && !forward && !backward;
  }

  lemma LayerSizeIs(graph: Graph, o: OrderIndex, k: nat)
    requires GraphOk(graph) && Indexes(graph, o) && k < |graph.layers|
    ensures |LayerMembers(o.layerOf, k)| == o.layerSizes[k]
  {
    hide Matrix, Flatten, LayersOk, Emitted, Layered, EdgesOf, EdgesIn, Reaches;
    LayerAt(graph.dependencies, graph.effects, graph.layers, k);
    DistinctSize(graph.layers[k]);
    LayersIndexed(graph, o.index);
    PositionsSize(o.ids, o.index, Members(graph.layers[k]));
    forall q
      ensures q in LayerMembers(o.layerOf, k) <==> q in Positions(o.index, Members(graph.layers[k]))
    {
      if q in LayerMembers(o.layerOf, k) {
        var n := o.ids[q];
        EmittedHasLayer(graph.layers, n);
        var j :| 0 <= j < |graph.layers| && n in graph.layers[j];
      }
    }
    assert LayerMembers(o.layerOf, k) == Positions(o.index, Members(graph.layers[k]));
  }

  lemma {:induction false} PositionsSize(ids: seq<NodeId>, index: map<NodeId, nat>, nodes: set<NodeId>)
    requires Indexed(ids, index) && nodes <= index.Keys
    ensures |Positions(index, nodes)| == |nodes|
  {
    if nodes == {} {
      assert Positions(index, nodes) == {};
    } else {
      var n :| n in nodes;
      PositionsSize(ids, index, nodes - {n});
      assert Positions(index, nodes) == Positions(index, nodes - {n}) + {index[n]};
      assert index[n] !in Positions(index, nodes - {n});
    }
  }

  /** Whether any unordered node lies in another layer, by counting; the
      subtraction never goes below zero. */
  method HasPartners(graph: Graph, o: OrderIndex, p: nat) returns (some: bool)
    requires GraphOk(graph) && Indexes(graph, o) && p < |o.ids|
    ensures some <==> exists m :: Serialized(graph, o.ids[p], m)
  {
    hide Matrix, Flatten, Reaches, Serialized, LayersOk, Emitted;
    ghost var edges := EdgesIn(graph, o);
    NodeLayer(graph, o, p);
    LayerSizeIs(graph, o, o.layerOf[p]);
    PartnerCount(edges, o.layerOf, p);
    DescendantsUp(edges, 0, p);
    var up := CountRow(o.ancestors, o.words, p, AncestorRows(edges, |edges|));
    var down := CountRow(o.descendants, o.words, p, DescendantRows(edges, 0));
    var total: nat := |o.ids| - 1;
    var unordered: nat := total - (up + down) - (o.layerSizes[o.layerOf[p]] - 1);
    PartnersAreNodes(graph, o, p);
    some := unordered > 0;
  }

  lemma NodeLayer(graph: Graph, o: OrderIndex, p: nat)
    requires GraphOk(graph) && Indexes(graph, o) && p < |o.ids|
    ensures o.layerOf[p] < |graph.layers|
  {
    hide Matrix, Flatten, Reaches, LayersOk, Emitted, EdgesIn;
    EmittedHasLayer(graph.layers, o.ids[p]);
  }

  lemma PartnersAreNodes(graph: Graph, o: OrderIndex, p: nat)
    requires GraphOk(graph) && Indexes(graph, o) && p < |o.ids|
    ensures |Partners(EdgesIn(graph, o), o.layerOf, p)| > 0 <==> exists m :: Serialized(graph, o.ids[p], m)
  {
    hide Matrix, Flatten, Reaches, LayersOk, Emitted, EdgesIn, Ordered, UnorderedAcross;
    var partners := Partners(EdgesIn(graph, o), o.layerOf, p);
    if partners != {} {
      var q :| q in partners;
      UnorderedIsSerialized(graph, o, p, q);
    }
    if m :| Serialized(graph, o.ids[p], m) {
      UnorderedIsSerialized(graph, o, p, o.index[m]);
      assert o.index[m] in partners;
    }
  }

  // -------------------------------------------------------------- diagnostics

  datatype DiagnosticKind = MissingEffects | ResourceConflict

  datatype Diagnostic = Diagnostic(kind: DiagnosticKind, nodes: seq<NodeId>, resource: Option<Resource>)

  ghost predicate Touches(e: ResolvedEffects, r: Resource) {
    e.declared && (r in e.readSet || r in e.writeSet)
  }

  /** The all-pairs definition: `n` touches `r`, and so does some node it was
      serialized with, one of them writing. */
  ghost predicate InConflict(graph: Graph, r: Resource, n: NodeId) {
    && n in graph.effects && Touches(graph.effects[n], r)
    && exists m :: ConflictsWith(graph, r, n, m)
  }

  ghost predicate ConflictsWith(graph: Graph, r: Resource, n: NodeId, m: NodeId)
    requires n in graph.effects
  {
    && m in graph.effects && m != n && Touches(graph.effects[m], r)
    && (r in graph.effects[n].writeSet || r in graph.effects[m].writeSet)
    && Serialized(graph, n, m)
  }

  ghost predicate Undeclared(graph: Graph, n: NodeId) {
    n in graph.effects && !graph.effects[n].declared && exists m :: Serialized(graph, n, m)
  }

  type Touchers = map<Resource, seq<nat>>

  function ListFor(touchers: Touchers, r: Resource): seq<nat> {
    if r in touchers then touchers[r] else []
  }

  /** Which declared nodes among the first `i` write (or read) each resource. */
  ghost predicate Grouped(graph: Graph, o: OrderIndex, nodes: seq<Node>, i: nat, writes: bool, touchers: Touchers)
    requires i <= |nodes|
  {
    && (forall r | r in touchers :: touchers[r] != [])
    && forall r, p ::
         p in ListFor(touchers, r) <==> exists k :: 0 <= k < i && GroupedAt(graph, o, nodes, k, writes, r, p)
  }

  ghost predicate GroupedAt(graph: Graph, o: OrderIndex, nodes: seq<Node>, k: nat, writes: bool, r: Resource, p: nat)
    requires k < |nodes|
  {
    && nodes[k].id in graph.effects && nodes[k].id in o.index && p == o.index[nodes[k].id]
    && graph.effects[nodes[k].id].declared
    && r in if writes then graph.effects[nodes[k].id].writeSet else graph.effects[nodes[k].id].readSet
  }

  /** Appends a position to the lists of every resource in `resources`. */
  method Append(touchers: Touchers, resources: set<Resource>, p: nat) returns (after: Touchers)
    requires forall r | r in touchers :: touchers[r] != []
    ensures forall r | r in after :: after[r] != []
    ensures forall r, q :: q in ListFor(after, r) <==> q in ListFor(touchers, r) || (r in resources && q == p)
  {
    after := touchers;
    var todo := resources;
    while todo != {}
      invariant todo <= resources
      invariant forall r | r in after :: after[r] != []
      invariant forall r, q ::
        q in ListFor(after, r) <==> q in ListFor(touchers, r) || (r in resources && r !in todo && q == p)
    {
      var r :| r in todo;
      todo := todo - {r};
      after := after[r := ListFor(after, r) + [p]];
    }
  }

  /** Writers and readers per resource. */
  method GroupTouchers(plan: Plan, graph: Graph, o: OrderIndex) returns (writers: Touchers, readers: Touchers)
    requires GraphOk(graph) && Indexes(graph, o) && Ids(plan.nodes) == graph.dependencies.Keys
    ensures Grouped(graph, o, plan.nodes, |plan.nodes|, true, writers)
      && Grouped(graph, o, plan.nodes, |plan.nodes|, false, readers)
  {
    hide Indexes, GraphOk, Flatten;
    IndexKeysOf(graph, o);
    writers, readers := map[], map[];
    for i := 0 to |plan.nodes|
      invariant Grouped(graph, o, plan.nodes, i, true, writers) && Grouped(graph, o, plan.nodes, i, false, readers)
    {
      var id := plan.nodes[i].id;
      IdIn(plan.nodes, plan.nodes[i]);
      var effects := graph.effects[id];
      ghost var writers0, readers0 := writers, readers;
      if effects.declared {
        writers := Append(writers, effects.writeSet, o.index[id]);
        readers := Append(readers, effects.readSet, o.index[id]);
      }
      GroupedStep(graph, o, plan.nodes, i, true, writers0, writers);
      GroupedStep(graph, o, plan.nodes, i, false, readers0, readers);
    }
  }

  lemma IndexKeysOf(graph: Graph, o: OrderIndex)
    requires GraphOk(graph) && Indexes(graph, o)
    ensures o.index.Keys == graph.dependencies.Keys == graph.effects.Keys
    ensures Indexed(o.ids, o.index)
  {
  }

  lemma GroupedStep(graph: Graph, o: OrderIndex, nodes: seq<Node>, i: nat, writes: bool, before: Touchers,
      after: Touchers)
    requires i < |nodes| && Grouped(graph, o, nodes, i, writes, before)
    requires nodes[i].id in graph.effects && nodes[i].id in o.index
    requires forall r | r in after :: after[r] != []
    requires forall r, q ::
      q in ListFor(after, r) <==> q in ListFor(before, r) || GroupedAt(graph, o, nodes, i, writes, r, q)
    ensures Grouped(graph, o, nodes, i + 1, writes, after)
  {
    forall r, p: nat
      ensures p in ListFor(after, r) <==> exists k :: 0 <= k < i + 1 && GroupedAt(graph, o, nodes, k, writes, r, p)
    {
      if p in ListFor(before, r) {
        var k :| 0 <= k < i && GroupedAt(graph, o, nodes, k, writes, r, p);
      }
      if p in ListFor(after, r) && p !in ListFor(before, r) {
        assert GroupedAt(graph, o, nodes, i, writes, r, p);
      }
      if k :| 0 <= k < i + 1 && GroupedAt(graph, o, nodes, k, writes, r, p) {
        if k < i {
          assert p in ListFor(before, r);
        }
      }
    }
  }

  ghost predicate Declares(e: ResolvedEffects, r: Resource, writes: bool) {
    e.declared && r in if writes then e.writeSet else e.readSet
  }

  /** The grouped lists, in terms of nodes. */
  lemma GroupedNodes(plan: Plan, graph: Graph, o: OrderIndex, writes: bool, touchers: Touchers, r: Resource, p: nat)
    requires GraphOk(graph) && Indexes(graph, o) && Ids(plan.nodes) == graph.dependencies.Keys
    requires Grouped(graph, o, plan.nodes, |plan.nodes|, writes, touchers)
    ensures p in ListFor(touchers, r) <==>
      p < |o.ids| && o.ids[p] in graph.effects && Declares(graph.effects[o.ids[p]], r, writes)
  {
    hide GraphOk, Indexes, Flatten;
    IndexKeysOf(graph, o);
    if p in ListFor(touchers, r) {
      var k :| 0 <= k < |plan.nodes| && GroupedAt(graph, o, plan.nodes, k, writes, r, p);
    }
    if p < |o.ids| && o.ids[p] in graph.effects {
      var k :| 0 <= k < |plan.nodes| && plan.nodes[k].id == o.ids[p];
      assert p in ListFor(touchers, r) <== GroupedAt(graph, o, plan.nodes, k, writes, r, p);
    }
  }

  /** Whether a node was serialized with any of `partners` besides itself. */
  method AnyUnordered(graph: Graph, o: OrderIndex, p: nat, partners: seq<nat>) returns (found: bool)
    requires GraphOk(graph) && Indexes(graph, o) && p < |o.ids|
      && forall i | 0 <= i < |partners| :: partners[i] < |o.ids|
    ensures found <==> exists q :: q in partners && q != p && q < |o.ids| && Serialized(graph, o.ids[p], o.ids[q])
  {
    hide GraphOk, Indexes, Flatten, Serialized;
    for i := 0 to |partners|
      invariant forall j | 0 <= j < i :: partners[j] == p || !Serialized(graph, o.ids[p], o.ids[partners[j]])
    {
      if partners[i] != p {
        var unordered := UnorderedCrossLayer(graph, o, p, partners[i]);
        if unordered {
          return true;
        }
      }
    }
    found := false;
  }

  /** The positions whose nodes write, and read, `r`. */
  ghost predicate ListsMean(graph: Graph, o: OrderIndex, r: Resource, writing: seq<nat>, reading: seq<nat>) {
    && (forall q: nat ::
          q in writing <==> q < |o.ids| && o.ids[q] in graph.effects && Declares(graph.effects[o.ids[q]], r, true))
    && forall q: nat ::
         q in reading <==> q < |o.ids| && o.ids[q] in graph.effects && Declares(graph.effects[o.ids[q]], r, false)
  }

  lemma GroupedMean(plan: Plan, graph: Graph, o: OrderIndex, writers: Touchers, readers: Touchers, r: Resource)
    requires GraphOk(graph) && Indexes(graph, o) && Ids(plan.nodes) == graph.dependencies.Keys
    requires Grouped(graph, o, plan.nodes, |plan.nodes|, true, writers)
      && Grouped(graph, o, plan.nodes, |plan.nodes|, false, readers)
    ensures ListsMean(graph, o, r, ListFor(writers, r), ListFor(readers, r))
  {
    hide GraphOk, Indexes, Grouped, ListFor, Declares;
    forall q: nat
      ensures q in ListFor(writers, r) <==>
        q < |o.ids| && o.ids[q] in graph.effects && Declares(graph.effects[o.ids[q]], r, true)
      ensures q in ListFor(readers, r) <==>
        q < |o.ids| && o.ids[q] in graph.effects && Declares(graph.effects[o.ids[q]], r, false)
    {
      GroupedNodes(plan, graph, o, true, writers, r, q);
      GroupedNodes(plan, graph, o, false, readers, r, q);
    }
  }

  /** Writers conflict with every other toucher, readers with writers. */
  function PartnersOf(writing: seq<nat>, reading: seq<nat>, p: nat): seq<nat> {
    if p in writing then writing + reading else writing
  }

  /** Being serialized with a partner is being in conflict. */
  lemma PartnerConflicts(graph: Graph, o: OrderIndex, writing: seq<nat>, reading: seq<nat>, r: Resource, p: nat)
    requires Indexed(o.ids, o.index) && o.index.Keys == graph.effects.Keys && ListsMean(graph, o, r, writing, reading)
      && p in writing + reading
    ensures p < |o.ids|
      && forall i | 0 <= i < |PartnersOf(writing, reading, p)| :: PartnersOf(writing, reading, p)[i] < |o.ids|
    ensures InConflict(graph, r, o.ids[p]) <==>
              exists q ::
                q in PartnersOf(writing, reading, p) && q != p && q < |o.ids| && Serialized(graph, o.ids[p], o.ids[q])
  {
    hide Serialized;
    var partners, n := PartnersOf(writing, reading, p), o.ids[p];
    assert forall i | 0 <= i < |partners| :: partners[i] in partners;
    if InConflict(graph, r, n) {
      var m :| ConflictsWith(graph, r, n, m);
      assert o.ids[o.index[m]] == m && o.index[m] in partners;
    }
    if q :| q in partners && q != p && q < |o.ids| && Serialized(graph, n, o.ids[q]) {
      assert o.index[o.ids[q]] == q;
      assert ConflictsWith(graph, r, n, o.ids[q]);
    }
  }

  /** The nodes in conflict over one resource somebody writes. */
  method ConflictsOver(graph: Graph, o: OrderIndex, r: Resource, writing: seq<nat>, reading: seq<nat>)
        returns (nodes: set<NodeId>)
    requires GraphOk(graph) && Indexes(graph, o) && ListsMean(graph, o, r, writing, reading)
    ensures forall n :: n in nodes <==> InConflict(graph, r, n)
  {
    hide GraphOk, Indexes, InConflict, Serialized;
    IndexKeysOf(graph, o);
    nodes := {};
    var touchers := writing + reading;
    for i := 0 to |touchers|
      invariant forall j | 0 <= j < i ::
        touchers[j] < |o.ids| && (o.ids[touchers[j]] in nodes <==> InConflict(graph, r, o.ids[touchers[j]]))
      invariant forall n | n in nodes :: InConflict(graph, r, n)
    {
      var p := touchers[i];
      PartnerConflicts(graph, o, writing, reading, r, p);
      var conflicting := AnyUnordered(graph, o, p, PartnersOf(writing, reading, p));
      if conflicting {
        nodes := nodes + {o.ids[p]};
      }
    }
    ConflictIsToucher(graph, o, r, writing, reading);
    forall n | InConflict(graph, r, n)
      ensures n in nodes
    {
      assert o.index[n] in touchers;
      var j :| 0 <= j < |touchers| && touchers[j] == o.index[n];
    }
  }

  lemma ConflictIsToucher(graph: Graph, o: OrderIndex, r: Resource, writing: seq<nat>, reading: seq<nat>)
    requires Indexed(o.ids, o.index) && o.index.Keys == graph.effects.Keys && ListsMean(graph, o, r, writing, reading)
    ensures forall n | InConflict(graph, r, n) :: n in o.index && o.index[n] in writing + reading
  {
    hide Serialized;
  }

  /** The nodes in conflict, per resource. */
  method CollectConflicts(plan: Plan, graph: Graph, o: OrderIndex) returns (conflicts: map<Resource, set<NodeId>>)
    requires GraphOk(graph) && Indexes(graph, o) && Ids(plan.nodes) == graph.dependencies.Keys
    ensures forall r, n :: (r in conflicts && n in conflicts[r]) <==> InConflict(graph, r, n)
    ensures forall r | r in conflicts :: conflicts[r] != {}
  {
    hide GraphOk, Indexes, InConflict, ListsMean, Grouped;
    var writers, readers := GroupTouchers(plan, graph, o);
    conflicts := map[];
    var todo := writers.Keys;
    while todo != {}
      invariant todo <= writers.Keys
      invariant forall r, n ::
        (r in conflicts && n in conflicts[r]) <==> r in writers && r !in todo && InConflict(graph, r, n)
      invariant forall r | r in conflicts :: conflicts[r] != {} && r !in todo
    {
      var r :| r in todo;
      todo := todo - {r};
      GroupedMean(plan, graph, o, writers, readers, r);
      var nodes := ConflictsOver(graph, o, r, ListFor(writers, r), ListFor(readers, r));
      if nodes != {} {
        conflicts := conflicts[r := nodes];
      }
    }
    forall r, n | InConflict(graph, r, n)
      ensures r in writers
    {
      GroupedMean(plan, graph, o, writers, readers, r);
      ConflictHasWriter(graph, o, r, ListFor(writers, r), ListFor(readers, r), n);
    }
  }

  lemma ConflictHasWriter(graph: Graph, o: OrderIndex, r: Resource, writing: seq<nat>, reading: seq<nat>, n: NodeId)
    requires GraphOk(graph) && Indexes(graph, o) && ListsMean(graph, o, r, writing, reading) && InConflict(graph, r, n)
    ensures writing != []
  {
    IndexKeysOf(graph, o);
    hide GraphOk, Indexes, Serialized;
    var m :| ConflictsWith(graph, r, n, m);
    var w := if r in graph.effects[n].writeSet then n else m;
    assert o.ids[o.index[w]] == w && o.index[w] in writing;
  }

  /** The nodes whose missing declaration kept another node back. */
  method CollectUndeclared(plan: Plan, graph: Graph, o: OrderIndex) returns (undeclared: set<NodeId>)
    requires GraphOk(graph) && Indexes(graph, o) && Ids(plan.nodes) == graph.dependencies.Keys
    ensures forall n :: n in undeclared <==> Undeclared(graph, n)
  {
    hide GraphOk, Indexes, Serialized;
    IndexKeysOf(graph, o);
    undeclared := {};
    for i := 0 to |plan.nodes|
      invariant forall j | 0 <= j < i :: plan.nodes[j].id in undeclared <==> Undeclared(graph, plan.nodes[j].id)
      invariant forall n | n in undeclared :: Undeclared(graph, n)
    {
      var id := plan.nodes[i].id;
      IdIn(plan.nodes, plan.nodes[i]);
      if !graph.effects[id].declared {
        var some := HasPartners(graph, o, o.index[id]);
        if some {
          undeclared := undeclared + {id};
        }
      }
    }
    forall n | Undeclared(graph, n)
      ensures n in undeclared
    {
      assert n in Ids(plan.nodes);
    }
  }

  function ConflictReports(conflicts: map<Resource, set<NodeId>>, resources: seq<Resource>): seq<Diagnostic>
    requires forall r | r in resources :: r in conflicts
  {
    if resources == [] then []
    else
      var last := resources[|resources| - 1];
      var before := ConflictReports(conflicts, resources[..|resources| - 1]);
      before + [Diagnostic(ResourceConflict, Sorted(conflicts[last]), Some(last))]
  }

  function Reports(undeclared: set<NodeId>, conflicts: map<Resource, set<NodeId>>): seq<Diagnostic> {
    (if undeclared != {} then [Diagnostic(MissingEffects, Sorted(undeclared), None)] else [])
    + ConflictReports(conflicts, Sorted(conflicts.Keys))
  }

  /** One diagnostic per resource. */
  method ReportConflicts(conflicts: map<Resource, set<NodeId>>, resources: seq<Resource>)
        returns (reports: seq<Diagnostic>)
    requires forall r | r in resources :: r in conflicts
    ensures reports == ConflictReports(conflicts, resources)
  {
    hide Sorted;
    reports := [];
    for i := 0 to |resources|
      invariant reports == ConflictReports(conflicts, resources[..i])
    {
      assert resources[i] in resources && resources[..i + 1][..i] == resources[..i];
      reports := reports + [Diagnostic(ResourceConflict, Sorted(conflicts[resources[i]]), Some(resources[i]))];
    }
    assert resources[..|resources|] == resources;
  }

  /** One diagnostic for all undeclared nodes, one per resource in conflict. */
  method Diagnose(undeclared: set<NodeId>, conflicts: map<Resource, set<NodeId>>) returns (diagnostics: seq<Diagnostic>)
    ensures diagnostics == Reports(undeclared, conflicts)
  {
    hide Increasing, ConflictReports;
    var first := if undeclared != {} then [Diagnostic(MissingEffects, Sorted(undeclared), None)] else [];
    var more := ReportConflicts(conflicts, Sorted(conflicts.Keys));
    diagnostics := first + more;
  }

  lemma GraphIsOk(plan: Plan, templates: Templates, graph: Graph)
    requires GraphOf(plan, templates, graph)
    ensures GraphOk(graph) && Ids(plan.nodes) == graph.dependencies.Keys
  {
  }

  /** `explain_parallel_boundaries`: reports exactly the undeclared nodes with an
      unordered partner in another layer, and per resource exactly the nodes that
      the all-pairs definition puts in conflict. */
  method ExplainParallelBoundaries(plan: Plan, graph: Graph, ghost templates: Templates)
    returns (diagnostics: seq<Diagnostic>, undeclared: set<NodeId>, conflicts: map<Resource, set<NodeId>>)
    requires GraphOf(plan, templates, graph)
    ensures forall n :: n in undeclared <==> Undeclared(graph, n)
    ensures forall r, n :: (r in conflicts && n in conflicts[r]) <==> InConflict(graph, r, n)
    ensures forall r | r in conflicts :: conflicts[r] != {}
    ensures diagnostics == Reports(undeclared, conflicts)
  {
    hide Indexes, Undeclared, InConflict, GraphOk, GraphOf, Reports;
    GraphIsOk(plan, templates, graph);
    var o := NewOrderIndex(graph);
    undeclared := CollectUndeclared(plan, graph, o);
    conflicts := CollectConflicts(plan, graph, o);
    diagnostics := Diagnose(undeclared, conflicts);
  }
}
