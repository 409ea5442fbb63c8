/** Conservative parallel layers by Kahn's algorithm. */
module Layers {
  import opened Strings
  import opened Plans

  type Dependencies = map<NodeId, set<NodeId>>

  // ------------------------------------------------- aggregate admission

  datatype WriteClaim = WriteClaim(tool: ToolName, commutative: bool)

  /** Members of one layer: coherent, and each able to run with the others. */
  ghost predicate Harmonious(members: seq<ResolvedEffects>) {
    && (forall i | 0 <= i < |members| :: members[i].Coherent())
    && (forall i, j | 0 <= i < j < |members| :: members[j].CanRunWith(members[i]))
  }

  /** The layer being built, summed up per resource. */
  class LayerState {
    var members: nat
    var undeclared: bool
    var readSet: set<Resource>
    var claims: map<Resource, WriteClaim>
    ghost var absorbed: seq<ResolvedEffects>

    ghost predicate Valid()
      reads this
    {
      && Harmonious(absorbed)
      && members == |absorbed|
      && (undeclared <==> exists i :: 0 <= i < |absorbed| && !absorbed[i].declared)
      && (forall r ::
            r in readSet <==>
            exists i :: 0 <= i < |absorbed| && absorbed[i].declared && r in absorbed[i].readSet)
      && (forall r | r in claims ::
            exists i :: 0 <= i < |absorbed| && absorbed[i].declared && r in absorbed[i].writeSet)
      && (forall i, r | 0 <= i < |absorbed| && absorbed[i].declared && r in absorbed[i].writeSet ::
            r in claims && claims[r] == WriteClaim(absorbed[i].tool, absorbed[i].commutative))
    }

    constructor ()
      ensures Valid() && absorbed == []
    {
      members, undeclared, readSet, claims := 0, false, {}, map[];
      absorbed := [];
    }

    predicate Admits(candidate: ResolvedEffects)
      reads this
    {
      if members == 0 then true
      else if undeclared || !candidate.declared then false
      else if exists r :: r in candidate.readSet && r in claims then false
      else if candidate.pure then true
      else forall r | r in candidate.writeSet ::
             r !in readSet
               && (r in claims ==> claims[r].commutative && candidate.commutative && claims[r].tool == candidate.tool)
    }

    /** The aggregate test decides what the pairwise test would. */
    lemma AdmitsIsPairwise(candidate: ResolvedEffects)
      requires Valid() && candidate.Coherent()
      ensures Admits(candidate) <==> forall i | 0 <= i < |absorbed| :: candidate.CanRunWith(absorbed[i])
    {
      if Admits(candidate) && members > 0 {
        forall i | 0 <= i < |absorbed|
          ensures candidate.CanRunWith(absorbed[i])
        {
          AdmittedRunsWith(candidate, i);
        }
      }
      if !Admits(candidate) {
        RefusedConflicts(candidate);
      }
    }

    lemma AdmittedRunsWith(candidate: ResolvedEffects, i: nat)
      requires Valid() && candidate.Coherent() && Admits(candidate) && i < |absorbed|
      ensures candidate.CanRunWith(absorbed[i])
    {
      var member := absorbed[i];
      assert member.declared;
      assert candidate.readSet !! member.writeSet;
      if !candidate.pure {
        assert forall r | r in candidate.writeSet :: r !in member.readSet;
        if r :| r in candidate.writeSet && r in member.writeSet {
          assert claims[r] == WriteClaim(member.tool, member.commutative);
        }
      }
    }

    lemma RefusedConflicts(candidate: ResolvedEffects)
      requires Valid() && candidate.Coherent() && !Admits(candidate)
      ensures exists i :: 0 <= i < |absorbed| && !candidate.CanRunWith(absorbed[i])
    {
      if undeclared {
        var i :| 0 <= i < |absorbed| && !absorbed[i].declared;
        assert !candidate.CanRunWith(absorbed[i]);
      } else if !candidate.declared {
        assert !candidate.CanRunWith(absorbed[0]);
      } else if r :| r in candidate.readSet && r in claims {
        var i :| 0 <= i < |absorbed| && absorbed[i].declared && r in absorbed[i].writeSet;
        assert !candidate.CanRunWith(absorbed[i]);
      } else {
        var r :| r in candidate.writeSet &&
          !(r !in readSet
            && (r in claims ==>
                  claims[r].commutative && candidate.commutative && claims[r].tool == candidate.tool));
        if r in readSet {
          var i :| 0 <= i < |absorbed| && absorbed[i].declared && r in absorbed[i].readSet;
          assert !candidate.CanRunWith(absorbed[i]);
        } else {
          var i :| 0 <= i < |absorbed| && absorbed[i].declared && r in absorbed[i].writeSet;
          assert claims[r] == WriteClaim(absorbed[i].tool, absorbed[i].commutative);
          assert !candidate.CanRunWith(absorbed[i]);
        }
      }
    }

    method Absorb(candidate: ResolvedEffects)
      requires Valid() && candidate.Coherent() && Admits(candidate)
      modifies this
      ensures Valid() && absorbed == old(absorbed) + [candidate]
    {
      AdmitsIsPairwise(candidate);
      ghost var before := absorbed;
      absorbed := absorbed + [candidate];
      assert forall i | 0 <= i < |before| :: absorbed[i] == before[i];
      members := members + 1;
      if !candidate.declared {
        undeclared := true;
        assert absorbed[|before|] == candidate;
        return;
      }
      readSet := readSet + candidate.readSet;
      assert absorbed[|before|] == candidate;
      if !candidate.pure {
        ghost var claims0 := claims;
        var todo := candidate.writeSet;
        while todo != {}
          modifies this`claims
          invariant todo <= candidate.writeSet
          invariant forall r :: r in claims <==> r in claims0 || (r in candidate.writeSet && r !in todo)
          invariant forall r | r in claims ::
            claims[r] == if r in claims0 then claims0[r] else WriteClaim(candidate.tool, candidate.commutative)
        {
          var r :| r in todo;
          if r !in claims {
            claims := claims[r := WriteClaim(candidate.tool, candidate.commutative)];
          }
          todo := todo - {r};
        }
        ClaimsShared(before, candidate, claims0);
      }
    }

    /** A writer is only admitted next to writers of the same commutative tool. */
    lemma ClaimsShared(before: seq<ResolvedEffects>, candidate: ResolvedEffects, claims0: map<Resource, WriteClaim>)
      requires absorbed == before + [candidate] && Harmonious(absorbed) && candidate.declared
      requires forall r | r in claims0 :: exists i :: 0 <= i < |before| && before[i].declared && r in before[i].writeSet
      requires forall i, r | 0 <= i < |before| && before[i].declared && r in before[i].writeSet ::
                 r in claims0 && claims0[r] == WriteClaim(before[i].tool, before[i].commutative)
      ensures forall r | r in candidate.writeSet && r in claims0 ::
        claims0[r] == WriteClaim(candidate.tool, candidate.commutative)
    {
      forall r | r in candidate.writeSet && r in claims0
        ensures claims0[r] == WriteClaim(candidate.tool, candidate.commutative)
      {
        var i :| 0 <= i < |before| && before[i].declared && r in before[i].writeSet;
        assert absorbed[|before|].CanRunWith(absorbed[i]);
      }
    }
  }

  // ---------------------------------------------------------- acyclicity

  ghost predicate RankOk(deps: Dependencies, rank: map<NodeId, nat>) {
    && deps.Keys <= rank.Keys
    && forall n, d | n in deps && d in deps[n] :: d in deps && rank[d] < rank[n]
  }

  /** Every dependency is a node, and the nodes can be ranked. */
  ghost predicate Acyclic(deps: Dependencies) {
    exists rank :: RankOk(deps, rank)
  }

  ghost predicate Stuck(deps: Dependencies, emitted: set<NodeId>) {
    forall m | m in deps && m !in emitted :: !(deps[m] <= emitted)
  }

  /** A set of nodes that none of the others is free to join leaves a cycle. */
  lemma {:induction false} StuckMeansCyclic(deps: Dependencies, emitted: set<NodeId>, rank: map<NodeId, nat>, n: NodeId)
    requires n in deps && n !in emitted && Stuck(deps, emitted)
    requires n in rank
    ensures !RankOk(deps, rank)
    decreases rank[n]
  {
    if RankOk(deps, rank) {
      var d :| d in deps[n] && d !in emitted;
      StuckMeansCyclic(deps, emitted, rank, d);
    }
  }

  // ------------------------------------------------------------ layering

  function Members(layer: seq<NodeId>): set<NodeId> {
    set n | n in layer
  }

  function Emitted(layers: seq<seq<NodeId>>): set<NodeId> {
    if layers == [] then {} else Emitted(layers[..|layers| - 1]) + Members(layers[|layers| - 1])
  }

  /** What one layer looks like, after `before` was emitted. */
  ghost predicate LayerOk(deps: Dependencies, effects: map<NodeId, ResolvedEffects>, before: set<NodeId>,
      layer: seq<NodeId>)
    requires deps.Keys <= effects.Keys
  {
    && layer != [] && Increasing(layer)
    && (forall n | n in layer :: n in deps && n !in before && deps[n] <= before)
    && (forall i, j | 0 <= i < j < |layer| :: effects[layer[j]].CanRunWith(effects[layer[i]]))
    && (forall n | n in deps && n !in before && n !in layer && deps[n] <= before ::
          exists i :: 0 <= i < |layer| && Less(layer[i], n) && !effects[n].CanRunWith(effects[layer[i]]))
  }

  ghost predicate LayersOk(deps: Dependencies, effects: map<NodeId, ResolvedEffects>, layers: seq<seq<NodeId>>)
    requires deps.Keys <= effects.Keys
  {
    forall k | 0 <= k < |layers| :: LayerOk(deps, effects, Emitted(layers[..k]), layers[k])
  }

  /** What `safe_layers` promises: every node in exactly one layer, after all it
      depends on, beside nothing it conflicts with, and no later than necessary. */
  ghost predicate Layering(deps: Dependencies, effects: map<NodeId, ResolvedEffects>, layers: seq<seq<NodeId>>)
    requires deps.Keys <= effects.Keys
  {
    LayersOk(deps, effects, layers) && Emitted(layers) == deps.Keys
  }

  lemma {:induction false} EmittedMonotone(layers: seq<seq<NodeId>>, i: nat, j: nat)
    requires i <= j <= |layers|
    ensures Emitted(layers[..i]) <= Emitted(layers[..j])
  {
    if i < j {
      EmittedMonotone(layers, i, j - 1);
      assert layers[..j][..j - 1] == layers[..j - 1];
    }
  }

  lemma {:induction false} EmittedHasLayer(layers: seq<seq<NodeId>>, n: NodeId)
    ensures n in Emitted(layers) <==> exists k :: 0 <= k < |layers| && n in layers[k]
  {
    if layers != [] {
      var last := |layers| - 1;
      EmittedHasLayer(layers[..last], n);
      if n in Emitted(layers) {
        if n in layers[last] {
        } else {
          var k :| 0 <= k < last && n in layers[..last][k];
          assert n in layers[k];
        }
      }
      if k :| 0 <= k < |layers| && n in layers[k] {
        if k < last {
          assert n in layers[..last][k];
        }
      }
    }
  }

  /** Layers do not overlap. */
  lemma NotBefore(deps: Dependencies, effects: map<NodeId, ResolvedEffects>, layers: seq<seq<NodeId>>, i: nat, j: nat,
      n: NodeId)
    requires deps.Keys <= effects.Keys && LayersOk(deps, effects, layers)
    requires i < j < |layers|
    ensures n in layers[j] ==> n !in layers[i]
  {
    assert LayerOk(deps, effects, Emitted(layers[..j]), layers[j]);
    EmittedMonotone(layers, i + 1, j);
    assert layers[..i + 1][..i] == layers[..i];
  }

  lemma LayersDistinct(deps: Dependencies, effects: map<NodeId, ResolvedEffects>, layers: seq<seq<NodeId>>, n: NodeId)
    requires deps.Keys <= effects.Keys && LayersOk(deps, effects, layers)
    ensures forall i, j | 0 <= i < |layers| && 0 <= j < |layers| && n in layers[i] && n in layers[j] :: i == j
  {
    forall i, j | 0 <= i < j < |layers|
      ensures !(n in layers[i] && n in layers[j])
    {
      NotBefore(deps, effects, layers, i, j, n);
    }
  }

  /** Whatever a node of layer `k` depends on lies in an earlier layer. */
  lemma DependencyEarlier(deps: Dependencies, effects: map<NodeId, ResolvedEffects>, layers: seq<seq<NodeId>>, k: nat,
      n: NodeId, d: NodeId)
    requires deps.Keys <= effects.Keys && LayersOk(deps, effects, layers)
    requires k < |layers| && n in layers[k]
    ensures n in deps
    ensures d in deps[n] ==> exists i :: 0 <= i < k && d in layers[i]
  {
    assert LayerOk(deps, effects, Emitted(layers[..k]), layers[k]);
    EmittedHasLayer(layers[..k], d);
    if d in deps[n] {
      var i :| 0 <= i < k && d in layers[..k][i];
      assert d in layers[i];
    }
  }

  ghost function LayerIndex(layers: seq<seq<NodeId>>, n: NodeId): (k: nat)
    requires n in Emitted(layers)
    ensures k < |layers| && n in layers[k]
  {
    EmittedHasLayer(layers, n);
    var k :| 0 <= k < |layers| && n in layers[k];
    k
  }

  ghost function LayerRank(deps: Dependencies, layers: seq<seq<NodeId>>): (rank: map<NodeId, nat>)
    requires Emitted(layers) == deps.Keys
    ensures rank.Keys == deps.Keys
  {
    map n | n in deps :: LayerIndex(layers, n)
  }

  /** Dependencies lie in strictly earlier layers. */
  lemma LayersRank(deps: Dependencies, effects: map<NodeId, ResolvedEffects>, layers: seq<seq<NodeId>>)
    requires deps.Keys <= effects.Keys && Layering(deps, effects, layers)
    ensures RankOk(deps, LayerRank(deps, layers))
  {
    hide Emitted, LayersOk;
    var rank := LayerRank(deps, layers);
    forall n, d | n in deps && d in deps[n]
      ensures d in deps && rank[d] < rank[n]
    {
      DependencyEarlier(deps, effects, layers, rank[n], n, d);
      var i :| 0 <= i < rank[n] && d in layers[i];
      EmittedHasLayer(layers, d);
      LayersDistinct(deps, effects, layers, d);
    }
  }

  // -------------------------------------------------------------- cycles

  /** Each node depends on the next. */
  ghost predicate Chain(deps: Dependencies, path: seq<NodeId>) {
    path != [] && forall i | 0 <= i < |path| - 1 :: path[i] in deps && path[i + 1] in deps[path[i]]
  }

  ghost predicate Repeats(path: seq<NodeId>) {
    exists i, j :: 0 <= i < j < |path| && path[i] == path[j]
  }

  ghost predicate CycleFrom(deps: Dependencies, n: NodeId, path: seq<NodeId>) {
    Chain(deps, path) && path[0] == n && Repeats(path)
  }

  /** The node is on a cycle or depends, directly or not, on one. */
  ghost predicate LeadsToCycle(deps: Dependencies, n: NodeId) {
    exists path :: CycleFrom(deps, n, path)
  }

  ghost predicate FirstToCycle(deps: Dependencies, n: NodeId) {
    && n in deps && LeadsToCycle(deps, n)
    && forall m | m in deps && LeadsToCycle(deps, m) :: Leq(n, m)
  }

  ghost predicate Within(deps: Dependencies) {
    forall n | n in deps :: deps[n] <= deps.Keys
  }

  lemma {:induction false} StuckChain(deps: Dependencies, emitted: set<NodeId>, n: NodeId, k: nat)
    returns (path: seq<NodeId>)
    requires Within(deps) && Stuck(deps, emitted) && n in deps && n !in emitted
    ensures Chain(deps, path) && path[0] == n && |path| == k + 1
    ensures forall i | 0 <= i < |path| :: path[i] in deps.Keys
    decreases k
  {
    if k == 0 {
      path := [n];
    } else {
      var d :| d in deps[n] && d !in emitted;
      var rest := StuckChain(deps, emitted, d, k - 1);
      path := [n] + rest;
      assert forall i | 0 < i < |path| :: path[i] == rest[i - 1];
    }
  }

  /** A path longer than the set it stays in comes back somewhere. */
  lemma {:induction false} LongRepeats(path: seq<NodeId>, s: set<NodeId>)
    requires |path| > |s| && forall i | 0 <= i < |path| :: path[i] in s
    ensures Repeats(path)
  {
    var init, last := path[..|path| - 1], path[|path| - 1];
    if j :| 0 <= j < |init| && init[j] == last {
      assert path[j] == path[|path| - 1];
    } else {
      LongRepeats(init, s - {last});
      var i, j :| 0 <= i < j < |init| && init[i] == init[j];
      assert path[i] == path[j];
    }
  }

  lemma StuckLeads(deps: Dependencies, emitted: set<NodeId>, n: NodeId)
    requires Within(deps) && Stuck(deps, emitted) && n in deps && n !in emitted
    ensures LeadsToCycle(deps, n)
  {
    var path := StuckChain(deps, emitted, n, |deps.Keys|);
    LongRepeats(path, deps.Keys);
    assert CycleFrom(deps, n, path);
  }

  /** From a layered node, dependencies lead to earlier and earlier layers. */
  lemma {:induction false} ChainDescends(deps: Dependencies, effects: map<NodeId, ResolvedEffects>,
      layers: seq<seq<NodeId>>, path: seq<NodeId>, i: nat, j: nat)
    requires deps.Keys <= effects.Keys && LayersOk(deps, effects, layers) && Chain(deps, path)
    requires path[0] in Emitted(layers) && i <= j < |path|
    ensures path[i] in Emitted(layers) && path[j] in Emitted(layers)
    ensures i < j ==> LayerIndex(layers, path[j]) < LayerIndex(layers, path[i])
    decreases j
  {
    hide Emitted, LayersOk;
    if j > 0 {
      ChainDescends(deps, effects, layers, path, if i < j then i else 0, j - 1);
      var n, d := path[j - 1], path[j];
      var k := LayerIndex(layers, n);
      DependencyEarlier(deps, effects, layers, k, n, d);
      var e :| 0 <= e < k && d in layers[e];
      EmittedHasLayer(layers, d);
      LayersDistinct(deps, effects, layers, d);
    }
  }

  lemma EmittedLeadsNowhere(deps: Dependencies, effects: map<NodeId, ResolvedEffects>, layers: seq<seq<NodeId>>,
      n: NodeId)
    requires deps.Keys <= effects.Keys && LayersOk(deps, effects, layers) && n in Emitted(layers)
    ensures !LeadsToCycle(deps, n)
  {
    hide Emitted, LayersOk;
    if path :| CycleFrom(deps, n, path) {
      var i, j :| 0 <= i < j < |path| && path[i] == path[j];
      ChainDescends(deps, effects, layers, path, i, j);
    }
  }

  // ----------------------------------------------------------- algorithm

  datatype LayerResult = Layered(layers: seq<seq<NodeId>>) | Cycle(node: NodeId)

  function Children(dependents: map<NodeId, seq<NodeId>>, n: NodeId): seq<NodeId> {
    if n in dependents then dependents[n] else []
  }

  /** `children` lists, once each, the nodes among `visited` that depend on `n`. */
  ghost predicate ListsDependents(deps: Dependencies, visited: set<NodeId>, n: NodeId, children: seq<NodeId>) {
    && (forall i, j | 0 <= i < j < |children| :: children[i] != children[j])
    && (forall c :: c in children <==> c in visited && c in deps && n in deps[c])
  }

  lemma ListsStep(deps: Dependencies, visited: set<NodeId>, node: NodeId, n: NodeId, children: seq<NodeId>)
    requires ListsDependents(deps, visited, n, children) && node in deps && node !in visited
    ensures ListsDependents(deps, visited + {node}, n, children + if n in deps[node] then [node] else [])
  {
  }

  lemma MembersStep(nodes: seq<NodeId>, i: nat)
    requires i < |nodes|
    ensures Members(nodes[..i + 1]) == Members(nodes[..i]) + {nodes[i]}
  {
    assert nodes[..i + 1] == nodes[..i] + [nodes[i]];
  }

  lemma MembersAll(nodes: seq<NodeId>)
    ensures Members(nodes[..|nodes|]) == Members(nodes)
  {
    assert nodes[..|nodes|] == nodes;
  }

  lemma IncreasingPrefix(nodes: seq<NodeId>, i: nat)
    requires Increasing(nodes) && i < |nodes|
    ensures nodes[i] !in Members(nodes[..i])
  {
  }

  lemma NothingListed(deps: Dependencies, nodes: seq<NodeId>)
    ensures forall n :: ListsDependents(deps, Members(nodes[..0]), n, [])
  {
  }

  lemma MembersSorted(nodes: set<NodeId>)
    ensures Members(Sorted(nodes)) == nodes
  {
  }

  /** Enters `node` under each of its dependencies. */
  method AddDependent(dependents: map<NodeId, seq<NodeId>>, node: NodeId, parents: set<NodeId>)
      returns (dependents': map<NodeId, seq<NodeId>>)
    ensures forall n :: Children(dependents', n) == Children(dependents, n) + if n in parents then [node] else []
  {
    dependents' := dependents;
    var todo := parents;
    while todo != {}
      invariant todo <= parents
      invariant forall n ::
        Children(dependents', n) == Children(dependents, n) + if n in parents && n !in todo then [node] else []
    {
      var dep :| dep in todo;
      assert Children(dependents', dep) == Children(dependents, dep);
      dependents' := dependents'[dep := Children(dependents', dep) + [node]];
      todo := todo - {dep};
    }
  }

  method CollectDependents(deps: Dependencies) returns (dependents: map<NodeId, seq<NodeId>>)
    ensures forall n :: ListsDependents(deps, deps.Keys, n, Children(dependents, n))
  {
    dependents := map[];
    var nodes := Sorted(deps.Keys);
    hide ListsDependents, Members;
    NothingListed(deps, nodes);
    for i := 0 to |nodes|
      invariant forall n :: ListsDependents(deps, Members(nodes[..i]), n, Children(dependents, n))
    {
      var node := nodes[i];
      MembersStep(nodes, i);
      IncreasingPrefix(nodes, i);
      ghost var before := dependents;
      dependents := AddDependent(dependents, node, deps[node]);
      forall n
        ensures ListsDependents(deps, Members(nodes[..i + 1]), n, Children(dependents, n))
      {
        ListsStep(deps, Members(nodes[..i]), node, n, Children(before, n));
      }
    }
    MembersAll(nodes);
    MembersSorted(deps.Keys);
  }

  function Missing(deps: Dependencies, n: NodeId, emitted: set<NodeId>): nat
    requires n in deps
  {
    |deps[n] - emitted|
  }

  lemma MissingStep(deps: Dependencies, n: NodeId, emitted: set<NodeId>, node: NodeId)
    requires n in deps && node !in emitted
    ensures Missing(deps, n, emitted + {node}) == Missing(deps, n, emitted) - if node in deps[n] then 1 else 0
  {
    if node in deps[n] {
      assert deps[n] - (emitted + {node}) == (deps[n] - emitted) - {node};
    } else {
      assert deps[n] - (emitted + {node}) == deps[n] - emitted;
    }
  }

  ghost predicate Counts(deps: Dependencies, pending: map<NodeId, nat>, emitted: set<NodeId>) {
    pending.Keys == deps.Keys && forall n | n in deps :: pending[n] == Missing(deps, n, emitted)
  }

  /** `ready` is what has nothing pending, apart from `taken`. */
  ghost predicate Frees(deps: Dependencies, pending: map<NodeId, nat>, ready: set<NodeId>, taken: set<NodeId>) {
    pending.Keys == deps.Keys && forall n :: n in ready <==> n in deps && n !in taken && pending[n] == 0
  }

  ghost predicate NoneDepends(deps: Dependencies, nodes: set<NodeId>, node: NodeId) {
    forall n | n in nodes && n in deps :: node !in deps[n]
  }

  /** Counts one emitted node off its dependents; those with none left are ready. */
  method Emit(deps: Dependencies, children: seq<NodeId>, pending: map<NodeId, nat>, ready: set<NodeId>, node: NodeId,
      ghost emitted: set<NodeId>, ghost taken: set<NodeId>)
      returns (pending': map<NodeId, nat>, ready': set<NodeId>)
    requires ListsDependents(deps, deps.Keys, node, children)
    requires Counts(deps, pending, emitted) && node !in emitted
    requires NoneDepends(deps, taken, node)
    requires Frees(deps, pending, ready, taken)
    ensures Counts(deps, pending', emitted + {node}) && Frees(deps, pending', ready', taken)
  {
    hide Missing;
    pending', ready' := pending, ready;
    for i := 0 to |children|
      invariant pending'.Keys == deps.Keys
      invariant forall n | n in deps ::
        pending'[n] == Missing(deps, n, emitted) - if n in Members(children[..i]) then 1 else 0
      invariant Frees(deps, pending', ready', taken)
    {
      var child := children[i];
      MembersStep(children, i);
      assert child !in Members(children[..i]);
      MissingStep(deps, child, emitted, node);
      pending' := pending'[child := pending'[child] - 1];
      if pending'[child] == 0 {
        ready' := ready' + {child};
      }
    }
    MembersAll(children);
    forall n | n in deps
      ensures pending'[n] == Missing(deps, n, emitted + {node})
    {
      MissingStep(deps, n, emitted, node);
    }
  }

  /** The layer built from the first candidates. */
  ghost predicate Built(effects: map<NodeId, ResolvedEffects>, candidates: set<NodeId>, layer: seq<NodeId>)
    requires candidates <= effects.Keys
  {
    && Increasing(layer) && Members(layer) <= candidates
    && (forall n | n in candidates && n !in layer :: HeldBack(effects, n, layer))
  }

  ghost predicate HeldBack(effects: map<NodeId, ResolvedEffects>, n: NodeId, layer: seq<NodeId>)
    requires n in effects && Members(layer) <= effects.Keys
  {
    exists i :: 0 <= i < |layer| && Less(layer[i], n) && !effects[n].CanRunWith(effects[layer[i]])
  }

  function EffectsIn(effects: map<NodeId, ResolvedEffects>, layer: seq<NodeId>): (r: seq<ResolvedEffects>)
    requires Members(layer) <= effects.Keys
    ensures |r| == |layer| && forall i | 0 <= i < |layer| :: r[i] == effects[layer[i]]
  {
    assert forall i | 0 <= i < |layer| :: layer[i] in Members(layer);
    seq(|layer|, i requires 0 <= i < |layer| => effects[layer[i]])
  }

  lemma BuiltAdmit(effects: map<NodeId, ResolvedEffects>, candidates: set<NodeId>, layer: seq<NodeId>, n: NodeId)
    requires candidates <= effects.Keys && Built(effects, candidates, layer) && n in effects
    requires forall c | c in candidates :: Less(c, n)
    ensures Built(effects, candidates + {n}, layer + [n])
    ensures EffectsIn(effects, layer + [n]) == EffectsIn(effects, layer) + [effects[n]]
  {
    var layer' := layer + [n];
    assert forall i | 0 <= i < |layer| :: layer[i] in Members(layer) && Less(layer[i], n);
    forall c | c in candidates + {n} && c !in layer'
      ensures HeldBack(effects, c, layer')
    {
      var i :| 0 <= i < |layer| && Less(layer[i], c) && !effects[c].CanRunWith(effects[layer[i]]);
      assert layer'[i] == layer[i];
    }
  }

  lemma BuiltRefuse(effects: map<NodeId, ResolvedEffects>, candidates: set<NodeId>, layer: seq<NodeId>, n: NodeId,
      i: nat)
    requires candidates <= effects.Keys && Built(effects, candidates, layer) && n in effects
    requires forall c | c in candidates :: Less(c, n)
    requires i < |layer| && !effects[n].CanRunWith(effects[layer[i]])
    ensures Built(effects, candidates + {n}, layer)
  {
    assert layer[i] in Members(layer);
  }

  /** The first ready node always joins; each later one when the layer admits it. */
  method BuildLayer(effects: map<NodeId, ResolvedEffects>, ready: set<NodeId>) returns (layer: seq<NodeId>)
    requires ready != {} && ready <= effects.Keys && forall n | n in effects :: effects[n].Coherent()
    ensures layer != [] && Built(effects, ready, layer)
    ensures Harmonious(EffectsIn(effects, layer))
  {
    hide Built, Harmonious;
    layer := [];
    var state := new LayerState();
    var candidates := Sorted(ready);
    NothingBuilt(effects);
    assert Members(candidates[..0]) == {};
    for i := 0 to |candidates|
      invariant fresh(state) && state.Valid()
      invariant Members(candidates[..i]) <= effects.Keys && Members(layer) <= effects.Keys
      invariant state.absorbed == EffectsIn(effects, layer)
      invariant i > 0 ==> layer != []
      invariant Built(effects, Members(candidates[..i]), layer)
    {
      var candidate := candidates[i];
      MembersStep(candidates, i);
      assert candidate in ready;
      assert forall c | c in Members(candidates[..i]) :: Less(c, candidate);
      state.AdmitsIsPairwise(effects[candidate]);
      if state.Admits(effects[candidate]) {
        BuiltAdmit(effects, Members(candidates[..i]), layer, candidate);
        state.Absorb(effects[candidate]);
        layer := layer + [candidate];
      } else {
        ghost var k :| 0 <= k < |layer| && !effects[candidate].CanRunWith(state.absorbed[k]);
        BuiltRefuse(effects, Members(candidates[..i]), layer, candidate, k);
      }
    }
    MembersAll(candidates);
    assert Members(candidates) == ready;
  }

  lemma NothingBuilt(effects: map<NodeId, ResolvedEffects>)
    ensures Built(effects, {}, []) && EffectsIn(effects, []) == []
  {
  }

  lemma BuiltIsLayer(deps: Dependencies, effects: map<NodeId, ResolvedEffects>, before: set<NodeId>, ready: set<NodeId>,
      layer: seq<NodeId>)
    requires deps.Keys <= effects.Keys && ready <= effects.Keys && layer != []
    requires forall n :: n in ready <==> n in deps && n !in before && deps[n] <= before
    requires Built(effects, ready, layer) && Harmonious(EffectsIn(effects, layer))
    ensures LayerOk(deps, effects, before, layer)
  {
    assert forall n | n in layer :: n in Members(layer);
    forall i, j | 0 <= i < j < |layer|
      ensures effects[layer[j]].CanRunWith(effects[layer[i]])
    {
      assert EffectsIn(effects, layer)[j].CanRunWith(EffectsIn(effects, layer)[i]);
    }
    forall n | n in deps && n !in before && n !in layer && deps[n] <= before
      ensures exists i :: 0 <= i < |layer| && Less(layer[i], n) && !effects[n].CanRunWith(effects[layer[i]])
    {
      assert HeldBack(effects, n, layer);
    }
  }

  ghost predicate DownClosed(deps: Dependencies, nodes: set<NodeId>) {
    forall n | n in nodes && n in deps :: deps[n] <= nodes
  }

  /** The emitted nodes took their dependencies with them, and the counters agree. */
  ghost predicate Kahn(deps: Dependencies, pending: map<NodeId, nat>, ready: set<NodeId>, emitted: set<NodeId>) {
    && emitted <= deps.Keys
    && DownClosed(deps, emitted)
    && Counts(deps, pending, emitted)
    && Frees(deps, pending, ready, emitted)
  }

  lemma MissingZero(deps: Dependencies, n: NodeId, emitted: set<NodeId>)
    requires n in deps
    ensures Missing(deps, n, emitted) == 0 <==> deps[n] <= emitted
  {
    var missing := deps[n] - emitted;
    if missing == {} {
      assert forall d | d in deps[n] :: d in emitted || d in missing;
    }
    if deps[n] <= emitted {
      assert missing == {};
    }
  }

  lemma KahnReady(deps: Dependencies, pending: map<NodeId, nat>, ready: set<NodeId>, emitted: set<NodeId>)
    requires Kahn(deps, pending, ready, emitted)
    ensures forall n :: n in ready <==> n in deps && n !in emitted && deps[n] <= emitted
  {
    hide DownClosed, Missing;
    forall n
      ensures n in ready <==> n in deps && n !in emitted && deps[n] <= emitted
    {
      if n in deps {
        MissingZero(deps, n, emitted);
      }
    }
  }

  lemma TakenDoNotDepend(deps: Dependencies, ready: set<NodeId>, emitted: set<NodeId>, layer: set<NodeId>)
    requires DownClosed(deps, emitted) && emitted <= deps.Keys && layer <= ready
    requires forall n :: n in ready <==> n in deps && n !in emitted && deps[n] <= emitted
    ensures DownClosed(deps, emitted + layer)
    ensures forall m | m in layer :: NoneDepends(deps, emitted + layer, m)
  {
  }

  /** Removes a finished layer from `ready` and counts it off its dependents. */
  method EmitLayer(deps: Dependencies, dependents: map<NodeId, seq<NodeId>>, layer: seq<NodeId>, pending: map<NodeId,
      nat>, ready: set<NodeId>, ghost emitted: set<NodeId>)
      returns (pending': map<NodeId, nat>, ready': set<NodeId>)
    requires forall n :: ListsDependents(deps, deps.Keys, n, Children(dependents, n))
    requires Kahn(deps, pending, ready, emitted)
    requires Increasing(layer) && Members(layer) <= ready
    ensures Kahn(deps, pending', ready', emitted + Members(layer))
  {
    hide *;
    EmitStart(deps, pending, ready, emitted, layer);
    pending', ready' := pending, ready - Members(layer);
    for i := 0 to |layer|
      invariant Counts(deps, pending', emitted + Members(layer[..i]))
        && Frees(deps, pending', ready', emitted + Members(layer))
    {
      EmitStep(layer, emitted, i);
      pending', ready' := Emit(deps, Children(dependents, layer[i]), pending', ready', layer[i],
        emitted + Members(layer[..i]), emitted + Members(layer));
    }
    MembersAll(layer);
    EmitEnd(deps, pending', ready', emitted + Members(layer));
  }

  lemma EmitStart(deps: Dependencies, pending: map<NodeId, nat>, ready: set<NodeId>, emitted: set<NodeId>,
      layer: seq<NodeId>)
    requires Kahn(deps, pending, ready, emitted) && Members(layer) <= ready
    ensures Counts(deps, pending, emitted + Members(layer[..0]))
    ensures Frees(deps, pending, ready - Members(layer), emitted + Members(layer))
    ensures forall m | m in Members(layer) :: NoneDepends(deps, emitted + Members(layer), m)
    ensures Members(layer) !! emitted && emitted + Members(layer) <= deps.Keys
      && DownClosed(deps, emitted + Members(layer))
  {
    KahnReady(deps, pending, ready, emitted);
    TakenDoNotDepend(deps, ready, emitted, Members(layer));
    FreesWithout(deps, pending, ready, emitted, Members(layer));
    hide Counts, DownClosed, Frees, NoneDepends;
    assert emitted + Members(layer[..0]) == emitted;
  }

  lemma EmitEnd(deps: Dependencies, pending: map<NodeId, nat>, ready: set<NodeId>, emitted: set<NodeId>)
    requires emitted <= deps.Keys && DownClosed(deps, emitted)
    requires Counts(deps, pending, emitted) && Frees(deps, pending, ready, emitted)
    ensures Kahn(deps, pending, ready, emitted)
  {
    hide DownClosed, Counts, Frees;
  }

  lemma FreesWithout(deps: Dependencies, pending: map<NodeId, nat>, ready: set<NodeId>, emitted: set<NodeId>,
      layer: set<NodeId>)
    requires Frees(deps, pending, ready, emitted)
    ensures Frees(deps, pending, ready - layer, emitted + layer)
  {
  }

  lemma EmitStep(layer: seq<NodeId>, emitted: set<NodeId>, i: nat)
    requires Increasing(layer) && Members(layer) !! emitted && i < |layer|
    ensures layer[i] in Members(layer) && layer[i] !in emitted + Members(layer[..i])
    ensures emitted + Members(layer[..i + 1]) == emitted + Members(layer[..i]) + {layer[i]}
  {
    MembersStep(layer, i);
    IncreasingPrefix(layer, i);
  }

  method SafeLayers(deps: Dependencies, effects: map<NodeId, ResolvedEffects>) returns (result: LayerResult)
    requires deps.Keys <= effects.Keys && forall n | n in effects :: effects[n].Coherent()
    ensures result.Layered? <==> Acyclic(deps)
    ensures result.Layered? ==> Layering(deps, effects, result.layers)
    ensures result.Cycle? && Within(deps) ==> FirstToCycle(deps, result.node)
  {
    hide FirstToCycle, Within, LayersOk, LayerOk, Emitted, ListsDependents, Built, Harmonious;
    var pending: map<NodeId, nat> := map n | n in deps :: |deps[n]|;
    var dependents := CollectDependents(deps);
    var ready := set n | n in pending && pending[n] == 0;
    var layers: seq<seq<NodeId>> := [];
    var count := 0;
    NoLayers(deps, effects, pending, ready);
    hide Kahn, Acyclic;
    while ready != {}
      invariant LayersOk(deps, effects, layers)
      invariant Kahn(deps, pending, ready, Emitted(layers))
      invariant count == |Emitted(layers)|
      decreases deps.Keys - Emitted(layers)
    {
      KahnReady(deps, pending, ready, Emitted(layers));
      var layer := BuildLayer(effects, ready);
      BuiltIsLayer(deps, effects, Emitted(layers), ready, layer);
      ExtendLayers(deps, effects, layers, layer);
      LayerFacts(deps, effects, Emitted(layers), ready, layer);
      pending, ready := EmitLayer(deps, dependents, layer, pending, ready, Emitted(layers));
      count := count + |layer|;
      layers := layers + [layer];
    }

    KahnEnds(deps, pending, Emitted(layers));
    if count != |deps| {
      var node := FirstPending(deps, effects, pending, layers);
      return Cycle(node);
    }
    LayersRank(deps, effects, layers);
    assert Acyclic(deps) by {
      RankedIsAcyclic(deps, LayerRank(deps, layers));
    }
    result := Layered(layers);
  }

  lemma SmallerLeaves(a: set<NodeId>, b: set<NodeId>)
    requires a <= b && |a| != |b|
    ensures b - a != {}
  {
    assert a + (b - a) == b;
  }

  /** The least node that still waits for something. */
  method FirstPending(deps: Dependencies, ghost effects: map<NodeId, ResolvedEffects>, pending: map<NodeId, nat>,
      ghost layers: seq<seq<NodeId>>) returns (node: NodeId)
    requires deps.Keys <= effects.Keys && LayersOk(deps, effects, layers)
    requires Kahn(deps, pending, {}, Emitted(layers)) && |Emitted(layers)| != |deps|
    ensures Within(deps) ==> FirstToCycle(deps, node)
  {
    hide FirstToCycle, Within, LayersOk, Emitted, Kahn, Stuck, Least;
    assert |deps| == |deps.Keys|;
    var missing := set n | n in pending && pending[n] > 0;
    KahnMissing(deps, pending, Emitted(layers));
    MissingLeads(deps, effects, layers, missing);
    SmallerLeaves(Emitted(layers), deps.Keys);
    node := if missing == {} then "" else Least(missing);
  }

  /** With nothing ready, what still waits is what was not emitted. */
  lemma KahnMissing(deps: Dependencies, pending: map<NodeId, nat>, emitted: set<NodeId>)
    requires Kahn(deps, pending, {}, emitted)
    ensures Stuck(deps, emitted) && emitted <= deps.Keys
    ensures (set n | n in pending && pending[n] > 0) == deps.Keys - emitted
  {
    hide Missing;
    KahnReady(deps, pending, {}, emitted);
    forall n | n in deps
      ensures pending[n] > 0 <==> n !in emitted
    {
      MissingZero(deps, n, emitted);
    }
  }

  lemma MissingLeads(deps: Dependencies, effects: map<NodeId, ResolvedEffects>, layers: seq<seq<NodeId>>,
      missing: set<NodeId>)
    requires deps.Keys <= effects.Keys && LayersOk(deps, effects, layers)
    requires Stuck(deps, Emitted(layers)) && missing == deps.Keys - Emitted(layers)
    ensures Within(deps) && missing != {} ==> FirstToCycle(deps, Least(missing))
  {
    hide LayersOk, Emitted, LeadsToCycle, Stuck, Least;
    if Within(deps) && missing != {} {
      var n := Least(missing);
      StuckLeads(deps, Emitted(layers), n);
      forall m | m in deps && LeadsToCycle(deps, m)
        ensures Leq(n, m)
      {
        if m in Emitted(layers) {
          EmittedLeadsNowhere(deps, effects, layers, m);
        }
      }
    }
  }

  lemma RankedIsAcyclic(deps: Dependencies, rank: map<NodeId, nat>)
    requires RankOk(deps, rank)
    ensures Acyclic(deps)
  {
  }

  lemma NoLayers(deps: Dependencies, effects: map<NodeId, ResolvedEffects>, pending: map<NodeId, nat>,
      ready: set<NodeId>)
    requires deps.Keys <= effects.Keys
    requires pending.Keys == deps.Keys && forall n | n in deps :: pending[n] == |deps[n]|
    requires forall n :: n in ready <==> n in pending && pending[n] == 0
    ensures LayersOk(deps, effects, []) && Emitted([]) == {} && Kahn(deps, pending, ready, Emitted([]))
  {
    forall n | n in deps
      ensures pending[n] == Missing(deps, n, {})
    {
      assert deps[n] - {} == deps[n];
    }
  }

  lemma LayerFacts(deps: Dependencies, effects: map<NodeId, ResolvedEffects>, before: set<NodeId>, ready: set<NodeId>,
      layer: seq<NodeId>)
    requires deps.Keys <= effects.Keys && LayerOk(deps, effects, before, layer)
    requires forall n :: n in ready <==> n in deps && n !in before && deps[n] <= before
    ensures Increasing(layer) && Members(layer) <= ready <= deps.Keys - before && Members(layer) != {}
  {
    assert layer[0] in Members(layer);
  }

  lemma StuckNotAcyclic(deps: Dependencies, emitted: set<NodeId>, n: NodeId)
    requires n in deps && n !in emitted && Stuck(deps, emitted)
    ensures !Acyclic(deps)
  {
    hide Stuck;
    forall rank
      ensures !RankOk(deps, rank)
    {
      if RankOk(deps, rank) {
        StuckMeansCyclic(deps, emitted, rank, n);
      }
    }
  }

  /** With nothing ready, all nodes are emitted or the graph is cyclic. */
  lemma KahnEnds(deps: Dependencies, pending: map<NodeId, nat>, emitted: set<NodeId>)
    requires Kahn(deps, pending, {}, emitted)
    ensures |emitted| == |deps| ==> emitted == deps.Keys
    ensures |emitted| != |deps| ==> !Acyclic(deps)
  {
    hide DownClosed, Counts, Frees, Acyclic;
    KahnReady(deps, pending, {}, emitted);
    assert |deps| == |deps.Keys|;
    if |emitted| == |deps| {
      SubsetSize(emitted, deps.Keys);
    } else {
      assert emitted <= deps.Keys && emitted != deps.Keys;
      var n :| n in deps.Keys && n !in emitted;
      StuckNotAcyclic(deps, emitted, n);
    }
  }

  lemma SubsetSize(a: set<NodeId>, b: set<NodeId>)
    requires a <= b && |a| == |b|
    ensures a == b
  {
    assert |b - a| == 0;
  }

  lemma ExtendLayers(deps: Dependencies, effects: map<NodeId, ResolvedEffects>, layers: seq<seq<NodeId>>,
      layer: seq<NodeId>)
    requires deps.Keys <= effects.Keys && LayersOk(deps, effects, layers)
    requires LayerOk(deps, effects, Emitted(layers), layer)
    ensures LayersOk(deps, effects, layers + [layer])
    ensures Emitted(layers + [layer]) == Emitted(layers) + Members(layer)
    ensures |Emitted(layers + [layer])| == |Emitted(layers)| + |layer|
  {
    var all := layers + [layer];
    assert all[..|layers|] == layers;
    EmittedSnoc(layers, layer);
    assert Emitted(layers) !! Members(layer);
    DistinctSize(layer);
    hide Emitted, LayerOk;
    forall k | 0 <= k < |all|
      ensures LayerOk(deps, effects, Emitted(all[..k]), all[k])
    {
      if k < |layers| {
        assert all[..k] == layers[..k];
      }
    }
  }

  lemma EmittedSnoc(layers: seq<seq<NodeId>>, layer: seq<NodeId>)
    ensures Emitted(layers + [layer]) == Emitted(layers) + Members(layer)
  {
    var all := layers + [layer];
    assert all[..|all| - 1] == layers;
  }

  lemma {:induction false} DistinctSize(layer: seq<NodeId>)
    requires Increasing(layer)
    ensures |Members(layer)| == |layer|
  {
    if layer != [] {
      var init := layer[..|layer| - 1];
      DistinctSize(init);
      assert layer == init + [layer[|layer| - 1]];
      assert Members(layer) == Members(init) + {layer[|layer| - 1]};
    }
  }

  // ------------------------------------------------------------- uniqueness

  lemma LessTransitive(a: string, b: string, c: string)
    requires Less(a, b) && Less(b, c)
    ensures Less(a, c)
  {
    LeqTransitive(a, b, c);
    if a == c {
      LeqAntisymmetric(a, b);
    }
  }

  lemma SamePrefix(a: seq<NodeId>, b: seq<NodeId>, i: nat)
    requires i <= |a| && i <= |b| && a[..i] == b[..i]
    ensures forall k | 0 <= k < i :: a[k] == b[k]
  {
    assert forall k | 0 <= k < i :: a[..i][k] == b[..i][k];
  }

  lemma PositionNext(a: seq<NodeId>, b: seq<NodeId>, i: nat)
    requires Increasing(a) && Increasing(b) && i < |a| && i <= |b| && a[..i] == b[..i]
    requires a[i] in b
    ensures i < |b| && (a[i] == b[i] || Less(b[i], a[i]))
  {
    SamePrefix(a, b, i);
    var j :| 0 <= j < |b| && b[j] == a[i];
  }

  /** Where two layers agree so far, the next member of one is in the other, or
      something smaller is. */
  lemma NextIn(deps: Dependencies, effects: map<NodeId, ResolvedEffects>, before: set<NodeId>, a: seq<NodeId>,
      b: seq<NodeId>, i: nat)
    requires deps.Keys <= effects.Keys && LayerOk(deps, effects, before, a) && LayerOk(deps, effects, before, b)
    requires i < |a| && i <= |b| && a[..i] == b[..i]
    ensures i < |b| && (a[i] == b[i] || Less(b[i], a[i]))
  {
    SamePrefix(a, b, i);
    if a[i] in b {
      PositionNext(a, b, i);
    } else {
      var k :| 0 <= k < |b| && Less(b[k], a[i]) && !effects[a[i]].CanRunWith(effects[b[k]]);
      assert i <= k;
      if i < k {
        LessTransitive(b[i], b[k], a[i]);
      }
    }
  }

  lemma {:induction false} LayerPrefix(deps: Dependencies, effects: map<NodeId, ResolvedEffects>, before: set<NodeId>,
      a: seq<NodeId>, b: seq<NodeId>, i: nat)
    requires deps.Keys <= effects.Keys && LayerOk(deps, effects, before, a) && LayerOk(deps, effects, before, b)
    requires i <= |a|
    ensures i <= |b| && a[..i] == b[..i]
  {
    if i > 0 {
      LayerPrefix(deps, effects, before, a, b, i - 1);
      NextIn(deps, effects, before, a, b, i - 1);
      NextIn(deps, effects, before, b, a, i - 1);
      if a[i - 1] != b[i - 1] {
        LeqAntisymmetric(a[i - 1], b[i - 1]);
      }
      assert a[..i] == a[..i - 1] + [a[i - 1]];
    }
  }

  /** Greedy layers leave no choice. */
  lemma LayerUnique(deps: Dependencies, effects: map<NodeId, ResolvedEffects>, before: set<NodeId>, a: seq<NodeId>,
      b: seq<NodeId>)
    requires deps.Keys <= effects.Keys && LayerOk(deps, effects, before, a) && LayerOk(deps, effects, before, b)
    ensures a == b
  {
    LayerPrefix(deps, effects, before, a, b, |a|);
    LayerPrefix(deps, effects, before, b, a, |b|);
    assert a[..|a|] == a && b[..|b|] == b;
  }

  lemma {:induction false} LayersPrefix(deps: Dependencies, effects: map<NodeId, ResolvedEffects>, a: seq<seq<NodeId>>,
      b: seq<seq<NodeId>>, k: nat)
    requires deps.Keys <= effects.Keys && Layering(deps, effects, a) && Layering(deps, effects, b)
    requires k <= |a|
    ensures k <= |b| && a[..k] == b[..k]
  {
    hide LayerOk, LayersOk, Emitted;
    if k > 0 {
      LayersPrefix(deps, effects, a, b, k - 1);
      FirstIsNew(deps, effects, a, k - 1);
      assert b[..|b|] == b;
      LayerAt(deps, effects, a, k - 1);
      LayerAt(deps, effects, b, k - 1);
      LayerUnique(deps, effects, Emitted(a[..k - 1]), a[k - 1], b[k - 1]);
      assert a[..k] == a[..k - 1] + [a[k - 1]];
    }
  }

  lemma LayerAt(deps: Dependencies, effects: map<NodeId, ResolvedEffects>, layers: seq<seq<NodeId>>, k: nat)
    requires deps.Keys <= effects.Keys && LayersOk(deps, effects, layers) && k < |layers|
    ensures LayerOk(deps, effects, Emitted(layers[..k]), layers[k])
  {
  }

  lemma FirstIsNew(deps: Dependencies, effects: map<NodeId, ResolvedEffects>, layers: seq<seq<NodeId>>, k: nat)
    requires deps.Keys <= effects.Keys && LayersOk(deps, effects, layers) && k < |layers|
    ensures Emitted(layers[..k]) != deps.Keys
  {
    assert LayerOk(deps, effects, Emitted(layers[..k]), layers[k]);
    assert layers[k][0] in layers[k];
  }

  /** A graph has one layering. */
  lemma LayeringUnique(deps: Dependencies, effects: map<NodeId, ResolvedEffects>, a: seq<seq<NodeId>>,
      b: seq<seq<NodeId>>)
    requires deps.Keys <= effects.Keys && Layering(deps, effects, a) && Layering(deps, effects, b)
    ensures a == b
  {
    LayersPrefix(deps, effects, a, b, |a|);
    LayersPrefix(deps, effects, b, a, |b|);
    assert a[..|a|] == a && b[..|b|] == b;
  }
}
