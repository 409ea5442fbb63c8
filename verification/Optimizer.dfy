/** Deduplication with alias rewriting, and dead-node elimination. */
module Optimizers {
  import opened Wrappers
  import opened Json
  import opened Strings
  import opened Refs
  import opened Plans
  import opened Resolve
  import opened Calls
  import opened Semantics
  import opened Layers
  import opened Graphs
  import opened Meanings
  import Texts = Canonical

  // ------------------------------------------------------------------- keys

  /** What deduplication compares. `order` is the ordering context of tools that
      are cacheable but not pure. */
  datatype Key = Key(tool: ToolName, input: string, forEach: Option<ValueRef>, condition: Option<When>,
        order: Option<string>)

  function Join(ids: seq<NodeId>): string {
    if ids == [] then "" else if |ids| == 1 then ids[0] else ids[0] + "," + Join(ids[1..])
  }

  function DedupKey(plan: Plan, node: Node): Option<Key> {
    var effects := EffectsOf(plan, node.tool);
    if effects.None? || !(effects.value.pure || effects.value.cacheable) then None
    else Some(Key(node.tool, Texts.Canonical(node.input), node.forEach, node.condition,
                  if effects.value.pure then None else Some(Join(node.dependsOn))))
  }

  /** The same call under the same condition over the same items. */
  ghost predicate SameCall(a: Node, b: Node) {
    a.tool == b.tool && a.input == b.input && a.forEach == b.forEach && a.condition == b.condition
  }

  /** Equal keys mean equal calls. */
  lemma SameKeySameCall(plan: Plan, a: Node, b: Node)
    requires WellFormed(a.input) && WellFormed(b.input)
    requires DedupKey(plan, a).Some? && DedupKey(plan, a) == DedupKey(plan, b)
    ensures SameCall(a, b)
  {
    Texts.Injective(a.input, b.input);
  }

  // ---------------------------------------------------------- deduplication

  /** Node `j` stands for node `i`. */
  ghost predicate StandsFor(plan: Plan, aliases: Aliases, j: nat, i: nat)
    requires i < |plan.nodes| && plan.nodes[i].id in aliases
  {
    && j < i
    && plan.nodes[j].id == aliases[plan.nodes[i].id] && plan.nodes[j].id !in aliases
    && DedupKey(plan, plan.nodes[i]).Some? && DedupKey(plan, plan.nodes[j]) == DedupKey(plan, plan.nodes[i])
  }

  ghost predicate Merged(plan: Plan, aliases: Aliases, i: nat)
    requires i < |plan.nodes| && plan.nodes[i].id in aliases
  {
    exists j: nat :: StandsFor(plan, aliases, j, i)
  }

  /** The merges in list order, as the optimization report lists them. */
  ghost function MergeReport(nodes: seq<Node>, aliases: Aliases): seq<(NodeId, NodeId)> {
    if nodes == [] then []
    else
      var init, id := MergeReport(nodes[..|nodes| - 1], aliases), nodes[|nodes| - 1].id;
      if id in aliases then init + [(id, aliases[id])] else init
  }

  /** The alias map such a report lists. */
  function AliasesOf(removed: seq<(NodeId, NodeId)>): Aliases {
    if removed == [] then map[]
    else
      var (id, canonical) := removed[|removed| - 1];
      AliasesOf(removed[..|removed| - 1])[id := canonical]
  }

  lemma AliasesAppend(removed: seq<(NodeId, NodeId)>, id: NodeId, canonical: NodeId)
    ensures AliasesOf([]) == map[] && AliasesOf(removed + [(id, canonical)]) == AliasesOf(removed)[id := canonical]
  {
    assert (removed + [(id, canonical)])[..|removed|] == removed;
  }

  /** Every node whose key was seen is an alias of the first node with that key,
      and no two of the remaining nodes share a key. */
  ghost predicate Deduped(plan: Plan, aliases: Aliases) {
    && aliases.Keys <= Ids(plan.nodes)
    && (forall i | 0 <= i < |plan.nodes| && plan.nodes[i].id in aliases :: Merged(plan, aliases, i))
    && forall i, j | 0 <= i < j < |plan.nodes| && plan.nodes[i].id !in aliases && plan.nodes[j].id !in aliases ::
         DedupKey(plan, plan.nodes[j]).Some? ==> DedupKey(plan, plan.nodes[i]) != DedupKey(plan, plan.nodes[j])
  }

  function CanonicalSet(ids: set<NodeId>, aliases: Aliases): set<NodeId> {
    set d | d in ids :: Canonical(d, aliases)
  }

  function RewriteNode(node: Node, aliases: Aliases): Node {
    Node(node.id, node.tool, RewriteValue(node.input, aliases),
      Sorted(CanonicalSet(Listing(node.dependsOn), aliases)),
      if node.forEach.Some? then Some(RewriteRef(node.forEach.value, aliases)) else None,
      if node.condition.Some? then Some(node.condition.value.(target := RewriteRef(node.condition.value.target,
        aliases))) else None)
  }

  function RewriteNodes(nodes: seq<Node>, aliases: Aliases): (r: seq<Node>)
    ensures |r| == |nodes| && forall i | 0 <= i < |r| :: r[i] == RewriteNode(nodes[i], aliases)
  {
    seq(|nodes|, i requires 0 <= i < |nodes| => RewriteNode(nodes[i], aliases))
  }

  function RewriteOutputs(outputs: map<string, ValueRef>, aliases: Aliases): map<string, ValueRef> {
    map name | name in outputs :: RewriteRef(outputs[name], aliases)
  }

  ghost function Survivors(plan: Plan, aliases: Aliases): set<NodeId> {
    Ids(plan.nodes) - aliases.Keys
  }

  /** The plan deduplication leaves, given its alias map. */
  ghost function Contracted(plan: Plan, aliases: Aliases): Plan {
    if aliases == map[] then plan
    else plan.(nodes := RewriteNodes(KeepNodes(plan.nodes, Survivors(plan, aliases)), aliases),
      outputs := RewriteOutputs(plan.outputs, aliases))
  }

  /** `rewrite_node_aliases`, following each alias chain to its end. */
  method RewriteNodeAliases(node: Node, aliases: Aliases) returns (node': Node)
    requires Flat(aliases)
    ensures node' == RewriteNode(node, aliases)
  {
    var ids := {};
    for i := 0 to |node.dependsOn|
      invariant ids == CanonicalSet(Listing(node.dependsOn[..i]), aliases)
    {
      var id := CanonicalNode(node.dependsOn[i], aliases);
      ListingMore(node.dependsOn, i);
      ids := ids + {id};
    }
    assert node.dependsOn[..|node.dependsOn|] == node.dependsOn;
    var forEach := node.forEach;
    if forEach.Some? {
      var id := CanonicalNode(forEach.value.node, aliases);
      forEach := Some(ValueRef(id, forEach.value.path));
    }
    var condition := node.condition;
    if condition.Some? {
      var id := CanonicalNode(condition.value.target.node, aliases);
      condition := Some(condition.value.(target := ValueRef(id, condition.value.target.path)));
    }
    node' := Node(node.id, node.tool, RewriteValue(node.input, aliases), Sorted(ids), forEach, condition);
  }

  // The loop of `deduplicate_nodes` after its first `i` nodes.

  ghost predicate SeenAt(plan: Plan, i: nat, id: NodeId, aliases: Aliases, key: Key, j: nat)
    requires i <= |plan.nodes|
  {
    j < i && plan.nodes[j].id == id && id !in aliases && DedupKey(plan, plan.nodes[j]) == Some(key)
  }

  ghost predicate SeenOk(plan: Plan, i: nat, seen: map<Key, NodeId>, aliases: Aliases)
    requires i <= |plan.nodes|
  {
    && (forall k | k in seen :: exists j: nat :: SeenAt(plan, i, seen[k], aliases, k, j))
    && forall j | 0 <= j < i && plan.nodes[j].id !in aliases && DedupKey(plan, plan.nodes[j]).Some? ::
         DedupKey(plan, plan.nodes[j]).value in seen && seen[DedupKey(plan, plan.nodes[j]).value] == plan.nodes[j].id
  }

  ghost predicate AliasesOk(plan: Plan, i: nat, aliases: Aliases)
    requires i <= |plan.nodes|
  {
    && (forall id | id in aliases :: exists j :: 0 <= j < i && plan.nodes[j].id == id)
    && forall j | 0 <= j < i && plan.nodes[j].id in aliases :: Merged(plan, aliases, j)
  }

  lemma SeenAliasStep(plan: Plan, i: nat, seen: map<Key, NodeId>, aliases: Aliases, key: Key)
    requires DistinctIds(plan.nodes) && i < |plan.nodes| && SeenOk(plan, i, seen, aliases)
    requires DedupKey(plan, plan.nodes[i]) == Some(key) && key in seen
    ensures SeenOk(plan, i + 1, seen, aliases[plan.nodes[i].id := seen[key]])
  {
    hide DedupKey;
    var aliases', next := aliases[plan.nodes[i].id := seen[key]], i + 1;
    forall k | k in seen
      ensures exists j: nat :: SeenAt(plan, next, seen[k], aliases', k, j)
    {
      var j: nat :| SeenAt(plan, i, seen[k], aliases, k, j);
      assert plan.nodes[j].id != plan.nodes[i].id;
      assert SeenAt(plan, i + 1, seen[k], aliases', k, j);
    }
  }

  lemma NotAliased(plan: Plan, i: nat, aliases: Aliases)
    requires DistinctIds(plan.nodes) && i < |plan.nodes| && AliasesOk(plan, i, aliases)
    ensures plan.nodes[i].id !in aliases
  {
  }

  lemma AliasStep(plan: Plan, i: nat, seen: map<Key, NodeId>, aliases: Aliases, key: Key)
    requires DistinctIds(plan.nodes) && i < |plan.nodes| && SeenOk(plan, i, seen, aliases)
      && AliasesOk(plan, i, aliases)
    requires DedupKey(plan, plan.nodes[i]) == Some(key) && key in seen
    ensures AliasesOk(plan, i + 1, aliases[plan.nodes[i].id := seen[key]])
  {
    hide DedupKey;
    NotAliased(plan, i, aliases);
    var id := plan.nodes[i].id;
    var aliases' := aliases[id := seen[key]];
    forall j | 0 <= j < i + 1 && plan.nodes[j].id in aliases'
      ensures Merged(plan, aliases', j)
    {
      if j < i {
        assert Merged(plan, aliases, j);
        var k: nat :| StandsFor(plan, aliases, k, j);
        assert plan.nodes[k].id != id;
        assert StandsFor(plan, aliases', k, j);
      } else {
        var k: nat :| SeenAt(plan, i, seen[key], aliases, key, k);
        assert plan.nodes[k].id != id;
        assert StandsFor(plan, aliases', k, i);
      }
    }
  }

  lemma SeenStep(plan: Plan, i: nat, seen: map<Key, NodeId>, aliases: Aliases)
    requires DistinctIds(plan.nodes) && i < |plan.nodes| && SeenOk(plan, i, seen, aliases)
      && AliasesOk(plan, i, aliases)
    requires DedupKey(plan, plan.nodes[i]).Some? ==> DedupKey(plan, plan.nodes[i]).value !in seen
    ensures var key := DedupKey(plan, plan.nodes[i]);
      SeenOk(plan, i + 1, if key.Some? then seen[key.value := plan.nodes[i].id] else seen, aliases)
    ensures AliasesOk(plan, i + 1, aliases)
  {
    hide DedupKey, Merged;
    NotAliased(plan, i, aliases);
    var next := i + 1;
    forall k | k in seen
      ensures exists j: nat :: SeenAt(plan, next, seen[k], aliases, k, j)
    {
      var j: nat :| SeenAt(plan, i, seen[k], aliases, k, j);
      assert SeenAt(plan, i + 1, seen[k], aliases, k, j);
    }
    var key := DedupKey(plan, plan.nodes[i]);
    if key.Some? {
      assert SeenAt(plan, i + 1, plan.nodes[i].id, aliases, key.value, i);
    }
  }

  lemma DedupDone(plan: Plan, seen: map<Key, NodeId>, aliases: Aliases)
    requires DistinctIds(plan.nodes) && SeenOk(plan, |plan.nodes|, seen, aliases)
      && AliasesOk(plan, |plan.nodes|, aliases)
    ensures Deduped(plan, aliases) && Flat(aliases)
  {
    hide DedupKey;
    forall id | id in aliases
      ensures aliases[id] !in aliases && id in Ids(plan.nodes)
    {
      var j :| 0 <= j < |plan.nodes| && plan.nodes[j].id == id;
      assert Merged(plan, aliases, j);
    }
  }

  // Which nodes that merges, stated of the tools and the calls alone.

  /** Calls of the tool may be merged: it declares that they are pure or cacheable. */
  ghost predicate MayMerge(plan: Plan, tool: ToolName) {
    exists e :: tool in plan.tools && plan.tools[tool].effects == Some(e) && (e.pure || e.cacheable)
  }

  ghost predicate IsPure(plan: Plan, tool: ToolName) {
    exists e :: tool in plan.tools && plan.tools[tool].effects == Some(e) && e.pure
  }

  /** One of the two calls is enough: they are the same, and, unless they are pure,
      wait for the same nodes. */
  ghost predicate Interchangeable(plan: Plan, x: Node, y: Node) {
    MayMerge(plan, x.tool) && SameCall(x, y) && (IsPure(plan, x.tool) || Join(x.dependsOn) == Join(y.dependsOn))
  }

  lemma KeysAre(plan: Plan, x: Node, y: Node)
    requires WellFormed(x.input) && WellFormed(y.input)
    ensures DedupKey(plan, x).Some? <==> MayMerge(plan, x.tool)
    ensures DedupKey(plan, x).Some? && DedupKey(plan, x) == DedupKey(plan, y) <==> Interchangeable(plan, x, y)
  {
    Texts.Injective(x.input, y.input);
    KeyParts(plan, x);
    KeyParts(plan, y);
    hide DedupKey, MayMerge, IsPure, Texts.Canonical, Join;
    if SameCall(x, y) {
      assert x.tool == y.tool;
    }
  }

  lemma KeyParts(plan: Plan, node: Node)
    ensures DedupKey(plan, node) ==
      if MayMerge(plan, node.tool)
      then Some(Key(node.tool, Texts.Canonical(node.input), node.forEach, node.condition,
                    if IsPure(plan, node.tool) then None else Some(Join(node.dependsOn))))
      else None
  {
    hide Texts.Canonical, Join;
  }

  ghost predicate Removed(removed: seq<(NodeId, NodeId)>, id: NodeId) {
    exists k :: 0 <= k < |removed| && removed[k].0 == id
  }

  /** Each removed node is interchangeable with the earlier one it is reported
      for, which stays. */
  ghost predicate MergesRight(plan: Plan, removed: seq<(NodeId, NodeId)>) {
    forall k | 0 <= k < |removed| :: MergedSomewhere(plan, removed, removed[k])
  }

  ghost predicate MergedSomewhere(plan: Plan, removed: seq<(NodeId, NodeId)>, pair: (NodeId, NodeId)) {
    exists i, j :: MergedPair(plan, removed, pair, i, j)
  }

  ghost predicate MergedPair(plan: Plan, removed: seq<(NodeId, NodeId)>, pair: (NodeId, NodeId), i: int, j: int) {
    && 0 <= i < j < |plan.nodes| && plan.nodes[j].id == pair.0 && plan.nodes[i].id == pair.1
    && !Removed(removed, pair.1) && Interchangeable(plan, plan.nodes[j], plan.nodes[i])
  }

  /** No two nodes that stay are interchangeable. */
  ghost predicate NothingLeftToMerge(plan: Plan, removed: seq<(NodeId, NodeId)>) {
    forall i, j | 0 <= i < j < |plan.nodes| && Interchangeable(plan, plan.nodes[j], plan.nodes[i]) ::
      Removed(removed, plan.nodes[i].id) || Removed(removed, plan.nodes[j].id)
  }

  lemma {:induction false} ReportLists(nodes: seq<Node>, aliases: Aliases)
    ensures forall k | 0 <= k < |MergeReport(nodes, aliases)| ::
      MergeReport(nodes, aliases)[k].0 in aliases
        && aliases[MergeReport(nodes, aliases)[k].0] == MergeReport(nodes, aliases)[k].1
        && MergeReport(nodes, aliases)[k].0 in Ids(nodes)
    ensures forall id | id in Ids(nodes) && id in aliases :: Removed(MergeReport(nodes, aliases), id)
  {
    if nodes != [] {
      var init, last := nodes[..|nodes| - 1], nodes[|nodes| - 1];
      ReportLists(init, aliases);
      var before, after := MergeReport(init, aliases), MergeReport(nodes, aliases);
      forall k | 0 <= k < |after|
        ensures after[k].0 in aliases && aliases[after[k].0] == after[k].1 && after[k].0 in Ids(nodes)
      {
        if k < |before| {
          var i :| 0 <= i < |init| && init[i].id == after[k].0;
          assert nodes[i].id == after[k].0;
        } else {
          assert nodes[|nodes| - 1].id == after[k].0;
        }
      }
      forall id | id in Ids(nodes) && id in aliases
        ensures Removed(after, id)
      {
        var i :| 0 <= i < |nodes| && nodes[i].id == id;
        if i < |init| {
          assert init[i].id == id;
          var k :| 0 <= k < |before| && before[k].0 == id;
          assert after[k].0 == id;
        } else {
          assert after[|before|].0 == id;
        }
      }
    }
  }

  /** What deduplication reports is right, and nothing is left to merge. */
  lemma MergesAreRight(plan: Plan, removed: seq<(NodeId, NodeId)>, aliases: Aliases)
    requires DistinctIds(plan.nodes) && JsonInputs(plan) && Deduped(plan, aliases)
      && removed == MergeReport(plan.nodes, aliases)
    ensures MergesRight(plan, removed) && NothingLeftToMerge(plan, removed)
  {
    ReportLists(plan.nodes, aliases);
    hide DedupKey, Interchangeable, MergeReport;
    forall id
      ensures Removed(removed, id) <==> id in aliases
    {
      if Removed(removed, id) {
        var k :| 0 <= k < |removed| && removed[k].0 == id;
      }
    }
    hide Removed;
    forall k | 0 <= k < |removed|
      ensures MergedSomewhere(plan, removed, removed[k])
    {
      var j :| 0 <= j < |plan.nodes| && plan.nodes[j].id == removed[k].0;
      assert Merged(plan, aliases, j);
      var i: nat :| StandsFor(plan, aliases, i, j);
      KeysAre(plan, plan.nodes[j], plan.nodes[i]);
      assert MergedPair(plan, removed, removed[k], i, j);
    }
    forall i, j | 0 <= i < j < |plan.nodes| && Interchangeable(plan, plan.nodes[j], plan.nodes[i])
      ensures Removed(removed, plan.nodes[i].id) || Removed(removed, plan.nodes[j].id)
    {
      KeysAre(plan, plan.nodes[j], plan.nodes[i]);
    }
  }

  /** Ids may hold commas, so different dependencies can look alike once joined. */
  lemma CommasCollide()
    ensures ValidNodeId("a,b") && ValidNodeId("a") && ValidNodeId("b")
    ensures ["a,b"] != ["a", "b"] && Join(["a,b"]) == Join(["a", "b"])
  {
    var two := ["a", "b"];
    assert two[1..] == ["b"];
    assert Join(two[1..]) == "b";
  }

  /** Joined dependencies are the dependencies, unless an id is empty or holds a comma. */
  lemma {:induction false} JoinDetermines(a: seq<NodeId>, b: seq<NodeId>)
    requires forall i | 0 <= i < |a| :: a[i] != "" && ',' !in a[i]
    requires forall i | 0 <= i < |b| :: b[i] != "" && ',' !in b[i]
    ensures Join(a) == Join(b) <==> a == b
  {
    if Join(a) == Join(b) && a != [] && b != [] {
      var tailA, tailB := if |a| == 1 then "" else "," + Join(a[1..]), if |b| == 1 then "" else "," + Join(b[1..]);
      assert Join(a) == a[0] + tailA && Join(b) == b[0] + tailB;
      FirstPart(a[0], tailA, b[0], tailB);
      if |a| > 1 && |b| > 1 {
        assert tailA[1..] == Join(a[1..]) && tailB[1..] == Join(b[1..]);
        JoinDetermines(a[1..], b[1..]);
      }
      assert a == [a[0]] + a[1..] && b == [b[0]] + b[1..];
    }
  }

  lemma EmptyPart(a: string, s: string)
    requires ',' !in a && (s == "" || s[0] == ',')
    ensures a == "" <==> a + s == "" || (a + s)[0] == ','
  {
    assert a != "" ==> (a + s)[0] == a[0];
  }

  lemma {:induction false} FirstPart(a: string, s: string, b: string, t: string)
    requires ',' !in a && ',' !in b && a + s == b + t
    requires (s == "" || s[0] == ',') && (t == "" || t[0] == ',')
    ensures a == b && s == t
  {
    if a == "" || b == "" {
      assert a == "" ==> a + s == s;
      assert b == "" ==> b + t == t;
      EmptyPart(a, s);
      EmptyPart(b, t);
    } else {
      assert (a + s)[0] == a[0] && (b + t)[0] == b[0];
      assert (a + s)[1..] == a[1..] + s && (b + t)[1..] == b[1..] + t;
      FirstPart(a[1..], s, b[1..], t);
      assert a == [a[0]] + a[1..] && b == [b[0]] + b[1..];
    }
  }

  /** Merges nodes with equal keys and redirects what referred to the merged ones. */
  method DeduplicateNodes(plan: Plan) returns (result: Plan, removed: seq<(NodeId, NodeId)>)
    requires DistinctIds(plan.nodes)
    ensures Deduped(plan, AliasesOf(removed)) && Flat(AliasesOf(removed))
    ensures result == Contracted(plan, AliasesOf(removed))
    ensures removed == MergeReport(plan.nodes, AliasesOf(removed))
    ensures JsonInputs(plan) ==> MergesRight(plan, removed) && NothingLeftToMerge(plan, removed)
  {
    hide JsonInputs, MergesRight, NothingLeftToMerge, DedupKey, SeenOk, AliasesOk, Deduped, RewriteNode, RewriteOutputs,
      DistinctIds, KeepNodes, MergeReport, AliasesOf;
    var seen: map<Key, NodeId> := map[];
    var found: Aliases := map[];
    var kept: seq<Node> := [];
    removed := [];
    var nodes := plan.nodes;
    DedupStart(plan);
    AliasesAppend(removed, "", "");
    for i := 0 to |nodes|
      invariant SeenOk(plan, i, seen, found) && AliasesOk(plan, i, found)
      invariant kept == KeepNodes(nodes[..i], Survivors(plan, found))
      invariant removed == MergeReport(nodes[..i], found) && AliasesOf(removed) == found
    {
      var node := nodes[i];
      var key := DedupKey(plan, node);
      if key.Some? && key.value in seen {
        NotAliased(plan, i, found);
        AliasStep(plan, i, seen, found, key.value);
        SeenAliasStep(plan, i, seen, found, key.value);
        KeepAlias(plan, i, found, seen[key.value]);
        AliasesAppend(removed, node.id, seen[key.value]);
        found := found[node.id := seen[key.value]];
        removed := removed + [(node.id, seen[key.value])];
      } else {
        NotAliased(plan, i, found);
        SeenStep(plan, i, seen, found);
        KeepSurvivor(plan, i, found);
        if key.Some? {
          seen := seen[key.value := node.id];
        }
        kept := kept + [node];
      }
    }
    DedupDone(plan, seen, found);
    if JsonInputs(plan) {
      assert nodes[..|nodes|] == nodes;
      MergesAreRight(plan, removed, found);
    }
    assert nodes[..|nodes|] == nodes;
    if found == map[] {
      KeepAllNodes(plan);
      result := plan.(nodes := kept);
      return;
    }
    var rewritten: seq<Node> := [];
    for i := 0 to |kept|
      invariant rewritten == RewriteNodes(kept[..i], found)
    {
      var node := RewriteNodeAliases(kept[i], found);
      assert RewriteNodes(kept[..i + 1], found) == RewriteNodes(kept[..i], found) + [RewriteNode(kept[i], found)];
      rewritten := rewritten + [node];
    }
    assert kept[..|kept|] == kept;
    result := plan.(nodes := rewritten, outputs := RewriteOutputs(plan.outputs, found));
  }

  lemma DedupStart(plan: Plan)
    ensures SeenOk(plan, 0, map[], map[]) && AliasesOk(plan, 0, map[])
    ensures KeepNodes([], Survivors(plan, map[])) == [] && MergeReport([], map[]) == []
  {
  }

  lemma {:induction false} ReportSame(nodes: seq<Node>, aliases: Aliases, id: NodeId, canonical: NodeId)
    requires forall i | 0 <= i < |nodes| :: nodes[i].id != id
    ensures MergeReport(nodes, aliases[id := canonical]) == MergeReport(nodes, aliases)
  {
    if nodes != [] {
      ReportSame(nodes[..|nodes| - 1], aliases, id, canonical);
    }
  }

  lemma {:induction false} KeepSame(nodes: seq<Node>, s: set<NodeId>, t: set<NodeId>)
    requires forall i | 0 <= i < |nodes| :: nodes[i].id in s <==> nodes[i].id in t
    ensures KeepNodes(nodes, s) == KeepNodes(nodes, t)
  {
    if nodes != [] {
      KeepSame(nodes[..|nodes| - 1], s, t);
    }
  }

  lemma KeepAlias(plan: Plan, i: nat, aliases: Aliases, canonical: NodeId)
    requires DistinctIds(plan.nodes) && i < |plan.nodes| && plan.nodes[i].id !in aliases
    ensures KeepNodes(plan.nodes[..i + 1], Survivors(plan, aliases[plan.nodes[i].id := canonical])) ==
      KeepNodes(plan.nodes[..i], Survivors(plan, aliases))
    ensures MergeReport(plan.nodes[..i + 1], aliases[plan.nodes[i].id := canonical]) ==
      MergeReport(plan.nodes[..i], aliases) + [(plan.nodes[i].id, canonical)]
  {
    ReportSame(plan.nodes[..i], aliases, plan.nodes[i].id, canonical);
    var nodes := plan.nodes;
    var s, t := Survivors(plan, aliases), Survivors(plan, aliases[nodes[i].id := canonical]);
    assert nodes[..i + 1][..i] == nodes[..i];
    assert t == s - {nodes[i].id};
    KeepSame(nodes[..i], s, t);
  }

  lemma KeepSurvivor(plan: Plan, i: nat, aliases: Aliases)
    requires i < |plan.nodes| && plan.nodes[i].id !in aliases
    ensures KeepNodes(plan.nodes[..i + 1], Survivors(plan, aliases)) ==
      KeepNodes(plan.nodes[..i], Survivors(plan, aliases)) + [plan.nodes[i]]
    ensures MergeReport(plan.nodes[..i + 1], aliases) == MergeReport(plan.nodes[..i], aliases)
  {
    assert plan.nodes[..i + 1][..i] == plan.nodes[..i];
    IdIn(plan.nodes, plan.nodes[i]);
  }

  lemma {:induction false} KeepEvery(nodes: seq<Node>, s: set<NodeId>)
    requires forall i | 0 <= i < |nodes| :: nodes[i].id in s
    ensures KeepNodes(nodes, s) == nodes
  {
    if nodes != [] {
      KeepEvery(nodes[..|nodes| - 1], s);
      assert nodes == nodes[..|nodes| - 1] + [nodes[|nodes| - 1]];
    }
  }

  lemma KeepAllNodes(plan: Plan)
    ensures KeepNodes(plan.nodes, Survivors(plan, map[])) == plan.nodes
  {
    KeepEvery(plan.nodes, Survivors(plan, map[]));
  }

  // --------------------------------------------------- deduplication is sound

  /** The assumptions every pass makes of a plan's inputs: they are JSON. */
  ghost predicate JsonInputs(plan: Plan) {
    forall i | 0 <= i < |plan.nodes| :: WellFormed(plan.nodes[i].input)
  }

  lemma CallsSameOutcome(host: Host, tools: map<ToolName, ToolSpec>, x: Node, y: Node, a: Assignment)
    requires SameCall(x, y)
    ensures SoloOutcome(host, tools, x, a) == SoloOutcome(host, tools, y, a)
  {
    hide ResolveInput, EvaluateWhen, ResolveItemList, CallEach, CallChunks, ItemInputs, SingleResult;
    PreparedSame(host, tools, x, y, OutputsOf(a), DeadOf(a));
  }

  lemma PreparedSame(host: Host, tools: map<ToolName, ToolSpec>, x: Node, y: Node, outputs: Outputs, dead: set<NodeId>)
    requires SameCall(x, y)
    ensures var p, q := PrepareMember(host, tools, x, outputs, dead), PrepareMember(host, tools, y, outputs, dead);
      || (p.Settled? && p == q)
      || (p.Ready? && q.Ready? && SingleResult(host.exec, x.tool, p.member) == SingleResult(host.exec, y.tool,
           q.member))
  {
    hide DataDeps, EvaluateWhen, PrepareOne, SingleResult;
    SameDeps(x, y);
    PreparedOneSame(host, tools, x, y, outputs);
  }

  lemma SameDeps(x: Node, y: Node)
    requires SameCall(x, y)
    ensures DataDeps(x) == DataDeps(y)
  {
  }

  lemma PreparedOneSame(host: Host, tools: map<ToolName, ToolSpec>, x: Node, y: Node, outputs: Outputs)
    requires SameCall(x, y)
    ensures var p, q := PrepareOne(host, tools, x, outputs), PrepareOne(host, tools, y, outputs);
      || (p.Err? && p == q)
      || (p.Ok? && q.Ok? && SingleResult(host.exec, x.tool, p.value) == SingleResult(host.exec, y.tool, q.value))
  {
    hide ResolveInput, ResolveItemList, FanOut;
    var p := PrepareOne(host, tools, x, outputs);
    if p.Ok? && p.value.items.Some? {
      FanOutIgnoresNode(host.exec, x.tool, p.value, y.id);
    }
  }

  lemma FanOutIgnoresNode(exec: Executor, tool: ToolName, member: PreparedMember, node: NodeId)
    requires member.items.Some?
    ensures FanOut(exec, tool, member) == FanOut(exec, tool, member.(node := node))
  {
    hide CallEach, CallChunks, ItemInputs, ChunkSize;
  }

  /** A merged node and the one it was merged into have the same outcome. */
  lemma AliasSameOutcome(host: Host, plan: Plan, aliases: Aliases, a: Assignment, id: NodeId)
    requires DistinctIds(plan.nodes) && JsonInputs(plan) && Deduped(plan, aliases) && Meaning(host, plan, a)
    requires id in aliases
    ensures aliases[id] in a && id in a && a[aliases[id]] == a[id]
    ensures aliases[id] in Survivors(plan, aliases)
  {
    hide SoloOutcome, DedupKey;
    var i :| 0 <= i < |plan.nodes| && plan.nodes[i].id == id;
    assert Merged(plan, aliases, i);
    var j: nat :| StandsFor(plan, aliases, j, i);
    SameKeySameCall(plan, plan.nodes[i], plan.nodes[j]);
    CallsSameOutcome(host, plan.tools, plan.nodes[i], plan.nodes[j], a);
    assert Means(host, plan.tools, plan.nodes[i], a) && Means(host, plan.tools, plan.nodes[j], a);
  }

  /** The plan alone decides which nodes are merged into which. */
  lemma DedupUnique(plan: Plan, a: Aliases, b: Aliases)
    requires DistinctIds(plan.nodes) && Deduped(plan, a) && Deduped(plan, b)
    ensures a == b
  {
    hide DedupKey;
    forall i | 0 <= i < |plan.nodes| && plan.nodes[i].id in a
      ensures plan.nodes[i].id in b && a[plan.nodes[i].id] == b[plan.nodes[i].id]
    {
      SameMerge(plan, a, b, i);
    }
    forall i | 0 <= i < |plan.nodes| && plan.nodes[i].id in b
      ensures plan.nodes[i].id in a
    {
      SameMerge(plan, b, a, i);
    }
    assert a.Keys == b.Keys;
  }

  lemma SameMerge(plan: Plan, a: Aliases, b: Aliases, i: nat)
    requires DistinctIds(plan.nodes) && Deduped(plan, a) && Deduped(plan, b) && i < |plan.nodes|
      && plan.nodes[i].id in a
    ensures plan.nodes[i].id in b && a[plan.nodes[i].id] == b[plan.nodes[i].id]
  {
    hide DedupKey, DistinctIds;
    assert Merged(plan, a, i);
    var j: nat :| StandsFor(plan, a, j, i);
    FirstStays(plan, a, b, j);
    assert plan.nodes[i].id in b;
    assert Merged(plan, b, i);
    var k: nat :| StandsFor(plan, b, k, i);
    FirstStays(plan, b, a, k);
    assert k == j;
  }

  lemma FirstStays(plan: Plan, a: Aliases, b: Aliases, j: nat)
    requires Deduped(plan, a) && Deduped(plan, b) && j < |plan.nodes| && plan.nodes[j].id !in a
    ensures plan.nodes[j].id !in b
  {
    hide DedupKey;
    assert plan.nodes[j].id in b ==> Merged(plan, b, j);
  }

  /** Through the aliases, the survivors' outcomes answer for every node. */
  ghost predicate Through(nodes: set<NodeId>, aliases: Aliases, a: Assignment, b: Assignment) {
    forall n | n in nodes :: n in a && Canonical(n, aliases) in b && b[Canonical(n, aliases)] == a[n]
  }

  lemma SurvivorsAnswer(host: Host, plan: Plan, aliases: Aliases, a: Assignment)
    requires DistinctIds(plan.nodes) && JsonInputs(plan) && Deduped(plan, aliases) && Meaning(host, plan, a)
    ensures Through(Ids(plan.nodes), aliases, a, Restrict(a, Survivors(plan, aliases)))
  {
    hide Means, Merged, Deduped;
    var b := Restrict(a, Survivors(plan, aliases));
    forall n | n in Ids(plan.nodes)
      ensures n in a && Canonical(n, aliases) in b && b[Canonical(n, aliases)] == a[n]
    {
      if n in aliases {
        AliasSameOutcome(host, plan, aliases, a, n);
      }
    }
  }

  lemma ThroughRedirects(nodes: set<NodeId>, aliases: Aliases, a: Assignment, b: Assignment, some: set<NodeId>)
    requires Through(nodes, aliases, a, b) && some <= nodes
    ensures Redirects(some, OutputsOf(a), aliases, OutputsOf(b))
    ensures some * DeadOf(a) == {} <==> CanonicalSet(some, aliases) * DeadOf(b) == {}
  {
    forall n | n in some
      ensures SameAt(n, OutputsOf(a), Canonical(n, aliases), OutputsOf(b))
      ensures n in DeadOf(a) <==> Canonical(n, aliases) in DeadOf(b)
      ensures Canonical(n, aliases) in CanonicalSet(some, aliases)
    {
    }
    if x :| x in some * DeadOf(a) {
      assert Canonical(x, aliases) in CanonicalSet(some, aliases) * DeadOf(b);
    }
    if y :| y in CanonicalSet(some, aliases) * DeadOf(b) {
      var x :| x in some && Canonical(x, aliases) == y;
      assert x in some * DeadOf(a);
    }
  }

  lemma RefNodesRewritten(refs: seq<ValueRef>, aliases: Aliases)
    ensures RefNodes(RewriteRefs(refs, aliases)) == CanonicalSet(RefNodes(refs), aliases)
  {
    var after := RewriteRefs(refs, aliases);
    forall n
      ensures n in RefNodes(after) <==> n in CanonicalSet(RefNodes(refs), aliases)
    {
      if n in RefNodes(after) {
        var r :| r in after && r.node == n;
        var i :| 0 <= i < |after| && after[i] == r;
        assert refs[i] in refs && refs[i].node in RefNodes(refs);
      }
      if n in CanonicalSet(RefNodes(refs), aliases) {
        var d :| d in RefNodes(refs) && Canonical(d, aliases) == n;
        var r :| r in refs && r.node == d;
        var i :| 0 <= i < |refs| && refs[i] == r;
        assert after[i] in after;
      }
    }
  }

  lemma InputRewritten(input: Json, aliases: Aliases)
    requires ValidTargets(aliases) && CollectRefs(input).Ok?
    ensures CollectRefs(RewriteValue(input, aliases)).Ok?
    ensures InputNodes(RewriteValue(input, aliases)) == CanonicalSet(InputNodes(input), aliases)
  {
    hide CollectRefs, RewriteValue, RefNodes, CanonicalSet;
    CollectRewritten(input, aliases);
    RefNodesRewritten(CollectRefs(input).value, aliases);
  }

  function SourceSet(node: Node): set<NodeId> {
    if node.forEach.Some? then {node.forEach.value.node} else {}
  }

  function TargetSet(node: Node): set<NodeId> {
    if node.condition.Some? then {node.condition.value.target.node} else {}
  }

  lemma SourcesRewritten(node: Node, aliases: Aliases)
    ensures SourceSet(RewriteNode(node, aliases)) == CanonicalSet(SourceSet(node), aliases)
    ensures TargetSet(RewriteNode(node, aliases)) == CanonicalSet(TargetSet(node), aliases)
    ensures Listing(RewriteNode(node, aliases).dependsOn) == CanonicalSet(Listing(node.dependsOn), aliases)
  {
    hide RewriteValue;
  }

  /** A rewritten node refers to the canonical nodes. */
  lemma DepsRewritten(node: Node, aliases: Aliases)
    requires ValidTargets(aliases) && CollectRefs(node.input).Ok?
    ensures CollectRefs(RewriteNode(node, aliases).input).Ok?
    ensures DataDeps(RewriteNode(node, aliases)) == CanonicalSet(DataDeps(node), aliases)
    ensures NodeDeps(RewriteNode(node, aliases)) == CanonicalSet(NodeDeps(node), aliases)
  {
    hide CollectRefs, RewriteValue, RefNodes, CanonicalSet, InputNodes, Listing;
    InputRewritten(node.input, aliases);
    SourcesRewritten(node, aliases);
    CanonicalUnion(Listing(node.dependsOn), DataDeps(node), aliases);
    CanonicalUnion(InputNodes(node.input), SourceSet(node), aliases);
    CanonicalUnion(InputNodes(node.input) + SourceSet(node), TargetSet(node), aliases);
  }

  lemma CanonicalUnion(s: set<NodeId>, t: set<NodeId>, aliases: Aliases)
    ensures CanonicalSet(s + t, aliases) == CanonicalSet(s, aliases) + CanonicalSet(t, aliases)
  {
    hide Canonical;
  }

  lemma RefRewritten(r: ValueRef, aliases: Aliases, outputs: Outputs, outputs': Outputs)
    requires SameAt(r.node, outputs, Canonical(r.node, aliases), outputs')
    ensures ResolveRef(RewriteRef(r, aliases), outputs') == ResolveRef(r, outputs)
  {
  }

  /** Two nodes that see the same gates are prepared alike. */
  lemma PrepareAlike(host: Host, tools: map<ToolName, ToolSpec>, x: Node, y: Node, a: Assignment, b: Assignment)
    requires x.id == y.id && x.tool == y.tool && (x.condition.Some? <==> y.condition.Some?)
    requires DataDeps(x) * DeadOf(a) == {} <==> DataDeps(y) * DeadOf(b) == {}
    requires ResolveInput(x.input, OutputsOf(a)) == ResolveInput(y.input, OutputsOf(b))
    requires ResolveItemList(x.forEach, OutputsOf(a)) == ResolveItemList(y.forEach, OutputsOf(b))
    requires x.condition.Some? ==>
      EvaluateWhen(x.condition.value, OutputsOf(a)) == EvaluateWhen(y.condition.value, OutputsOf(b))
    ensures PrepareMember(host, tools, x, OutputsOf(a), DeadOf(a)) ==
      PrepareMember(host, tools, y, OutputsOf(b), DeadOf(b))
  {
    hide ResolveInput, ResolveItemList, EvaluateWhen, DataDeps, OutputsOf, DeadOf;
  }

  lemma GatesRewritten(node: Node, aliases: Aliases, outputs: Outputs, outputs': Outputs)
    requires Redirects(DataDeps(node), outputs, aliases, outputs')
    ensures ResolveItemList(RewriteNode(node, aliases).forEach, outputs') == ResolveItemList(node.forEach, outputs)
    ensures node.condition.Some? ==>
      EvaluateWhen(RewriteNode(node, aliases).condition.value, outputs') == EvaluateWhen(node.condition.value, outputs)
  {
    hide RewriteValue, ResolveRef, Redirects, DataDeps;
    SourcesAmongDeps(node);
    if node.forEach.Some? {
      RedirectedAt(DataDeps(node), outputs, aliases, outputs', node.forEach.value.node);
      RefRewritten(node.forEach.value, aliases, outputs, outputs');
    }
    if node.condition.Some? {
      RedirectedAt(DataDeps(node), outputs, aliases, outputs', node.condition.value.target.node);
      RefRewritten(node.condition.value.target, aliases, outputs, outputs');
    }
  }

  lemma RedirectsFewer(some: set<NodeId>, nodes: set<NodeId>, outputs: Outputs, aliases: Aliases, outputs': Outputs)
    requires Redirects(nodes, outputs, aliases, outputs') && some <= nodes
    ensures Redirects(some, outputs, aliases, outputs')
  {
  }

  /** A rewritten node is prepared from the survivors as the original is from
      all nodes. */
  lemma PrepareRewritten(host: Host, tools: map<ToolName, ToolSpec>, node: Node, aliases: Aliases, a: Assignment,
      b: Assignment)
    requires ValidTargets(aliases) && CollectRefs(node.input).Ok? && Through(DataDeps(node), aliases, a, b)
    ensures PrepareMember(host, tools, RewriteNode(node, aliases), OutputsOf(b), DeadOf(b)) ==
      PrepareMember(host, tools, node, OutputsOf(a), DeadOf(a))
  {
    hide RewriteValue, ResolveInput, ResolveItemList, EvaluateWhen, CollectRefs, RefNodes, OutputsOf, DeadOf, Redirects,
      DataDeps, Through, CanonicalSet, ValidTargets, PrepareMember;
    DepsRewritten(node, aliases);
    ThroughRedirects(DataDeps(node), aliases, a, b, DataDeps(node));
    InputAmongDeps(node);
    RedirectsFewer(InputNodes(node.input), DataDeps(node), OutputsOf(a), aliases, OutputsOf(b));
    ResolveRewritten(node.input, aliases, OutputsOf(a), OutputsOf(b));
    GatesRewritten(node, aliases, OutputsOf(a), OutputsOf(b));
    PrepareAlike(host, tools, node, RewriteNode(node, aliases), a, b);
  }

  lemma RedirectedAt(nodes: set<NodeId>, outputs: Outputs, aliases: Aliases, outputs': Outputs, n: NodeId)
    requires Redirects(nodes, outputs, aliases, outputs') && n in nodes
    ensures SameAt(n, outputs, Canonical(n, aliases), outputs')
  {
  }

  lemma SoloRewritten(host: Host, tools: map<ToolName, ToolSpec>, node: Node, aliases: Aliases, a: Assignment,
      b: Assignment)
    requires ValidTargets(aliases) && CollectRefs(node.input).Ok? && Through(DataDeps(node), aliases, a, b)
    ensures SoloOutcome(host, tools, RewriteNode(node, aliases), b) == SoloOutcome(host, tools, node, a)
  {
    PrepareRewritten(host, tools, node, aliases, a, b);
  }

  lemma AliasTargetsValid(plan: Plan, aliases: Aliases)
    requires WellFormedPlan(plan) && Deduped(plan, aliases)
    ensures ValidTargets(aliases)
  {
    hide DedupKey, CollectRefs, NodeDeps;
    forall id | id in aliases
      ensures ValidNodeId(aliases[id])
    {
      var i :| 0 <= i < |plan.nodes| && plan.nodes[i].id == id;
      assert Merged(plan, aliases, i);
      var j: nat :| StandsFor(plan, aliases, j, i);
      assert ValidNode(plan, plan.nodes[j]);
    }
  }

  lemma ContractedIds(plan: Plan, aliases: Aliases)
    ensures Ids(Contracted(plan, aliases).nodes) == Survivors(plan, aliases)
    ensures DistinctIds(plan.nodes) ==> DistinctIds(Contracted(plan, aliases).nodes)
    ensures Contracted(plan, aliases).tools == plan.tools && Contracted(plan, aliases).version == plan.version
  {
    hide RewriteNode, RewriteOutputs;
    if aliases != map[] {
      var kept := KeepNodes(plan.nodes, Survivors(plan, aliases));
      KeepIds(plan.nodes, Survivors(plan, aliases));
      if DistinctIds(plan.nodes) {
        KeepDistinct(plan.nodes, Survivors(plan, aliases));
      }
      forall i | 0 <= i < |kept|
        ensures RewriteNode(kept[i], aliases).id == kept[i].id
      {
        RewrittenId(kept[i], aliases);
      }
      var nodes := RewriteNodes(kept, aliases);
      assert forall i | 0 <= i < |kept| :: nodes[i].id == kept[i].id;
      assert Ids(nodes) == Ids(kept);
    }
  }

  lemma RewrittenId(node: Node, aliases: Aliases)
    ensures RewriteNode(node, aliases).id == node.id && RewriteNode(node, aliases).tool == node.tool
  {
  }

  ghost predicate Survives(plan: Plan, aliases: Aliases, node: Node, node': Node) {
    && node in plan.nodes && node.id in Survivors(plan, aliases)
    && node' == if aliases == map[] then node else RewriteNode(node, aliases)
  }

  /** Each node of the contracted plan is a survivor, rewritten or untouched. */
  lemma ContractedNode(plan: Plan, aliases: Aliases, i: nat)
    requires i < |Contracted(plan, aliases).nodes|
    ensures exists node :: Survives(plan, aliases, node, Contracted(plan, aliases).nodes[i])
  {
    if aliases == map[] {
      IdIn(plan.nodes, plan.nodes[i]);
      assert Survives(plan, aliases, plan.nodes[i], plan.nodes[i]);
    } else {
      KeepMembers(plan.nodes, Survivors(plan, aliases));
      var kept := KeepNodes(plan.nodes, Survivors(plan, aliases));
      assert kept[i] in kept;
      IdIn(plan.nodes, kept[i]);
      assert Survives(plan, aliases, kept[i], Contracted(plan, aliases).nodes[i]);
    }
  }

  lemma SurvivorMeans(host: Host, plan: Plan, aliases: Aliases, a: Assignment, node: Node, node': Node)
    requires WellFormedPlan(plan) && Deduped(plan, aliases) && Meaning(host, plan, a) && ValidTargets(aliases)
    requires Through(Ids(plan.nodes), aliases, a, Restrict(a, Survivors(plan, aliases)))
    requires Survives(plan, aliases, node, node')
    ensures Means(host, plan.tools, node', Restrict(a, Survivors(plan, aliases)))
  {
    hide SoloOutcome, Deduped, WellFormedPlan, RewriteValue, CollectRefs;
    RewrittenId(node, aliases);
    var b := Restrict(a, Survivors(plan, aliases));
    DistinctNodes(plan);
    NodeOfMember(plan.nodes, node);
    ValidAt(plan, node.id);
    MeansOf(host, plan, a, node.id);
    assert DataDeps(node) <= Ids(plan.nodes);
    SoloRewritten(host, plan.tools, node, aliases, a, b);
    if aliases == map[] {
      SoloFootprint(host, plan.tools, node, a, b);
    }
  }

  /** Deduplication preserves meaning: the survivors keep their outcomes, under
      references redirected to them, and every declared output its value. */
  lemma DedupKeepsMeaning(host: Host, plan: Plan, aliases: Aliases, a: Assignment)
    requires WellFormedPlan(plan) && JsonInputs(plan) && Deduped(plan, aliases) && Meaning(host, plan, a)
    ensures Meaning(host, Contracted(plan, aliases), Restrict(a, Survivors(plan, aliases)))
    ensures Visible(Contracted(plan, aliases), Restrict(a, Survivors(plan, aliases))) == Visible(plan, a)
  {
    hide Deduped, WellFormedPlan, Means, Contracted, Through, DistinctIds, JsonInputs, Survives, RewriteNode, Visible,
      Restrict;
    DistinctNodes(plan);
    AliasTargetsValid(plan, aliases);
    SurvivorsAnswer(host, plan, aliases, a);
    var plan', b := Contracted(plan, aliases), Restrict(a, Survivors(plan, aliases));
    ContractedIds(plan, aliases);
    RestrictKeys(plan, aliases, a);
    forall i | 0 <= i < |plan'.nodes|
      ensures Means(host, plan'.tools, plan'.nodes[i], b)
    {
      ContractedNode(plan, aliases, i);
      var node :| Survives(plan, aliases, node, plan'.nodes[i]);
      SurvivorMeans(host, plan, aliases, a, node, plan'.nodes[i]);
    }
    DedupKeepsVisible(plan, aliases, a, b);
  }

  lemma RestrictKeys(plan: Plan, aliases: Aliases, a: Assignment)
    requires a.Keys == Ids(plan.nodes)
    ensures Restrict(a, Survivors(plan, aliases)).Keys == Survivors(plan, aliases)
  {
  }

  lemma DedupKeepsVisible(plan: Plan, aliases: Aliases, a: Assignment, b: Assignment)
    requires WellFormedPlan(plan) && Through(Ids(plan.nodes), aliases, a, b)
    ensures Visible(Contracted(plan, aliases), b) == Visible(plan, a)
  {
    hide Walk, ValidNode, RewriteNodes;
    ThroughRedirects(Ids(plan.nodes), aliases, a, b, Ids(plan.nodes));
    forall name | name in plan.outputs
      ensures ResolveRef(RewriteRef(plan.outputs[name], aliases), OutputsOf(b)) ==
        ResolveRef(plan.outputs[name], OutputsOf(a))
    {
      RefRewritten(plan.outputs[name], aliases, OutputsOf(a), OutputsOf(b));
    }
    if aliases == map[] {
      assert forall name | name in plan.outputs :: RewriteRef(plan.outputs[name], aliases) == plan.outputs[name];
    }
  }

  // ------------------------------------------------------------- acyclicity

  /** Each node comes after everything it depends on. */
  ghost predicate ListedInOrder(plan: Plan) {
    forall i | 0 <= i < |plan.nodes| :: forall d | d in NodeDeps(plan.nodes[i]) :: d in Ids(plan.nodes[..i])
  }

  /** Ranks that merged nodes share and that survivors' dependencies respect:
      the dependency graph with merged nodes identified has no cycle. */
  ghost predicate QuotientRank(plan: Plan, aliases: Aliases, rank: map<NodeId, nat>) {
    && Ids(plan.nodes) <= rank.Keys
    && (forall id | id in aliases && id in rank && aliases[id] in rank :: rank[id] == rank[aliases[id]])
    && forall i | 0 <= i < |plan.nodes| && plan.nodes[i].id !in aliases :: Below(plan.nodes[i], rank)
  }

  ghost predicate Below(node: Node, rank: map<NodeId, nat>) {
    node.id in rank && forall d | d in NodeDeps(node) :: d in rank && rank[d] < rank[node.id]
  }

  lemma AliasesInPlan(plan: Plan, aliases: Aliases)
    requires Deduped(plan, aliases)
    ensures Flat(aliases)
    ensures forall id | id in aliases :: id in Ids(plan.nodes) && aliases[id] in Ids(plan.nodes)
    ensures forall n | n in Ids(plan.nodes) :: Canonical(n, aliases) in Survivors(plan, aliases)
  {
    hide DedupKey;
    forall id | id in aliases
      ensures aliases[id] in Ids(plan.nodes) && aliases[id] !in aliases
    {
      var i :| 0 <= i < |plan.nodes| && plan.nodes[i].id == id;
      assert Merged(plan, aliases, i);
      var j: nat :| StandsFor(plan, aliases, j, i);
    }
  }

  /** The dependencies of a survivor in the contracted plan are the canonical
      nodes of its dependencies. */
  lemma ContractedDeps(plan: Plan, aliases: Aliases, id: NodeId)
    requires WellFormedPlan(plan) && Deduped(plan, aliases) && id in Survivors(plan, aliases)
    ensures id in DependenciesOf(Contracted(plan, aliases))
    ensures DependenciesOf(Contracted(plan, aliases))[id] == CanonicalSet(NodeDeps(NodeOf(plan.nodes, id)), aliases)
  {
    hide Deduped, NodeDeps, CollectRefs, RewriteNode, CanonicalSet, Survives, Contracted, Survivors;
    DistinctNodes(plan);
    AliasTargetsValid(plan, aliases);
    ContractedIds(plan, aliases);
    var plan' := Contracted(plan, aliases);
    var node' := NodeOf(plan'.nodes, id);
    var i :| 0 <= i < |plan'.nodes| && plan'.nodes[i] == node';
    ContractedNode(plan, aliases, i);
    var node :| Survives(plan, aliases, node, plan'.nodes[i]);
    SurvivorDeps(plan, aliases, node, node');
  }

  lemma SurvivorDeps(plan: Plan, aliases: Aliases, node: Node, node': Node)
    requires WellFormedPlan(plan) && ValidTargets(aliases) && Survives(plan, aliases, node, node')
    ensures node.id == node'.id && node.id in Ids(plan.nodes) && NodeOf(plan.nodes, node.id) == node
    ensures NodeDeps(node') == CanonicalSet(NodeDeps(node), aliases)
  {
    hide NodeDeps, CollectRefs, RewriteNode;
    RewrittenId(node, aliases);
    NodeOfMember(plan.nodes, node);
    ValidAt(plan, node.id);
    DepsRewritten(node, aliases);
    if aliases == map[] {
      assert CanonicalSet(NodeDeps(node), aliases) == NodeDeps(node);
    }
  }

  /** Deduplication leaves an acyclic plan exactly when identifying merged nodes
      leaves the dependency graph acyclic. */
  lemma ContractedAcyclic(plan: Plan, aliases: Aliases)
    requires WellFormedPlan(plan) && Deduped(plan, aliases)
    ensures Acyclic(DependenciesOf(Contracted(plan, aliases))) <==> exists rank :: QuotientRank(plan, aliases, rank)
  {
    hide Deduped, WellFormedPlan, NodeDeps, RankOk, QuotientRank, Contracted;
    AliasesInPlan(plan, aliases);
    var deps := DependenciesOf(Contracted(plan, aliases));
    if rank :| RankOk(deps, rank) {
      var quotient := map n | n in Ids(plan.nodes) && Canonical(n, aliases) in rank :: rank[Canonical(n, aliases)];
      QuotientFromRank(plan, aliases, rank, quotient);
    }
    if rank :| QuotientRank(plan, aliases, rank) {
      RankFromQuotient(plan, aliases, rank);
    }
  }

  lemma DepsKnown(plan: Plan, i: nat)
    requires WellFormedPlan(plan) && i < |plan.nodes|
    ensures NodeDeps(plan.nodes[i]) <= Ids(plan.nodes)
    ensures plan.nodes[i].id in Ids(plan.nodes) && NodeOf(plan.nodes, plan.nodes[i].id) == plan.nodes[i]
  {
    hide NodeDeps, CollectRefs;
    NodeAt(plan.nodes, i);
    assert ValidNode(plan, plan.nodes[i]);
  }

  lemma QuotientBelow(plan: Plan, aliases: Aliases, rank: map<NodeId, nat>, quotient: map<NodeId, nat>, i: nat)
    requires WellFormedPlan(plan) && Deduped(plan, aliases) && RankOk(DependenciesOf(Contracted(plan, aliases)), rank)
    requires quotient == map n | n in Ids(plan.nodes) && Canonical(n, aliases) in rank :: rank[Canonical(n, aliases)]
    requires i < |plan.nodes| && plan.nodes[i].id !in aliases
    ensures Below(plan.nodes[i], quotient)
  {
    hide Deduped, NodeDeps, Contracted, CollectRefs, WellFormedPlan, Ids, NodeOf;
    var node := plan.nodes[i];
    DepsKnown(plan, i);
    ContractedDeps(plan, aliases, node.id);
    var deps := DependenciesOf(Contracted(plan, aliases));
    forall d | d in NodeDeps(node)
      ensures d in quotient && quotient[d] < rank[node.id]
    {
      assert Canonical(d, aliases) in deps[node.id];
    }
  }

  lemma QuotientFromRank(plan: Plan, aliases: Aliases, rank: map<NodeId, nat>, quotient: map<NodeId, nat>)
    requires WellFormedPlan(plan) && Deduped(plan, aliases) && RankOk(DependenciesOf(Contracted(plan, aliases)), rank)
    requires quotient == map n | n in Ids(plan.nodes) && Canonical(n, aliases) in rank :: rank[Canonical(n, aliases)]
    ensures QuotientRank(plan, aliases, quotient)
  {
    hide Deduped, NodeDeps, Contracted, CollectRefs, WellFormedPlan, Ids, NodeOf, Below;
    AliasesInPlan(plan, aliases);
    ContractedIds(plan, aliases);
    assert DependenciesOf(Contracted(plan, aliases)).Keys == Survivors(plan, aliases);
    forall i | 0 <= i < |plan.nodes| && plan.nodes[i].id !in aliases
      ensures Below(plan.nodes[i], quotient)
    {
      QuotientBelow(plan, aliases, rank, quotient, i);
    }
  }

  lemma RankDescends(plan: Plan, aliases: Aliases, rank: map<NodeId, nat>, n: NodeId, d: NodeId)
    requires WellFormedPlan(plan) && Deduped(plan, aliases) && QuotientRank(plan, aliases, rank)
    requires n in DependenciesOf(Contracted(plan, aliases)) && n in Survivors(plan, aliases)
      && d in DependenciesOf(Contracted(plan, aliases))[n]
    ensures d in Survivors(plan, aliases) && d in rank && n in rank && rank[d] < rank[n]
  {
    hide Deduped, NodeDeps, Contracted, CollectRefs, WellFormedPlan, Ids, DependenciesOf;
    AliasesInPlan(plan, aliases);
    ContractedDeps(plan, aliases, n);
    var i := FirstIndex(plan.nodes, n);
    DepsKnown(plan, i);
    var node := NodeOf(plan.nodes, n);
    var e :| e in NodeDeps(node) && Canonical(e, aliases) == d;
    assert Below(plan.nodes[i], rank);
  }

  lemma RankFromQuotient(plan: Plan, aliases: Aliases, rank: map<NodeId, nat>)
    requires WellFormedPlan(plan) && Deduped(plan, aliases) && QuotientRank(plan, aliases, rank)
    ensures RankOk(DependenciesOf(Contracted(plan, aliases)), rank)
  {
    hide Deduped, NodeDeps, Contracted, CollectRefs, WellFormedPlan, Ids, Below, NodeOf;
    ContractedIds(plan, aliases);
    var deps := DependenciesOf(Contracted(plan, aliases));
    assert deps.Keys == Survivors(plan, aliases);
    forall n, d | n in deps && d in deps[n]
      ensures d in deps && rank[d] < rank[n]
    {
      RankDescends(plan, aliases, rank, n, d);
    }
  }

  ghost function FirstIndex(nodes: seq<Node>, id: NodeId): (i: nat)
    requires id in Ids(nodes)
    ensures i < |nodes| && nodes[i].id == id
  {
    var i :| 0 <= i < |nodes| && nodes[i].id == id;
    i
  }

  /** Ranks by list position, merged nodes at the position of their canonical node. */
  ghost function PositionRank(plan: Plan, aliases: Aliases): (rank: map<NodeId, nat>)
    ensures forall n | n in rank :: n in Ids(plan.nodes)
  {
    map n | n in Ids(plan.nodes) && Canonical(n, aliases) in Ids(plan.nodes) ::
      FirstIndex(plan.nodes, Canonical(n, aliases))
  }

  lemma PositionsDescend(plan: Plan, aliases: Aliases, i: nat, d: NodeId)
    requires DistinctIds(plan.nodes) && Deduped(plan, aliases) && i < |plan.nodes| && d in Ids(plan.nodes[..i])
    ensures d in PositionRank(plan, aliases) && PositionRank(plan, aliases)[d] < i
  {
    hide DedupKey;
    AliasesInPlan(plan, aliases);
    var k :| 0 <= k < i && plan.nodes[..i][k].id == d;
    assert plan.nodes[k].id == d;
    if d in aliases {
      assert Merged(plan, aliases, k);
      var j: nat :| StandsFor(plan, aliases, j, k);
    }
  }

  /** A plan listed in dependency order stays acyclic. */
  lemma InOrderStaysAcyclic(plan: Plan, aliases: Aliases)
    requires WellFormedPlan(plan) && Deduped(plan, aliases) && ListedInOrder(plan)
    ensures Acyclic(DependenciesOf(Contracted(plan, aliases)))
  {
    var rank := PositionRank(plan, aliases);
    DistinctNodes(plan);
    AliasesInPlan(plan, aliases);
    forall i | 0 <= i < |plan.nodes| && plan.nodes[i].id !in aliases
      ensures Below(plan.nodes[i], rank)
    {
      NodeAt(plan.nodes, i);
      assert FirstIndex(plan.nodes, plan.nodes[i].id) == i;
      forall d | d in NodeDeps(plan.nodes[i])
        ensures d in rank && rank[d] < i
      {
        PositionsDescend(plan, aliases, i, d);
      }
    }
    assert QuotientRank(plan, aliases, rank);
    ContractedAcyclic(plan, aliases);
  }

  lemma ContractedNodeValid(plan: Plan, aliases: Aliases, rank: map<NodeId, nat>, i: nat)
    requires WellFormedPlan(plan) && Deduped(plan, aliases)
    requires RankOk(DependenciesOf(Contracted(plan, aliases)), rank)
    requires i < |Contracted(plan, aliases).nodes|
    ensures ValidNode(Contracted(plan, aliases), Contracted(plan, aliases).nodes[i])
  {
    hide Deduped, NodeDeps, CollectRefs, WellFormedPlan, Contracted, RewriteNode, NodeOf, DistinctIds;
    DistinctNodes(plan);
    ContractedIds(plan, aliases);
    AliasTargetsValid(plan, aliases);
    var plan' := Contracted(plan, aliases);
    NodeAt(plan'.nodes, i);
    ContractedNode(plan, aliases, i);
    var node :| Survives(plan, aliases, node, plan'.nodes[i]);
    SurvivorValid(plan, aliases, node, plan'.nodes[i]);
    var deps := DependenciesOf(plan');
    assert deps[plan'.nodes[i].id] == NodeDeps(plan'.nodes[i]);
    forall d | d in NodeDeps(plan'.nodes[i])
      ensures d in Ids(plan'.nodes) && d != plan'.nodes[i].id
    {
      assert d in deps && rank[d] < rank[plan'.nodes[i].id];
    }
  }

  lemma SurvivorValid(plan: Plan, aliases: Aliases, node: Node, node': Node)
    requires WellFormedPlan(plan) && ValidTargets(aliases) && Survives(plan, aliases, node, node')
    ensures ValidNodeId(node'.id) && node'.tool in plan.tools && CollectRefs(node'.input).Ok?
  {
    hide NodeDeps, CollectRefs, RewriteNode;
    RewrittenId(node, aliases);
    NodeOfMember(plan.nodes, node);
    ValidAt(plan, node.id);
    DepsRewritten(node, aliases);
  }

  lemma ContractedCoherent(plan: Plan, aliases: Aliases)
    requires WellFormedPlan(plan) && Deduped(plan, aliases)
    ensures Contracted(plan, aliases).version == CURRENT_VERSION && CoherentTools(Contracted(plan, aliases))
    ensures forall name | name in Contracted(plan, aliases).outputs ::
      Contracted(plan, aliases).outputs[name].node in Survivors(plan, aliases)
  {
    hide Deduped, ValidNode, RewriteNodes, KeepNodes;
    AliasesInPlan(plan, aliases);
    ContractedIds(plan, aliases);
  }

  /** Deduplication turns a well-formed plan into a valid one exactly when the
      contracted graph has no cycle. */
  lemma ContractedValid(plan: Plan, aliases: Aliases)
    requires WellFormedPlan(plan) && Deduped(plan, aliases)
    ensures ValidPlan(Contracted(plan, aliases)) <==> exists rank :: QuotientRank(plan, aliases, rank)
  {
    hide Deduped, WellFormedPlan, ValidNode, QuotientRank, Contracted, RankOk, CoherentTools, DistinctIds;
    ContractedAcyclic(plan, aliases);
    if rank :| RankOk(DependenciesOf(Contracted(plan, aliases)), rank) {
      DistinctNodes(plan);
      ContractedIds(plan, aliases);
      ContractedCoherent(plan, aliases);
      forall i | 0 <= i < |Contracted(plan, aliases).nodes|
        ensures ValidNode(Contracted(plan, aliases), Contracted(plan, aliases).nodes[i])
      {
        ContractedNodeValid(plan, aliases, rank, i);
      }
      WellFormedFrom(Contracted(plan, aliases));
    }
  }

  lemma WellFormedFrom(plan: Plan)
    requires plan.version == CURRENT_VERSION && DistinctIds(plan.nodes) && CoherentTools(plan)
    requires forall i | 0 <= i < |plan.nodes| :: ValidNode(plan, plan.nodes[i])
    requires forall name | name in plan.outputs :: plan.outputs[name].node in Ids(plan.nodes)
    ensures WellFormedPlan(plan)
  {
  }

  const PureEffects := Effects(true, {}, {}, true, false, true)

  /** A valid plan that lists a pure node before the duplicate it waits for. */
  const OutOfOrder := Plan(CURRENT_VERSION, map["t" := ToolSpec("x", Some(PureEffects), None, None, None, None)],
    [Node("a", "t", Null, ["b"], None, None), Node("b", "t", Null, [], None, None)], map[])

  /** Merging ignores explicit edges, so a list out of dependency order can turn
      a valid plan into one that refers to itself. */
  lemma OutOfOrderBreaks(aliases: Aliases)
    requires Deduped(OutOfOrder, aliases)
    ensures ValidPlan(OutOfOrder) && !ValidPlan(Contracted(OutOfOrder, aliases))
  {
    hide ValidPlan, WellFormedPlan, Deduped, QuotientRank, Contracted, ValidNode;
    OutOfOrderValid();
    OutOfOrderAliases(aliases);
    forall rank
      ensures !QuotientRank(OutOfOrder, aliases, rank)
    {
      OutOfOrderUnranked(aliases, rank);
    }
    PlanIsWellFormed(OutOfOrder);
    ContractedValid(OutOfOrder, aliases);
  }

  lemma PlanIsWellFormed(plan: Plan)
    requires ValidPlan(plan)
    ensures WellFormedPlan(plan)
  {
  }

  lemma OutOfOrderDeps()
    ensures NodeDeps(OutOfOrder.nodes[0]) == {"b"} && NodeDeps(OutOfOrder.nodes[1]) == {}
    ensures Ids(OutOfOrder.nodes) == {"a", "b"} && DistinctIds(OutOfOrder.nodes)
  {
    var nodes := OutOfOrder.nodes;
    assert nodes[0].id == "a" && nodes[1].id == "b";
    assert CollectRefs(Null) == Ok([]) && RefNodes([]) == {};
  }

  lemma OutOfOrderValid()
    ensures ValidPlan(OutOfOrder)
  {
    hide NodeDeps;
    var plan := OutOfOrder;
    OutOfOrderDeps();
    assert ValidNode(plan, plan.nodes[0]) && ValidNode(plan, plan.nodes[1]);
    NodeAt(plan.nodes, 0);
    NodeAt(plan.nodes, 1);
    assert RankOk(DependenciesOf(plan), map["a" := 1, "b" := 0]);
  }

  lemma OutOfOrderUnranked(aliases: Aliases, rank: map<NodeId, nat>)
    requires aliases == map["b" := "a"]
    ensures !QuotientRank(OutOfOrder, aliases, rank)
  {
    hide NodeDeps;
    OutOfOrderDeps();
    var plan := OutOfOrder;
    assert "b" in NodeDeps(plan.nodes[0]) && plan.nodes[0].id !in aliases;
    assert Below(plan.nodes[0], rank) ==> "b" in rank && "a" in rank && rank["b"] < rank["a"];
  }

  lemma OutOfOrderAliases(aliases: Aliases)
    requires Deduped(OutOfOrder, aliases)
    ensures aliases == map["b" := "a"]
  {
    var plan := OutOfOrder;
    assert DedupKey(plan, plan.nodes[0]) == DedupKey(plan, plan.nodes[1]) && DedupKey(plan, plan.nodes[0]).Some?;
    FirstNotAliased(plan, aliases);
    if plan.nodes[1].id in aliases {
      assert Merged(plan, aliases, 1);
    }
    assert Ids(plan.nodes) == {"a", "b"};
  }

  lemma FirstNotAliased(plan: Plan, aliases: Aliases)
    requires Deduped(plan, aliases) && plan.nodes != []
    ensures plan.nodes[0].id !in aliases
  {
    hide DedupKey;
  }

  // --------------------------------------------------- dead-node elimination

  /** Declared outputs and every node that is not pure. */
  function Roots(plan: Plan, graph: Graph): set<NodeId> {
    (set name | name in plan.outputs && plan.outputs[name].node in graph.dependencies :: plan.outputs[name].node)
    + (set n | n in graph.effects && !graph.effects[n].pure)
  }

  ghost predicate Bounded(deps: Dependencies, roots: set<NodeId>, nodes: set<NodeId>) {
    forall s: set<NodeId> :: roots <= s && Closed(deps, s) ==> nodes <= s
  }

  /** The least dependency-closed set with the roots. */
  ghost predicate Live(deps: Dependencies, roots: set<NodeId>, kept: set<NodeId>) {
    roots <= kept && Closed(deps, kept) && Bounded(deps, roots, kept)
  }

  ghost predicate Marking(deps: Dependencies, roots: set<NodeId>, kept: set<NodeId>, stack: set<NodeId>) {
    && roots <= kept + stack
    && (forall n | n in kept && n in deps :: deps[n] <= kept + stack)
    && Bounded(deps, roots, kept + stack)
  }

  lemma MarkStep(deps: Dependencies, roots: set<NodeId>, kept: set<NodeId>, stack: set<NodeId>, rest: set<NodeId>,
      n: NodeId)
    requires Marking(deps, roots, kept, stack) && stack == rest + {n}
    ensures n in kept ==> Marking(deps, roots, kept, rest)
    ensures n !in kept ==> Marking(deps, roots, kept + {n}, rest + if n in deps then deps[n] else {})
  {
    if n in kept {
      assert kept + rest == kept + stack;
    } else {
      var more := if n in deps then deps[n] else {};
      forall s: set<NodeId> | roots <= s && Closed(deps, s)
        ensures kept + {n} + (rest + more) <= s
      {
        assert kept + stack <= s && n in s;
      }
    }
  }

  /** The walk from the roots: pops a node, marks it, pushes what it depends on. */
  method MarkLive(deps: Dependencies, roots: set<NodeId>) returns (kept: set<NodeId>)
    requires roots <= deps.Keys && forall n | n in deps :: deps[n] <= deps.Keys
    ensures Live(deps, roots, kept) && kept <= deps.Keys
  {
    hide Marking, Increasing, Listing;
    var stack := Sorted(roots);
    kept := {};
    ListingWhole(stack, roots);
    MarkStart(deps, roots);
    while stack != []
      invariant kept <= deps.Keys && Listing(stack) <= deps.Keys
      invariant Marking(deps, roots, kept, Listing(stack))
      decreases deps.Keys - kept, |stack|
    {
      var n, rest := stack[|stack| - 1], stack[..|stack| - 1];
      ListingPop(stack);
      MarkStep(deps, roots, kept, Listing(stack), Listing(rest), n);
      stack := rest;
      if n !in kept {
        kept := kept + {n};
        if n in deps {
          var more := Sorted(deps[n]);
          ListingWhole(more, deps[n]);
          ListingConcat(stack, more);
          stack := stack + more;
        }
      }
    }
    MarkEnd(deps, roots, kept);
  }

  lemma ListingPop(ids: seq<NodeId>)
    requires ids != []
    ensures Listing(ids) == Listing(ids[..|ids| - 1]) + {ids[|ids| - 1]}
  {
    assert ids == ids[..|ids| - 1] + [ids[|ids| - 1]];
  }

  lemma ListingConcat(a: seq<NodeId>, b: seq<NodeId>)
    ensures Listing(a + b) == Listing(a) + Listing(b)
  {
  }

  lemma MarkStart(deps: Dependencies, roots: set<NodeId>)
    ensures Marking(deps, roots, {}, roots)
  {
    assert {} + roots == roots;
  }

  lemma MarkEnd(deps: Dependencies, roots: set<NodeId>, kept: set<NodeId>)
    requires Marking(deps, roots, kept, Listing([]))
    ensures Live(deps, roots, kept)
  {
    assert kept + Listing([]) == kept;
  }

  function IdsOutside(nodes: seq<Node>, kept: set<NodeId>): seq<NodeId> {
    if nodes == [] then []
    else
      var init, id := IdsOutside(nodes[..|nodes| - 1], kept), nodes[|nodes| - 1].id;
      if id in kept then init else init + [id]
  }

  ghost predicate Eliminated(plan: Plan, graph: Graph, kept: set<NodeId>) {
    if plan.outputs == map[] then kept == Ids(plan.nodes) else Live(graph.dependencies, Roots(plan, graph), kept)
  }

  /** Drops the pure nodes nothing live depends on. */
  method EliminateDeadNodes(plan: Plan, graph: Graph) returns (result: Plan, eliminated: seq<NodeId>)
    requires graph.effects.Keys <= graph.dependencies.Keys == Ids(plan.nodes)
    requires forall n | n in graph.dependencies :: graph.dependencies[n] <= graph.dependencies.Keys
    ensures Eliminated(plan, graph, Ids(result.nodes))
    ensures result == Prune(plan, Ids(result.nodes)) && eliminated == IdsOutside(plan.nodes, Ids(result.nodes))
  {
    hide Live, KeepNodes, Ids, Roots;
    if plan.outputs == map[] {
      EveryNode(plan);
      return plan, [];
    }
    RootsKnown(plan, graph);
    var live := MarkLive(graph.dependencies, Roots(plan, graph));
    eliminated := [];
    for i := 0 to |plan.nodes|
      invariant eliminated == IdsOutside(plan.nodes[..i], live)
    {
      assert plan.nodes[..i + 1][..i] == plan.nodes[..i];
      if plan.nodes[i].id !in live {
        eliminated := eliminated + [plan.nodes[i].id];
      }
    }
    assert plan.nodes[..|plan.nodes|] == plan.nodes;
    KeepIds(plan.nodes, live);
    assert Ids(plan.nodes) * live == live;
    result := plan;
    if eliminated != [] {
      result := plan.(nodes := KeepNodes(plan.nodes, live));
    } else {
      NothingOutside(plan.nodes, live);
    }
  }

  // Which nodes that keeps, stated of the tools, outputs and dependencies alone.

  /** A declared output reads the node, or its tool is not declared to be pure. */
  ghost predicate Demanded(plan: Plan, id: NodeId) {
    id in Ids(plan.nodes)
    && ((exists name :: name in plan.outputs && plan.outputs[name].node == id)
        || !IsPure(plan, NodeOf(plan.nodes, id).tool))
  }

  ghost predicate DemandedThrough(plan: Plan, id: NodeId, path: seq<NodeId>) {
    Chain(DependenciesOf(plan), path) && Demanded(plan, path[0]) && path[|path| - 1] == id
  }

  /** A demanded node depends on it, directly or not, or it is one. */
  ghost predicate Needed(plan: Plan, id: NodeId) {
    exists path :: DemandedThrough(plan, id, path)
  }

  lemma RootsAre(plan: Plan, templates: Templates, graph: Graph)
    requires GraphOf(plan, templates, graph)
    ensures forall id :: id in Roots(plan, graph) <==> Demanded(plan, id)
  {
    hide LayersOk, NodeDeps, NodeOf, Layering;
    forall id
      ensures id in graph.effects ==> (graph.effects[id].pure <==> IsPure(plan, NodeOf(plan.nodes, id).tool))
    {
      if id in graph.effects {
        var node := NodeOf(plan.nodes, id);
        assert graph.effects[id] == EffectsFor(node, EffectsOf(plan, node.tool), templates);
      }
    }
    hide IsPure, EffectsFor;
  }

  lemma {:induction false} NeededIsKept(plan: Plan, kept: set<NodeId>, path: seq<NodeId>)
    requires Chain(DependenciesOf(plan), path) && Closed(DependenciesOf(plan), kept) && path[0] in kept
    ensures path[|path| - 1] in kept
  {
    hide NodeDeps;
    if |path| > 1 {
      NeededIsKept(plan, kept, path[..|path| - 1]);
    }
  }

  lemma NeededCloses(plan: Plan, id: NodeId, d: NodeId)
    requires Needed(plan, id) && id in DependenciesOf(plan) && d in DependenciesOf(plan)[id]
    ensures Needed(plan, d)
  {
    hide NodeDeps, Demanded;
    var path :| DemandedThrough(plan, id, path);
    assert DemandedThrough(plan, d, path + [d]);
  }

  lemma LiveIsNeeded(plan: Plan, roots: set<NodeId>, kept: set<NodeId>)
    requires Live(DependenciesOf(plan), roots, kept) && forall id :: id in roots <==> Demanded(plan, id)
    ensures forall id :: id in kept <==> Needed(plan, id)
  {
    hide DependenciesOf, Demanded, Closed, Bounded;
    var deps := DependenciesOf(plan);
    forall id | Needed(plan, id)
      ensures id in kept
    {
      var path :| DemandedThrough(plan, id, path);
      NeededIsKept(plan, kept, path);
    }
    var needed := set id | id in kept && Needed(plan, id);
    RootsNeeded(plan, roots, kept, needed);
    NeededClosed(plan, kept, needed);
    LeastWithin(deps, roots, kept, needed);
    assert forall id | id in kept :: id in needed;
  }

  lemma RootsNeeded(plan: Plan, roots: set<NodeId>, kept: set<NodeId>, needed: set<NodeId>)
    requires roots <= kept && (forall id :: id in roots <==> Demanded(plan, id))
    requires forall id :: id in needed <==> id in kept && Needed(plan, id)
    ensures roots <= needed
  {
    hide DependenciesOf, Demanded;
    forall id | id in roots
      ensures id in needed
    {
      assert DemandedThrough(plan, id, [id]);
    }
  }

  lemma NeededClosed(plan: Plan, kept: set<NodeId>, needed: set<NodeId>)
    requires Closed(DependenciesOf(plan), kept)
    requires forall id :: id in needed <==> id in kept && Needed(plan, id)
    ensures Closed(DependenciesOf(plan), needed)
  {
    hide DependenciesOf, Needed;
    forall id, d | id in needed && id in DependenciesOf(plan) && d in DependenciesOf(plan)[id]
      ensures d in needed
    {
      NeededCloses(plan, id, d);
    }
  }

  lemma LeastWithin(deps: Dependencies, roots: set<NodeId>, kept: set<NodeId>, s: set<NodeId>)
    requires Bounded(deps, roots, kept) && roots <= s && Closed(deps, s)
    ensures kept <= s
  {
  }

  /** With declared outputs, exactly the needed nodes are kept. */
  lemma KeptAreNeeded(plan: Plan, templates: Templates, graph: Graph, kept: set<NodeId>)
    requires GraphOf(plan, templates, graph) && Eliminated(plan, graph, kept) && plan.outputs != map[]
    ensures forall id :: id in kept <==> Needed(plan, id)
  {
    RootsAre(plan, templates, graph);
    hide Roots, DependenciesOf, Demanded, Layering, EffectsOfNodes, Live;
    LiveIsNeeded(plan, Roots(plan, graph), kept);
  }

  /** The plan and its graph alone decide which nodes are kept. */
  lemma EliminatedUnique(plan: Plan, graph: Graph, a: set<NodeId>, b: set<NodeId>)
    requires Eliminated(plan, graph, a) && Eliminated(plan, graph, b)
    ensures a == b
  {
    hide Roots;
  }

  lemma RootsKnown(plan: Plan, graph: Graph)
    requires graph.effects.Keys <= graph.dependencies.Keys
    ensures Roots(plan, graph) <= graph.dependencies.Keys
  {
  }

  lemma {:induction false} NothingOutside(nodes: seq<Node>, kept: set<NodeId>)
    requires IdsOutside(nodes, kept) == []
    ensures KeepNodes(nodes, kept) == nodes
  {
    if nodes != [] {
      NothingOutside(nodes[..|nodes| - 1], kept);
      assert nodes == nodes[..|nodes| - 1] + [nodes[|nodes| - 1]];
    }
  }

  lemma {:induction false} NoneOutside(nodes: seq<Node>, kept: set<NodeId>)
    requires forall i | 0 <= i < |nodes| :: nodes[i].id in kept
    ensures IdsOutside(nodes, kept) == []
  {
    if nodes != [] {
      NoneOutside(nodes[..|nodes| - 1], kept);
    }
  }

  lemma EveryNode(plan: Plan)
    ensures Prune(plan, Ids(plan.nodes)) == plan && IdsOutside(plan.nodes, Ids(plan.nodes)) == []
  {
    KeepEvery(plan.nodes, Ids(plan.nodes));
    NoneOutside(plan.nodes, Ids(plan.nodes));
  }

  lemma KeptIsClosed(plan: Plan, templates: Templates, graph: Graph, kept: set<NodeId>)
    requires ValidPlan(plan) && GraphOf(plan, templates, graph) && Eliminated(plan, graph, kept)
    ensures Closed(DependenciesOf(plan), kept)
    ensures OutputsWithin(plan, kept)
  {
    hide Acyclic, NodeDeps, ValidNode, LayersOk, EffectsFor, Live, Roots;
    if plan.outputs == map[] {
      EveryNodeClosed(plan);
    } else {
      assert graph.dependencies == DependenciesOf(plan);
      LiveOutputs(plan, graph, kept);
    }
  }

  ghost predicate OutputsWithin(plan: Plan, kept: set<NodeId>) {
    forall name | name in plan.outputs :: plan.outputs[name].node in kept
  }

  lemma EveryNodeClosed(plan: Plan)
    requires Acyclic(DependenciesOf(plan))
    ensures Closed(DependenciesOf(plan), Ids(plan.nodes))
  {
    hide NodeDeps;
    var rank :| RankOk(DependenciesOf(plan), rank);
    forall n | n in DependenciesOf(plan)
      ensures DependenciesOf(plan)[n] <= Ids(plan.nodes)
    {
      assert forall d | d in DependenciesOf(plan)[n] :: d in DependenciesOf(plan);
    }
  }

  lemma LiveOutputs(plan: Plan, graph: Graph, kept: set<NodeId>)
    requires Live(graph.dependencies, Roots(plan, graph), kept)
    requires forall name | name in plan.outputs :: plan.outputs[name].node in graph.dependencies
    ensures Closed(graph.dependencies, kept) && OutputsWithin(plan, kept)
  {
    hide Closed, Bounded;
    forall name | name in plan.outputs
      ensures plan.outputs[name].node in kept
    {
      assert plan.outputs[name].node in Roots(plan, graph);
    }
  }

  /** Elimination preserves meaning: the kept nodes keep their outcomes, every
      declared output its value, and the plan stays valid. */
  lemma EliminationKeepsMeaning(host: Host, plan: Plan, templates: Templates, graph: Graph, kept: set<NodeId>,
      a: Assignment)
    requires ValidPlan(plan) && GraphOf(plan, templates, graph) && Eliminated(plan, graph, kept)
      && Meaning(host, plan, a)
    ensures ValidPlan(Prune(plan, kept))
    ensures Meaning(host, Prune(plan, kept), Restrict(a, kept))
    ensures Visible(Prune(plan, kept), Restrict(a, kept)) == Visible(plan, a)
  {
    hide WellFormedPlan, Acyclic, GraphOf, Eliminated, Meaning, Visible;
    KeptIsClosed(plan, templates, graph, kept);
    PruneValid(plan, kept);
    PruneKeepsMeaning(host, plan, kept, a);
    PruneKeepsVisible(plan, kept, a);
  }
}
