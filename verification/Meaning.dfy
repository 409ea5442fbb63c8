/** What a plan means, node by node: each node's outcome from the outcomes of
    what it refers to, with no units, batches or scheduling. */
module Meanings {
  import opened Json
  import opened Refs
  import opened Plans
  import opened Resolve
  import opened Calls
  import opened Semantics
  import opened Layers
  import opened Graphs

  /** The outcome of running one node alone. */
  ghost function SoloOutcome(host: Host, tools: map<ToolName, ToolSpec>, node: Node, a: Assignment): Outcome {
    match PrepareMember(host, tools, node, OutputsOf(a), DeadOf(a))
    case Settled(outcome) => outcome
    case Ready(member) => ResultOutcome(SingleResult(host.exec, node.tool, member))
  }

  ghost predicate Means(host: Host, tools: map<ToolName, ToolSpec>, node: Node, a: Assignment) {
    node.id in a && a[node.id] == SoloOutcome(host, tools, node, a)
  }

  /** `a` gives every node of the plan the outcome it would have on its own. */
  ghost predicate Meaning(host: Host, plan: Plan, a: Assignment) {
    && a.Keys == Ids(plan.nodes)
    && forall i | 0 <= i < |plan.nodes| :: Means(host, plan.tools, plan.nodes[i], a)
  }

  /** What a caller sees of an outcome: the declared outputs that resolve. */
  function Visible(plan: Plan, a: Assignment): map<string, Json> {
    Resolved(plan.outputs, OutputsOf(a))
  }

  // ------------------------------------------------------------- uniqueness

  lemma SoloFootprint(host: Host, tools: map<ToolName, ToolSpec>, node: Node, a: Assignment, b: Assignment)
    requires CollectRefs(node.input).Ok? && SameOn(DataDeps(node), a, b)
    ensures SoloOutcome(host, tools, node, a) == SoloOutcome(host, tools, node, b)
  {
    PrepareFootprint(host, tools, node, a, b);
  }

  lemma {:induction false} MeaningAgrees(host: Host, plan: Plan, a: Assignment, b: Assignment, rank: map<NodeId, nat>,
      id: NodeId)
    requires WellFormedPlan(plan) && RankOk(DependenciesOf(plan), rank) && Meaning(host, plan, a)
      && Meaning(host, plan, b)
    requires id in Ids(plan.nodes)
    ensures id in a && id in b && a[id] == b[id]
    decreases rank[id]
  {
    hide SoloOutcome, CollectRefs, WellFormedPlan;
    var node := NodeOf(plan.nodes, id);
    MeansOf(host, plan, a, id);
    MeansOf(host, plan, b, id);
    ValidAt(plan, id);
    forall d | d in DataDeps(node)
      ensures d in a && d in b && a[d] == b[d]
    {
      assert d in DependenciesOf(plan)[id];
      MeaningAgrees(host, plan, a, b, rank, d);
    }
    SoloFootprint(host, plan.tools, node, a, b);
  }

  lemma MeansOf(host: Host, plan: Plan, a: Assignment, id: NodeId)
    requires Meaning(host, plan, a) && id in Ids(plan.nodes)
    ensures Means(host, plan.tools, NodeOf(plan.nodes, id), a)
  {
    hide Means;
    var i :| 0 <= i < |plan.nodes| && plan.nodes[i] == NodeOf(plan.nodes, id);
  }

  /** A valid plan has at most one meaning. */
  lemma MeaningUnique(host: Host, plan: Plan, a: Assignment, b: Assignment)
    requires ValidPlan(plan) && Meaning(host, plan, a) && Meaning(host, plan, b)
    ensures a == b
  {
    hide WellFormedPlan, RankOk, Means;
    var rank :| RankOk(DependenciesOf(plan), rank);
    forall id | id in Ids(plan.nodes)
      ensures id in a && id in b && a[id] == b[id]
    {
      MeaningAgrees(host, plan, a, b, rank, id);
    }
  }

  // ----------------------------------------------------------------- pruning

  /** What is kept keeps its outcome when nothing it refers to is removed. */
  lemma PruneKeepsMeaning(host: Host, plan: Plan, kept: set<NodeId>, a: Assignment)
    requires WellFormedPlan(plan) && Closed(DependenciesOf(plan), kept) && Meaning(host, plan, a)
    ensures Meaning(host, Prune(plan, kept), Restrict(a, kept))
  {
    hide SoloOutcome, CollectRefs, WellFormedPlan;
    KeepIds(plan.nodes, kept);
    KeepMembers(plan.nodes, kept);
    var after, b := KeepNodes(plan.nodes, kept), Restrict(a, kept);
    hide KeepNodes;
    forall i | 0 <= i < |after|
      ensures Means(host, plan.tools, after[i], b)
    {
      var node := after[i];
      assert node in plan.nodes && node.id in kept;
      DistinctNodes(plan);
      NodeOfMember(plan.nodes, node);
      MeansOf(host, plan, a, node.id);
      ValidAt(plan, node.id);
      assert NodeDeps(node) <= kept && NodeDeps(node) <= Ids(plan.nodes);
      SoloFootprint(host, plan.tools, node, a, b);
    }
  }

  lemma DistinctNodes(plan: Plan)
    requires WellFormedPlan(plan)
    ensures DistinctIds(plan.nodes)
  {
  }

  /** The declared outputs do not notice, as long as their nodes are kept. */
  lemma PruneKeepsVisible(plan: Plan, kept: set<NodeId>, a: Assignment)
    requires forall name | name in plan.outputs :: plan.outputs[name].node in kept
    ensures Visible(Prune(plan, kept), Restrict(a, kept)) == Visible(plan, a)
  {
    hide Walk;
    var before, after := OutputsOf(a), OutputsOf(Restrict(a, kept));
    forall name | name in plan.outputs
      ensures ResolveRef(plan.outputs[name], after) == ResolveRef(plan.outputs[name], before)
    {
      var n := plan.outputs[name].node;
      assert n in after <==> n in before;
    }
  }
}
