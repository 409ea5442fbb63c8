/** The plan IR: tools with their effects, nodes, and declared outputs. */
module Plans {
  import opened Wrappers
  import opened Json
  import opened Refs

  type NodeId = string
  type ToolName = string
  type Resource = string

  const CURRENT_VERSION := "0"

  datatype Effects = Effects(
    pure: bool,
    readSet: set<Resource>,
    writeSet: set<Resource>,
    cacheable: bool,
    batchable: bool,
    commutative: bool)
  {
    predicate IsContradictory() {
      pure && writeSet != {}
    }

    predicate DeclaresSideEffects() {
      pure || readSet != {} || writeSet != {}
    }
  }

  datatype Cost = Cost(fixedMs: Option<nat>, perCallMs: Option<nat>, tokens: Option<nat>)

  datatype ToolSpec = ToolSpec(
    adapter: string,
    effects: Option<Effects>,
    batchSize: Option<nat>,
    maxConcurrency: Option<nat>,
    cost: Option<Cost>,
    version: Option<string>)

  datatype When = When(target: ValueRef, equals: Option<Json>, negated: bool)

  datatype Node = Node(
    id: NodeId,
    tool: ToolName,
    input: Json,
    dependsOn: seq<NodeId>,
    forEach: Option<ValueRef>,
    condition: Option<When>)

  datatype Plan = Plan(
    version: string,
    tools: map<ToolName, ToolSpec>,
    nodes: seq<Node>,
    outputs: map<string, ValueRef>)

  function EffectsOf(plan: Plan, tool: ToolName): Option<Effects> {
    if tool in plan.tools then plan.tools[tool].effects else None
  }

  predicate DistinctIds(nodes: seq<Node>) {
    forall i, j | 0 <= i < j < |nodes| :: nodes[i].id != nodes[j].id
  }

  function Ids(nodes: seq<Node>): set<NodeId> {
    set i | 0 <= i < |nodes| :: nodes[i].id
  }

  /** A node's effects after its resource templates were resolved. */
  datatype ResolvedEffects = ResolvedEffects(
    tool: ToolName,
    declared: bool,
    pure: bool,
    readSet: set<Resource>,
    writeSet: set<Resource>,
    commutative: bool)
  {
    predicate CanRunWith(other: ResolvedEffects) {
      if !declared || !other.declared then false
      else if pure && other.pure then true
      else if !(writeSet !! other.readSet) || !(other.writeSet !! readSet) then false
      else if writeSet !! other.writeSet then true
      else tool == other.tool && commutative && other.commutative
    }

    /** What validation enforces of every declaration. */
    predicate Coherent() {
      pure ==> writeSet == {}
    }
  }
}
