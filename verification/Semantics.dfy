/** What a run of a plan means: an assignment of outcomes to nodes in which
    every node's outcome follows from the outcomes of what it refers to.

    An assignment is `Consistent` when each outcome is the one its unit would
    produce, or records that the engine stopped before the unit could run.
    `Unique` shows that consistency leaves no choice: any two consistent
    assignments that agree on what was stopped are equal. */
module Semantics {
  import opened Wrappers
  import opened Json
  import opened Refs
  import opened Plans
  import opened Resolve
  import opened Calls
  import opened Locks

  datatype SkipReason = Condition | FailedDependency | Cancelled | NotRun

  datatype Outcome = Done(value: Json) | Failed(error: ToolError) | Skipped(reason: SkipReason)

  type Assignment = map<NodeId, Outcome>

  /** What a node can observe besides its plan: the adapters, the tools the
      registry blocks, and the input schemas as a predicate. */
  datatype Host = Host(exec: Executor, blocked: set<ToolName>, accepts: (ToolName, Json) -> bool)

  /** One schedulable unit: a node, or an optimizer batch group. */
  datatype Unit = Unit(members: seq<NodeId>, tool: ToolName, batch: bool, lock: LockRequest, cost: nat)

  /** What an engine executes. */
  datatype Program = Program(
    host: Host,
    tools: map<ToolName, ToolSpec>,
    nodes: map<NodeId, Node>,
    units: seq<Unit>,
    unitOf: map<NodeId, nat>)

  // ------------------------------------------------------ data dependencies

  function InputNodes(input: Json): set<NodeId> {
    var refs := CollectRefs(input);
    if refs.Ok? then RefNodes(refs.value) else {}
  }

  /** The references whose failure poisons the node. */
  function DataDeps(node: Node): set<NodeId> {
    InputNodes(node.input)
    + (if node.forEach.Some? then {node.forEach.value.node} else {})
    + (if node.condition.Some? then {node.condition.value.target.node} else {})
  }

  // ------------------------------------------------------------ preparation

  datatype Prepared = Settled(outcome: Outcome) | Ready(member: PreparedMember)

  function ResolutionError(error: ResolveError): ToolError {
    match error
    case MissingNodeOutput => Coded("missing_node_output")
    case MissingPath => Coded("missing_path")
    case InvalidRef => Coded("invalid_ref")
  }

  function EvaluateWhen(condition: When, outputs: Outputs): Result<bool, ToolError> {
    var value := ResolveRef(condition.target, outputs);
    if value.Err? then Err(ResolutionError(value.error))
    else
      var verdict := if condition.equals.Some? then value.value == condition.equals.value
                     else value.value != Null && value.value != Bool(false);
      Ok(verdict != condition.negated)
  }

  function ResolveItemList(source: Option<ValueRef>, outputs: Outputs): Result<Option<seq<Json>>, ToolError> {
    if source.None? then Ok(None)
    else
      var resolved := ResolveRef(source.value, outputs);
      if resolved.Err? then Err(ResolutionError(resolved.error))
      else if !resolved.value.Arr? then Err(Coded("invalid_for_each"))
      else Ok(Some(resolved.value.items))
  }

  function PrepareOne(host: Host, tools: map<ToolName, ToolSpec>, node: Node, outputs: Outputs): Result<PreparedMember,
        ToolError> {
    var input := ResolveInput(node.input, outputs);
    if input.Err? then Err(ResolutionError(input.error))
    else
      var items :- ResolveItemList(node.forEach, outputs);
      if items.None? && !host.accepts(node.tool, input.value) then Err(Coded("invalid_input"))
      else
        var batchable := node.tool in tools && tools[node.tool].effects.Some?
          && tools[node.tool].effects.value.batchable;
        var batchSize := if node.tool in tools then tools[node.tool].batchSize else None;
        Ok(PreparedMember(node.id, input.value, items, batchable, batchSize))
  }

  /** Gates and resolves one member: dead dependencies, condition, blocked tool,
      then inputs. */
  function PrepareMember(host: Host, tools: map<ToolName, ToolSpec>, node: Node, outputs: Outputs,
      dead: set<NodeId>): Prepared {
    if DataDeps(node) * dead != {} then Settled(Skipped(FailedDependency))
    else
      var verdict := if node.condition.Some? then EvaluateWhen(node.condition.value, outputs) else Ok(true);
      if verdict.Err? then Settled(Failed(verdict.error))
      else if !verdict.value then Settled(Skipped(Condition))
      else if node.tool in host.blocked then Settled(Failed(Coded("blocked_tool")))
      else
        var member := PrepareOne(host, tools, node, outputs);
        if member.Ok? then Ready(member.value) else Settled(Failed(member.error))
  }

  // ------------------------------------------------------------- footprints

  function OutputsOf(a: Assignment): Outputs {
    map n | n in a && a[n].Done? :: a[n].value
  }

  function DeadOf(a: Assignment): set<NodeId> {
    set n | n in a && !a[n].Done?
  }

  ghost predicate SameOn(nodes: set<NodeId>, a: Assignment, b: Assignment) {
    forall n | n in nodes :: (n in a <==> n in b) && (n in a ==> a[n] == b[n])
  }

  lemma SameOnAgrees(nodes: set<NodeId>, a: Assignment, b: Assignment)
    requires SameOn(nodes, a, b)
    ensures Agree(nodes, OutputsOf(a), OutputsOf(b))
    ensures nodes * DeadOf(a) == nodes * DeadOf(b)
  {
  }

  /** A node is prepared from the outcomes of its data dependencies alone. */
  lemma PrepareFootprint(host: Host, tools: map<ToolName, ToolSpec>, node: Node, a: Assignment, b: Assignment)
    requires CollectRefs(node.input).Ok? && SameOn(DataDeps(node), a, b)
    ensures PrepareMember(host, tools, node, OutputsOf(a), DeadOf(a)) ==
      PrepareMember(host, tools, node, OutputsOf(b), DeadOf(b))
  {
    SameOnAgrees(DataDeps(node), a, b);
    hide ResolveInput, DataDeps;
    assert InputNodes(node.input) <= DataDeps(node) by {
      InputAmongDeps(node);
    }
    ResolveFootprint(node.input, OutputsOf(a), OutputsOf(b));
    SourcesAmongDeps(node);
  }

  lemma InputAmongDeps(node: Node)
    ensures InputNodes(node.input) <= DataDeps(node)
  {
  }

  lemma SourcesAmongDeps(node: Node)
    ensures node.forEach.Some? ==> node.forEach.value.node in DataDeps(node)
    ensures node.condition.Some? ==> node.condition.value.target.node in DataDeps(node)
  {
  }

  // ---------------------------------------------------------- unit outcomes

  ghost predicate ProgramOk(p: Program) {
    && p.unitOf.Keys == p.nodes.Keys
    && (forall n | n in p.nodes :: p.nodes[n].id == n && CollectRefs(p.nodes[n].input).Ok?)
    && (forall n | n in p.nodes :: p.unitOf[n] < |p.units| && n in p.units[p.unitOf[n]].members)
    && (forall u, n | 0 <= u < |p.units| && n in p.units[u].members :: n in p.nodes && p.unitOf[n] == u)
    && (forall u | 0 <= u < |p.units| :: UnitOk(p, p.units[u]))
  }

  /** Members are distinct, and a unit that is no batch has one. */
  ghost predicate UnitOk(p: Program, unit: Unit) {
    && (forall i, j | 0 <= i < j < |unit.members| :: unit.members[i] != unit.members[j])
    && (!unit.batch ==> |unit.members| == 1)
    && (forall n | n in unit.members :: n in p.nodes && p.nodes[n].tool == unit.tool
         && (unit.batch ==> p.nodes[n].forEach.None?))
  }

  function Prepare(p: Program, n: NodeId, a: Assignment): Prepared
    requires n in p.nodes
  {
    PrepareMember(p.host, p.tools, p.nodes[n], OutputsOf(a), DeadOf(a))
  }

  /** The members that reach dispatch, in order. */
  function PreparedMembers(p: Program, members: seq<NodeId>, a: Assignment): seq<PreparedMember>
    requires forall n | n in members :: n in p.nodes
  {
    if members == [] then []
    else
      var n := members[|members| - 1];
      var init := PreparedMembers(p, members[..|members| - 1], a);
      var prepared := Prepare(p, n, a);
      if prepared.Ready? then init + [prepared.member] else init
  }

  function ResultOutcome(result: CallResult): Outcome {
    if result.Ok? then Done(result.value) else Failed(result.error)
  }

  ghost predicate MembersKnown(p: Program, u: nat) {
    u < |p.units| && forall n | n in p.units[u].members :: n in p.nodes
  }

  /** The outcome of member `n` of unit `u`, from the outcomes in `a`. */
  ghost function UnitOutcome(p: Program, u: nat, n: NodeId, a: Assignment): Outcome
    requires MembersKnown(p, u) && n in p.units[u].members
  {
    match Prepare(p, n, a)
    case Settled(outcome) => outcome
    case Ready(member) =>
      var unit := p.units[u];
      ResultOutcome(UnitResult(p.host.exec, unit.tool, unit.batch, PreparedMembers(p, unit.members, a), member))
  }

  ghost predicate DependsOn(p: Program, u: nat, d: NodeId) {
    MembersKnown(p, u) && exists n :: n in p.units[u].members && d in DataDeps(p.nodes[n])
  }

  /** Everything the members of `u` refer to has an outcome. */
  ghost predicate UnitReady(p: Program, u: nat, a: Assignment) {
    forall d | DependsOn(p, u, d) :: d in a
  }

  ghost predicate Stopped(outcome: Outcome) {
    outcome == Skipped(NotRun) || outcome == Skipped(Cancelled)
  }

  /** Everything the node refers to has an output: a stop is all that kept it. */
  ghost predicate Unharmed(p: Program, n: NodeId, a: Assignment)
    requires n in p.nodes
  {
    forall d | d in DataDeps(p.nodes[n]) :: d in a && a[d].Done?
  }

  ghost predicate Explained(p: Program, n: NodeId, a: Assignment)
    requires ProgramOk(p) && n in p.nodes && n in a
  {
    (Stopped(a[n]) && Unharmed(p, n, a)) || (UnitReady(p, p.unitOf[n], a) && a[n] == UnitOutcome(p, p.unitOf[n], n, a))
  }

  ghost predicate Consistent(p: Program, a: Assignment)
    requires ProgramOk(p)
  {
    a.Keys <= p.nodes.Keys && forall n | n in a :: Explained(p, n, a)
  }

  ghost predicate Complete(p: Program, a: Assignment)
    requires ProgramOk(p)
  {
    a.Keys == p.nodes.Keys && Consistent(p, a)
  }

  ghost predicate NothingStopped(a: Assignment) {
    forall n | n in a :: !Stopped(a[n])
  }

  // -------------------------------------------------------------- stability

  ghost predicate SameForUnit(p: Program, u: nat, a: Assignment, b: Assignment) {
    forall d | DependsOn(p, u, d) :: (d in a <==> d in b) && (d in a ==> a[d] == b[d])
  }

  lemma PrepareStable(p: Program, u: nat, n: NodeId, a: Assignment, b: Assignment)
    requires ProgramOk(p) && u < |p.units| && n in p.units[u].members
    requires SameForUnit(p, u, a, b)
    ensures Prepare(p, n, a) == Prepare(p, n, b)
  {
    forall d | d in DataDeps(p.nodes[n])
      ensures (d in a <==> d in b) && (d in a ==> a[d] == b[d])
    {
      assert DependsOn(p, u, d);
    }
    PrepareFootprint(p.host, p.tools, p.nodes[n], a, b);
  }

  lemma {:induction false} PreparedStable(p: Program, u: nat, members: seq<NodeId>, a: Assignment, b: Assignment)
    requires ProgramOk(p) && u < |p.units| && SameForUnit(p, u, a, b)
    requires forall n | n in members :: n in p.units[u].members
    ensures forall n | n in members :: n in p.nodes
    ensures PreparedMembers(p, members, a) == PreparedMembers(p, members, b)
  {
    hide Prepare, SameForUnit;
    if members != [] {
      PreparedStable(p, u, members[..|members| - 1], a, b);
      PrepareStable(p, u, members[|members| - 1], a, b);
    }
  }

  /** A unit's outcomes depend on what its members refer to, and nothing else. */
  lemma OutcomeStable(p: Program, u: nat, n: NodeId, a: Assignment, b: Assignment)
    requires ProgramOk(p) && u < |p.units| && n in p.units[u].members && SameForUnit(p, u, a, b)
    ensures MembersKnown(p, u)
    ensures UnitOutcome(p, u, n, a) == UnitOutcome(p, u, n, b)
  {
    PrepareStable(p, u, n, a, b);
    PreparedStable(p, u, p.units[u].members, a, b);
  }

  ghost predicate Extends(a: Assignment, b: Assignment) {
    forall n | n in a :: n in b && b[n] == a[n]
  }

  lemma ExtendedSameForUnit(p: Program, u: nat, a: Assignment, b: Assignment)
    requires UnitReady(p, u, a) && Extends(a, b)
    ensures SameForUnit(p, u, a, b) && UnitReady(p, u, b)
  {
  }

  /** An explained outcome stays explained as the assignment grows. */
  lemma ExplainedStays(p: Program, n: NodeId, a: Assignment, b: Assignment)
    requires ProgramOk(p) && n in p.nodes && n in a && Explained(p, n, a) && Extends(a, b)
    ensures Explained(p, n, b)
  {
    if !Stopped(a[n]) {
      ExtendedSameForUnit(p, p.unitOf[n], a, b);
      OutcomeStable(p, p.unitOf[n], n, a, b);
    }
  }

  // ------------------------------------------------------------- uniqueness

  /** Units can be ranked so that references go down. */
  ghost predicate DataRank(p: Program, rank: seq<nat>)
    requires ProgramOk(p)
  {
    && |rank| == |p.units|
    && forall u, d | 0 <= u < |p.units| && DependsOn(p, u, d) :: d in p.nodes && rank[p.unitOf[d]] < rank[u]
  }

  lemma {:induction false} AgreeAt(p: Program, rank: seq<nat>, a: Assignment, b: Assignment, n: NodeId)
    requires ProgramOk(p) && DataRank(p, rank) && Complete(p, a) && Complete(p, b)
    requires forall m | m in p.nodes && (Stopped(a[m]) || Stopped(b[m])) :: a[m] == b[m]
    requires n in p.nodes
    ensures a[n] == b[n]
    decreases rank[p.unitOf[n]]
  {
    hide Prepare, UnitOutcome, DependsOn, Stopped;
    assert Explained(p, n, a) && Explained(p, n, b);
    if !Stopped(a[n]) && !Stopped(b[n]) {
      var u := p.unitOf[n];
      forall d | DependsOn(p, u, d)
        ensures d in p.nodes && a[d] == b[d]
      {
        AgreeAt(p, rank, a, b, d);
      }
      OutcomeStable(p, u, n, a, b);
    }
  }

  /** Consistent assignments that stopped in the same places are equal, whatever
      order, priorities and limits produced them. */
  lemma Unique(p: Program, rank: seq<nat>, a: Assignment, b: Assignment)
    requires ProgramOk(p) && DataRank(p, rank) && Complete(p, a) && Complete(p, b)
    requires forall m | m in p.nodes && (Stopped(a[m]) || Stopped(b[m])) :: a[m] == b[m]
    ensures a == b
  {
    forall n | n in p.nodes
      ensures a[n] == b[n]
    {
      AgreeAt(p, rank, a, b, n);
    }
  }

  // ------------------------------------------------------------- partial runs

  /** Neither skipped because of a stop nor because of something skipped or failed. */
  ghost predicate Reached(outcome: Outcome) {
    outcome.Done? || outcome.Failed? || outcome == Skipped(Condition)
  }

  ghost predicate Unbatched(p: Program) {
    forall u | 0 <= u < |p.units| :: !p.units[u].batch
  }
}
