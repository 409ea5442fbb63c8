/** When a node runs, stated of what it refers to: dead references, conditions,
    blocked tools, inputs that do not resolve and inputs its tool rejects. */
module Gates {
  import opened Wrappers
  import opened Json
  import opened Refs
  import opened Plans
  import opened Resolve
  import opened Calls
  import opened Semantics
  import opened References
  import opened Meanings
  import Strings

  /** The code under which a failed resolution is reported. */
  ghost function Reported(error: ResolveError): ToolError {
    ToolError(Some(if error.InvalidRef? then "invalid_ref"
                   else "missing_" + if error.MissingPath? then "path" else "node_output"))
  }

  lemma ReportedIs(error: ResolveError)
    ensures ResolutionError(error) == Reported(error)
  {
    assert "missing_" + "path" == "missing_path" && "missing_" + "node_output" == "missing_node_output";
  }

  ghost predicate DeadReference(node: Node, dead: set<NodeId>) {
    exists d :: d in dead && RefersTo(node, d)
  }

  /** What a condition asks of the value its target resolves to. */
  ghost predicate Asks(condition: When, value: Json) {
    var holds := match condition.equals
      case Some(expected) => value == expected
      case None => value != Null && value != Bool(false);
    if condition.negated then !holds else holds
  }

  ghost predicate ConditionMet(node: Node, outputs: Outputs) {
    match node.condition
    case None => true
    case Some(condition) =>
      ResolveRef(condition.target, outputs).Ok? && Asks(condition, ResolveRef(condition.target, outputs).value)
  }

  /** The input resolves; the items resolve to an array, or there are none and
      the tool accepts the input. */
  ghost predicate InputFits(host: Host, node: Node, outputs: Outputs) {
    && ResolveInput(node.input, outputs).Ok?
    && match node.forEach
       case None => host.accepts(node.tool, ResolveInput(node.input, outputs).value)
       case Some(source) => ResolveRef(source, outputs).Ok? && ResolveRef(source, outputs).value.Arr?
  }

  lemma DeadIsMeeting(node: Node, dead: set<NodeId>)
    requires WellReferred(node.input)
    ensures DataDeps(node) * dead != {} <==> DeadReference(node, dead)
  {
    hide DataDeps, RefersTo, WellReferred;
    forall d
      ensures d in DataDeps(node) <==> RefersTo(node, d)
    {
      DataDepsAre(node, d);
    }
    if d :| d in dead && RefersTo(node, d) {
      assert d in DataDeps(node) * dead;
    }
    if DataDeps(node) * dead != {} {
      var d :| d in DataDeps(node) * dead;
    }
  }

  /** A node is ready exactly when nothing it refers to is dead, its condition is
      met, its tool is not blocked and its input fits. */
  lemma ReadyWhen(host: Host, tools: map<ToolName, ToolSpec>, node: Node, outputs: Outputs, dead: set<NodeId>)
    requires WellReferred(node.input)
    ensures PrepareMember(host, tools, node, outputs, dead).Ready? <==>
      && !DeadReference(node, dead) && ConditionMet(node, outputs)
      && node.tool !in host.blocked && InputFits(host, node, outputs)
  {
    hide DataDeps, ResolveInput, ResolveRef, WellReferred, DeadReference;
    DeadIsMeeting(node, dead);
  }

  /** It is skipped for a failed dependency exactly when something it refers to is dead. */
  lemma SkippedForDependency(host: Host, tools: map<ToolName, ToolSpec>, node: Node, outputs: Outputs,
      dead: set<NodeId>)
    requires WellReferred(node.input)
    ensures PrepareMember(host, tools, node, outputs, dead) == Settled(Skipped(FailedDependency)) <==>
      DeadReference(node, dead)
  {
    hide DataDeps, ResolveInput, ResolveRef, WellReferred, DeadReference;
    DeadIsMeeting(node, dead);
  }

  /** With `equals` the node is skipped exactly when the target is something else,
      or, negated, when it is that. */
  lemma SkippedUnlessEqual(host: Host, tools: map<ToolName, ToolSpec>, node: Node, outputs: Outputs, dead: set<NodeId>,
      expected: Json, value: Json)
    requires WellReferred(node.input) && !DeadReference(node, dead)
    requires node.condition.Some? && node.condition.value.equals == Some(expected)
    requires ResolveRef(node.condition.value.target, outputs) == Ok(value)
    ensures !node.condition.value.negated ==>
      (PrepareMember(host, tools, node, outputs, dead) == Settled(Skipped(Condition)) <==> value != expected)
    ensures node.condition.value.negated ==>
      (PrepareMember(host, tools, node, outputs, dead) == Settled(Skipped(Condition)) <==> value == expected)
  {
    hide DataDeps, ResolveInput, ResolveRef, WellReferred, DeadReference;
    DeadIsMeeting(node, dead);
  }

  /** Without it, exactly on null and false, or, negated, on everything else. */
  lemma SkippedUnlessTruthy(host: Host, tools: map<ToolName, ToolSpec>, node: Node, outputs: Outputs, dead: set<NodeId>,
      value: Json)
    requires WellReferred(node.input) && !DeadReference(node, dead)
    requires node.condition.Some? && node.condition.value.equals.None?
    requires ResolveRef(node.condition.value.target, outputs) == Ok(value)
    ensures !node.condition.value.negated ==>
      (PrepareMember(host, tools, node, outputs, dead) == Settled(Skipped(Condition)) <==>
         value == Null || value == Bool(false))
    ensures node.condition.value.negated ==>
      (PrepareMember(host, tools, node, outputs, dead) == Settled(Skipped(Condition)) <==>
         value != Null && value != Bool(false))
  {
    hide DataDeps, ResolveInput, ResolveRef, WellReferred, DeadReference;
    DeadIsMeeting(node, dead);
  }

  /** A condition whose target does not resolve fails its node. */
  lemma UnresolvedConditionFails(host: Host, tools: map<ToolName, ToolSpec>, node: Node, outputs: Outputs,
      dead: set<NodeId>)
    requires WellReferred(node.input) && !DeadReference(node, dead)
    requires node.condition.Some? && ResolveRef(node.condition.value.target, outputs).Err?
    ensures PrepareMember(host, tools, node, outputs, dead) ==
      Settled(Failed(Reported(ResolveRef(node.condition.value.target, outputs).error)))
  {
    hide DataDeps, ResolveInput, ResolveRef, WellReferred, DeadReference;
    ReportedIs(ResolveRef(node.condition.value.target, outputs).error);
    DeadIsMeeting(node, dead);
  }

  /** A node that gets that far and calls a blocked tool fails. */
  lemma BlockedToolFails(host: Host, tools: map<ToolName, ToolSpec>, node: Node, outputs: Outputs, dead: set<NodeId>)
    requires WellReferred(node.input) && !DeadReference(node, dead) && ConditionMet(node, outputs)
    requires node.tool in host.blocked
    ensures PrepareMember(host, tools, node, outputs, dead) == Settled(Failed(Coded("blocked_tool")))
  {
    hide DataDeps, ResolveInput, ResolveRef, WellReferred, DeadReference;
    DeadIsMeeting(node, dead);
  }

  /** What makes a node whose turn it is fail before its call. */
  lemma MisfitFails(host: Host, tools: map<ToolName, ToolSpec>, node: Node, outputs: Outputs, dead: set<NodeId>)
    requires WellReferred(node.input) && !DeadReference(node, dead) && ConditionMet(node, outputs)
    requires node.tool !in host.blocked && !InputFits(host, node, outputs)
    ensures var input := ResolveInput(node.input, outputs);
      PrepareMember(host, tools, node, outputs, dead) == Settled(Failed(
        if input.Err? then Reported(input.error)
        else if node.forEach.None? then Coded("invalid_input")
        else if ResolveRef(node.forEach.value, outputs).Err?
        then Reported(ResolveRef(node.forEach.value, outputs).error)
        else Coded("invalid_for_each")))
  {
    hide DataDeps, ResolveInput, ResolveRef, WellReferred, DeadReference;
    if ResolveInput(node.input, outputs).Err? {
      ReportedIs(ResolveInput(node.input, outputs).error);
    } else if node.forEach.Some? && ResolveRef(node.forEach.value, outputs).Err? {
      ReportedIs(ResolveRef(node.forEach.value, outputs).error);
    }
    DeadIsMeeting(node, dead);
  }

  /** What a ready node is dispatched with. */
  lemma ReadyWith(host: Host, tools: map<ToolName, ToolSpec>, node: Node, outputs: Outputs, dead: set<NodeId>)
    requires PrepareMember(host, tools, node, outputs, dead).Ready?
    ensures var member := PrepareMember(host, tools, node, outputs, dead).member;
      && member.node == node.id && ResolveInput(node.input, outputs) == Ok(member.input)
      && (member.items.Some? <==> node.forEach.Some?)
      && (node.forEach.Some? ==> ResolveRef(node.forEach.value, outputs) == Ok(Arr(member.items.value)))
      && (member.batchable <==>
            node.tool in tools && exists e :: tools[node.tool].effects == Some(e) && e.batchable)
      && (member.batchSize.Some? ==> node.tool in tools && tools[node.tool].batchSize == member.batchSize)
      && (member.batchSize.None? ==> node.tool in tools ==> tools[node.tool].batchSize.None?)
  {
    hide DataDeps, ResolveInput, ResolveRef;
  }

  /** Over a whole run a node is skipped for a failed dependency exactly when
      something it refers to failed or was skipped, even after a stop. */
  lemma FailedDependencyIs(p: Program, a: Assignment, n: NodeId)
    requires ProgramOk(p) && Complete(p, a) && n in p.nodes && WellReferred(p.nodes[n].input)
    ensures a[n] == Skipped(FailedDependency) <==> exists d :: RefersTo(p.nodes[n], d) && d in a && !a[d].Done?
  {
    hide DataDeps, RefersTo, WellReferred, UnitReady, PrepareMember;
    assert Explained(p, n, a);
    DeadIsMeeting(p.nodes[n], DeadOf(a));
    SkippedForDependency(p.host, p.tools, p.nodes[n], OutputsOf(a), DeadOf(a));
    if d :| RefersTo(p.nodes[n], d) && d in a && !a[d].Done? {
      assert d in DeadOf(a) && RefersTo(p.nodes[n], d);
      DataDepsAre(p.nodes[n], d);
    }
  }

  /** A node whose gates are open ends as its one call does. */
  lemma OneCallDecides(host: Host, plan: Plan, a: Assignment, node: Node)
    requires Meaning(host, plan, a) && node in plan.nodes && WellReferred(node.input) && node.forEach.None?
    requires !DeadReference(node, DeadOf(a)) && ConditionMet(node, OutputsOf(a))
    requires node.tool !in host.blocked && InputFits(host, node, OutputsOf(a))
    ensures node.id in a
    ensures a[node.id] == match host.exec.call(node.tool, ResolveInput(node.input, OutputsOf(a)).value)
      case Ok(output) => Done(output)
      case Err(error) => Failed(error)
  {
    hide DeadReference, ConditionMet, InputFits, WellReferred, PrepareMember, ResolveInput;
    assert Means(host, plan.tools, node, a);
    ReadyWhen(host, plan.tools, node, OutputsOf(a), DeadOf(a));
    ReadyWith(host, plan.tools, node, OutputsOf(a), DeadOf(a));
  }

  /** Validated inputs never fail as malformed. */
  lemma {:induction false} ValidatedInputResolves(j: Json, outputs: Outputs)
    requires WellReferred(j)
    ensures ResolveInput(j, outputs) != Err(InvalidRef)
    decreases j, 1, 0
  {
    match j
    case Obj(fields) =>
      if !IsLiteral(j) && !IsRef(j) {
        FieldsResolve(j, Strings.Sorted(fields.Keys), outputs);
      }
    case Arr(items) => ItemsResolve(j, 0, outputs);
    case _ =>
  }

  lemma {:induction false} FieldsResolve(j: Json, keys: seq<string>, outputs: Outputs)
    requires j.Obj? && (forall k | k in keys :: k in j.fields) && forall k | k in keys :: WellReferred(j.fields[k])
    ensures ResolveFields(j, keys, outputs) != Err(InvalidRef)
    decreases j, 0, |keys|
  {
    hide ResolveInput, WellReferred;
    if keys != [] {
      ValidatedInputResolves(j.fields[keys[0]], outputs);
      FieldsResolve(j, keys[1..], outputs);
    }
  }

  lemma {:induction false} ItemsResolve(j: Json, i: nat, outputs: Outputs)
    requires j.Arr? && i <= |j.items| && forall k | i <= k < |j.items| :: WellReferred(j.items[k])
    ensures ResolveItems(j, i, outputs) != Err(InvalidRef)
    decreases j, 0, |j.items| - i
  {
    hide ResolveInput, WellReferred;
    if i < |j.items| {
      ValidatedInputResolves(j.items[i], outputs);
      ItemsResolve(j, i + 1, outputs);
    }
  }
}
