/** What runs side by side, over every legal log and stated of the plan alone:
    never two nodes one of which writes what the other uses, never more calls of
    a tool, or units, than the plan and its caller allow. */
module RunSafety {
  import opened Plans
  import opened Locks
  import opened Semantics
  import opened Scheduling
  import opened History
  import opened Serializability
  import opened Graphs
  import opened Batching
  import opened Declared

  // ------------------------------------------------------------- conflicts

  lemma {:induction false} ActiveCompatible(c: Config, log: Log)
    requires |c.unitDeps| == Units(c) && Legal(c, log)
    ensures forall u | u in ActiveIn(log) :: u < Units(c)
    ensures forall u, v | u in ActiveIn(log) && v in ActiveIn(log) && u != v ::
      Compatible(c.program.units[u].lock, c.program.units[v].lock)
  {
    hide Compatible;
    if log != [] {
      var before, event := log[..|log| - 1], log[|log| - 1];
      ActiveCompatible(c, before);
      match event
      case Started(u) =>
        forall v | v in ActiveIn(before)
          ensures Compatible(c.program.units[v].lock, c.program.units[u].lock)
        {
          CompatibleSymmetric(c.program.units[u].lock, c.program.units[v].lock);
        }
      case Ended(u) =>
        forall v
          ensures v in ActiveIn(log) ==> v in ActiveIn(before)
        {
          WithoutSubset(ActiveIn(before), u, v);
        }
      case _ =>
    }
  }

  lemma CompatibleSymmetric(a: LockRequest, b: LockRequest)
    ensures Compatible(a, b) <==> Compatible(b, a)
  {
  }

  /** Members of compatible units may run together. */
  lemma MembersMayRunTogether(plan: Plan, templates: Templates, a: Unit, b: Unit, m: NodeId, n: NodeId)
    requires LockFor(plan, templates, a.members, a.lock) && LockFor(plan, templates, b.members, b.lock)
    requires CommutesAs(plan, a) && CommutesAs(plan, b) && Compatible(a.lock, b.lock)
    requires m in a.members && n in b.members && m in Ids(plan.nodes) && n in Ids(plan.nodes)
    ensures MayRunTogether(plan, templates, NodeOf(plan.nodes, m), NodeOf(plan.nodes, n))
  {
    hide Declares, ReadsResource, WritesResource, Commutes, Ids;
    var x, y := NodeOf(plan.nodes, m), NodeOf(plan.nodes, n);
    assert Declares(plan, x) && Declares(plan, y);
    forall r
      ensures ReadsResource(plan, templates, x, r) ==> r in a.lock.readSet
      ensures ReadsResource(plan, templates, y, r) ==> r in b.lock.readSet
      ensures WritesResource(plan, templates, x, r) ==> r in a.lock.writeSet
      ensures WritesResource(plan, templates, y, r) ==> r in b.lock.writeSet
    {
    }
    if !(a.lock.writeSet !! b.lock.writeSet) {
      assert a.members == [m] && b.members == [n];
    }
  }

  /** Two nodes that run side by side neither write what the other reads nor,
      unless as calls of one commutative tool, what the other writes. */
  lemma SideBySide(host: Host, plan: Plan, templates: Templates, graph: Graph, groups: seq<BatchGroup>, c: Config,
      log: Log, u: nat, v: nat, m: NodeId, n: NodeId)
    requires GraphOf(plan, templates, graph) && BuiltFor(host, plan, graph, groups, c)
    requires |c.unitDeps| == Units(c) && Legal(c, log) && u in ActiveIn(log) && v in ActiveIn(log) && u != v
    requires u < Units(c) && v < Units(c) && m in c.program.units[u].members && n in c.program.units[v].members
    ensures m in Ids(plan.nodes) && n in Ids(plan.nodes)
    ensures MayRunTogether(plan, templates, NodeOf(plan.nodes, m), NodeOf(plan.nodes, n))
  {
    hide GraphOf, BuiltFor, Legal, ActiveIn, LockFor, CommutesAs, Compatible, MayRunTogether, Ids;
    ActiveCompatible(c, log);
    UnitLockIs(host, plan, templates, graph, groups, c, u);
    UnitLockIs(host, plan, templates, graph, groups, c, v);
    MembersMayRunTogether(plan, templates, c.program.units[u], c.program.units[v], m, n);
  }

  // --------------------------------------------------------------- limits

  ghost function ActiveCalling(c: Config, active: seq<nat>, tool: ToolName): set<nat> {
    set u | u in active && u < Units(c) && c.program.units[u].tool == tool
  }

  lemma {:induction false} CountIs(c: Config, active: seq<nat>, tool: ToolName)
    requires Distinct(active)
    ensures ToolCount(c, active, tool) == |ActiveCalling(c, active, tool)|
  {
    if active != [] {
      var init, last := active[..|active| - 1], active[|active| - 1];
      DistinctInit(active);
      CountIs(c, init, tool);
      assert active == init + [last];
      if last < Units(c) && c.program.units[last].tool == tool {
        assert ActiveCalling(c, active, tool) == ActiveCalling(c, init, tool) + {last};
      } else {
        assert ActiveCalling(c, active, tool) == ActiveCalling(c, init, tool);
      }
    }
  }

  ghost predicate WithinAll(c: Config, active: seq<nat>) {
    && (c.globalLimit.Some? ==> |active| <= c.globalLimit.value)
    && forall tool | tool in c.toolLimits :: ToolCount(c, active, tool) <= c.toolLimits[tool]
  }

  lemma LimitsStep(c: Config, before: Log, event: Event)
    requires |c.unitDeps| == Units(c) && LegalEvent(c, before, event)
    requires Distinct(ActiveIn(before)) && Known(c, ActiveIn(before)) && WithinAll(c, ActiveIn(before))
    ensures WithinAll(c, ActiveAfter(ActiveIn(before), event))
  {
    hide ActiveIn, StartedIn, EndedIn, FinishedIn, HaltedIn, HaltedBy, MayOverlap, Distinct, Known;
    var active := ActiveIn(before);
    match event
    case Started(u) => assert (active + [u])[..|active|] == active;
    case Ended(u) =>
      WithoutKeeps(c, active, u);
      WithoutOne(c, active, u);
    case _ =>
  }

  lemma {:induction false} LimitsKept(c: Config, log: Log)
    requires |c.unitDeps| == Units(c) && Legal(c, log)
    ensures WithinAll(c, ActiveIn(log))
  {
    hide LegalEvent, ActiveAfter, Distinct, Known, WithinAll;
    if log == [] {
      NoneActive(c);
    } else {
      var before, event := log[..|log| - 1], log[|log| - 1];
      LimitsKept(c, before);
      ActiveDistinct(c, before);
      LimitsStep(c, before, event);
    }
  }

  lemma NoneActive(c: Config)
    ensures WithinAll(c, ActiveIn([]))
  {
  }

  /** At no time are more units of a tool active than the plan allows, nor more
      units than the caller of the run does. */
  lemma LimitsHold(c: Config, plan: Plan, log: Log, tool: ToolName)
    requires |c.unitDeps| == Units(c) && Legal(c, log) && c.toolLimits == ToolLimits(plan)
    ensures tool in plan.tools && plan.tools[tool].maxConcurrency.Some? ==>
      |ActiveCalling(c, ActiveIn(log), tool)| <= plan.tools[tool].maxConcurrency.value
    ensures c.globalLimit.Some? ==> |ActiveIn(log)| <= c.globalLimit.value
  {
    hide Legal, ActiveIn, Distinct, Known;
    ActiveDistinct(c, log);
    LimitsKept(c, log);
    CountIs(c, ActiveIn(log), tool);
    if tool in plan.tools && plan.tools[tool].maxConcurrency.Some? {
      assert tool in c.toolLimits;
    }
  }
}
