/** Compile and execute: an optimized, batched, parallel run shows the declared
    outputs of a serial run of the plan as written. */
module Pipeline {
  import opened Wrappers
  import opened Json
  import opened Refs
  import opened Plans
  import opened Resolve
  import opened Calls
  import opened Semantics
  import opened Scheduling
  import opened History
  import opened Layers
  import opened Graphs
  import opened Meanings
  import opened Optimizers
  import opened Batching
  import opened Engines
  import opened BatchRuns

  // ------------------------------------------------------- plans and programs

  lemma BuiltNodes(host: Host, plan: Plan, graph: Graph, groups: seq<BatchGroup>, c: Config, n: NodeId)
    requires BuiltFor(host, plan, graph, groups, c) && n in Ids(plan.nodes)
    ensures n in c.program.nodes && c.program.nodes[n] == NodeOf(plan.nodes, n)
    ensures c.program.host == host && c.program.tools == plan.tools
  {
    IndexIsNodeOf(plan, n);
  }

  lemma BuiltKeys(host: Host, plan: Plan, graph: Graph, groups: seq<BatchGroup>, c: Config)
    requires BuiltFor(host, plan, graph, groups, c)
    ensures c.program.nodes.Keys == Ids(plan.nodes) && c.program.host == host
  {
    IndexKeys(plan);
  }

  lemma MeaningKeys(host: Host, plan: Plan, a: Assignment)
    requires Meaning(host, plan, a)
    ensures a.Keys == Ids(plan.nodes)
  {
  }

  /** The meaning of a plan, and of the program built for it, are the same. */
  lemma MeaningOfProgram(host: Host, plan: Plan, graph: Graph, groups: seq<BatchGroup>, c: Config, a: Assignment)
    requires WellFormedPlan(plan) && BuiltFor(host, plan, graph, groups, c) && ProgramOk(c.program)
    ensures Meaning(host, plan, a) <==> SoloMeaning(c.program, a)
  {
    hide WellFormedPlan, BuiltFor, ProgramOk, SoloOutcome;
    BuiltKeys(host, plan, graph, groups, c);
    DistinctNodes(plan);
    forall i | 0 <= i < |plan.nodes|
      ensures var n := plan.nodes[i].id; n in c.program.nodes && c.program.nodes[n] == plan.nodes[i]
    {
      NodeAt(plan.nodes, i);
      BuiltNodes(host, plan, graph, groups, c, plan.nodes[i].id);
    }
    if Meaning(host, plan, a) {
      forall n | n in a
        ensures a[n] == SoloOutcome(host, c.program.tools, c.program.nodes[n], a)
      {
        BuiltNodes(host, plan, graph, groups, c, n);
        MeansOf(host, plan, a, n);
      }
    }
    if SoloMeaning(c.program, a) {
      forall i | 0 <= i < |plan.nodes|
        ensures Means(host, plan.tools, plan.nodes[i], a)
      {
        BuiltNodes(host, plan, graph, groups, c, plan.nodes[i].id);
      }
    }
  }

  // ------------------------------------------------------- the central claim

  /** The steps of a compilation: merging by `aliases`, keeping `kept`. */
  ghost predicate Compiled(plan: Plan, templates: Templates, aliases: Aliases, first: Graph, kept: set<NodeId>,
      plan': Plan, graph: Graph, groups: seq<BatchGroup>) {
    && Deduped(plan, aliases)
    && ValidPlan(Contracted(plan, aliases)) && GraphOf(Contracted(plan, aliases), templates, first)
    && Eliminated(Contracted(plan, aliases), first, kept)
    && plan' == Prune(Contracted(plan, aliases), kept) && GraphOf(plan', templates, graph)
    && groups == AllGroups(plan', graph.layers)
  }

  /** What `optimize` returns: the compiled plan, its graph, and the report. */
  datatype Optimized = Optimized(plan: Plan, graph: Graph, removed: seq<(NodeId, NodeId)>, eliminated: seq<NodeId>,
        groups: seq<BatchGroup>)

  ghost predicate Reported(plan: Plan, o: Optimized) {
    && o.removed == MergeReport(plan.nodes, AliasesOf(o.removed))
    && o.eliminated == IdsOutside(Contracted(plan, AliasesOf(o.removed)).nodes, Ids(o.plan.nodes))
  }

  ghost predicate CompilesTo(plan: Plan, templates: Templates, o: Optimized) {
    && Reported(plan, o)
    && exists first ::
         Compiled(plan, templates, AliasesOf(o.removed), first, Ids(o.plan.nodes), o.plan, o.graph, o.groups)
  }

  /** What belongs to the nodes that compiling leaves. */
  ghost function Remaining<T>(plan: Plan, o: Optimized, m: map<NodeId, T>): map<NodeId, T> {
    Restrict(Restrict(m, Survivors(plan, AliasesOf(o.removed))), Ids(o.plan.nodes))
  }

  /** Both passes together: the compiled plan means what the plan means, on the
      nodes that remain, and shows the same declared outputs. */
  lemma CompilationKeepsMeaning(host: Host, plan: Plan, templates: Templates, o: Optimized, a: Assignment)
    requires WellFormedPlan(plan) && JsonInputs(plan) && CompilesTo(plan, templates, o) && Meaning(host, plan, a)
    ensures ValidPlan(o.plan) && Meaning(host, o.plan, Remaining(plan, o, a))
    ensures Visible(o.plan, Remaining(plan, o, a)) == Visible(plan, a)
  {
    hide WellFormedPlan, JsonInputs, Reported, Deduped, ValidPlan, GraphOf, Eliminated, Contracted, Prune, Meaning,
      Visible, Restrict, Survivors, AliasesOf, Ids;
    var aliases, kept := AliasesOf(o.removed), Ids(o.plan.nodes);
    var first :| Compiled(plan, templates, aliases, first, kept, o.plan, o.graph, o.groups);
    DedupKeepsMeaning(host, plan, aliases, a);
    EliminationKeepsMeaning(host, Contracted(plan, aliases), templates, first, kept,
      Restrict(a, Survivors(plan, aliases)));
  }

  /** Running the compiled plan in batches, in parallel, in any order, ends with
      the outcomes of running the plan as written one node at a time exactly when
      every batch call answers its members one by one, and then shows the same
      declared outputs. For the default adapter that is exactly when no batch
      mixes a failing call with one that ends differently; for any honest one it
      holds when no batch sends a call that fails. */
  lemma OptimizedMatchesSerial(host: Host, plan: Plan, templates: Templates, o: Optimized, c: Config,
      compiled: Assignment, graph0: Graph, s: Config, serial: Assignment)
    requires WellFormedPlan(plan) && JsonInputs(plan) && CompilesTo(plan, templates, o)
    requires BuiltFor(host, o.plan, o.graph, o.groups, c) && ProgramOk(c.program)
      && exists rank :: DataRank(c.program, rank)
    requires Complete(c.program, compiled) && NothingStopped(compiled)
    requires BuiltFor(host, plan, graph0, [], s) && ProgramOk(s.program) && Unbatched(s.program)
    requires Complete(s.program, serial) && NothingStopped(serial)
    ensures Meaning(host, plan, serial)
    ensures compiled == Remaining(plan, o, serial) <==> BatchesPointwise(c.program, Remaining(plan, o, serial))
    ensures compiled == Remaining(plan, o, serial) ==> Visible(o.plan, compiled) == Visible(plan, serial)
    ensures DefaultBatch(host.exec) ==>
              (compiled == Remaining(plan, o, serial) <==> BatchesAgree(c.program, Remaining(plan, o, serial)))
    ensures Honest(host.exec) && BatchesSucceed(c.program, Remaining(plan, o, serial)) ==>
      compiled == Remaining(plan, o, serial)
  {
    hide *;
    var a := Remaining(plan, o, serial);
    UnbatchedIsMeaning(s.program, serial);
    MeaningOfProgram(host, plan, graph0, [], s, serial);
    CompilationKeepsMeaning(host, plan, templates, o, serial);
    ValidIsWellFormed(o.plan);
    MeaningOfProgram(host, o.plan, o.graph, o.groups, c, a);
    var rank :| DataRank(c.program, rank);
    BuiltKeys(host, o.plan, o.graph, o.groups, c);
    BatchedRunIsMeaning(c.program, rank, a, compiled);
    if DefaultBatch(host.exec) {
      DefaultBatches(c.program, a);
    }
    if Honest(host.exec) && BatchesSucceed(c.program, a) {
      HonestBatches(c.program, a);
    }
  }

  lemma ValidIsWellFormed(plan: Plan)
    requires ValidPlan(plan)
    ensures WellFormedPlan(plan)
  {
  }

  // ------------------------------------------------------------- entry points

  /** No node, as written or once references were redirected to merged nodes,
      declares one resource as both read and written. */
  ghost predicate EffectsApart(plan: Plan, templates: Templates) {
    && ReadsApartFromWrites(EffectsOfNodes(plan, templates))
    && forall aliases | Deduped(plan, aliases) ::
         ReadsApartFromWrites(EffectsOfNodes(Contracted(plan, aliases), templates))
  }

  lemma ApartPruned(plan: Plan, templates: Templates, kept: set<NodeId>)
    requires DistinctIds(plan.nodes) && ReadsApartFromWrites(EffectsOfNodes(plan, templates))
    ensures ReadsApartFromWrites(EffectsOfNodes(Prune(plan, kept), templates))
  {
    hide EffectsOfNodes, DistinctIds, Prune;
    PruneMaps(plan, templates, kept);
  }

  /** A plan compiles in at most one way. */
  lemma CompilationUnique(plan: Plan, templates: Templates, a: Optimized, b: Optimized)
    requires DistinctIds(plan.nodes) && CompilesTo(plan, templates, a) && CompilesTo(plan, templates, b)
    ensures a == b
  {
    hide Deduped, DistinctIds, ValidPlan, GraphOf, Eliminated, Contracted, Prune, AllGroups, Ids, AliasesOf,
      MergeReport, IdsOutside;
    var aliases := AliasesOf(a.removed);
    var first :| Compiled(plan, templates, aliases, first, Ids(a.plan.nodes), a.plan, a.graph, a.groups);
    var again :| Compiled(plan, templates, AliasesOf(b.removed), again, Ids(b.plan.nodes), b.plan, b.graph, b.groups);
    DedupUnique(plan, aliases, AliasesOf(b.removed));
    GraphUnique(Contracted(plan, aliases), templates, first, again);
    EliminatedUnique(Contracted(plan, aliases), first, Ids(a.plan.nodes), Ids(b.plan.nodes));
    GraphUnique(a.plan, templates, a.graph, b.graph);
  }

  /** `optimize`: dedup, validate, eliminate, rebuild layers, group. */
  method Compile(plan: Plan, templates: Templates)
    returns (result: Result<Optimized, GraphError>)
    requires DistinctIds(plan.nodes)
    ensures forall aliases | Deduped(plan, aliases) :: result.Ok? <==> ValidPlan(Contracted(plan, aliases))
    ensures result.Ok? ==> CompilesTo(plan, templates, result.value)
    ensures result.Err? ==>
      exists aliases :: Deduped(plan, aliases) && Describes(Contracted(plan, aliases), result.error)
  {
    hide ValidPlan, GraphOf, Deduped, Eliminated, Contracted, Prune, AllGroups, Describes, DistinctIds, Ids, AliasesOf,
      MergeReport, IdsOutside;
    var plan1, removed := DeduplicateNodes(plan);
    ghost var aliases := AliasesOf(removed);
    forall other | Deduped(plan, other)
      ensures other == aliases
    {
      DedupUnique(plan, other, aliases);
    }
    var validated := Validate(plan1, templates);
    if validated.Err? {
      return Err(validated.error);
    }
    var graph := validated.value;
    ghost var first := graph;
    GraphFacts(plan1, templates, graph);
    var plan2, eliminated := EliminateDeadNodes(plan1, graph);
    ghost var kept := Ids(plan2.nodes);
    KeptIsClosed(plan1, templates, graph, kept);
    if eliminated != [] {
      var retained := Retain(graph, Ids(plan2.nodes));
      RetainedAcyclic(plan1, templates, graph, kept);
      graph := retained.value;
      RetainedIsGraph(plan1, templates, first, kept, graph);
    } else {
      NothingEliminated(plan1, kept);
    }
    var groups := FindBatchGroups(plan2, graph);
    assert Compiled(plan, templates, aliases, first, kept, plan2, graph, groups);
    result := Ok(Optimized(plan2, graph, removed, eliminated, groups));
  }

  lemma GraphFacts(plan: Plan, templates: Templates, graph: Graph)
    requires ValidPlan(plan) && GraphOf(plan, templates, graph)
    ensures graph.dependencies.Keys == graph.effects.Keys == Ids(plan.nodes)
    ensures forall n | n in graph.dependencies :: graph.dependencies[n] <= graph.dependencies.Keys
    ensures forall n | n in graph.effects :: graph.effects[n].Coherent()
  {
    hide WellFormedPlan, GraphOf, Acyclic;
    GraphKeys(plan, templates, graph);
    ValidIsWellFormed(plan);
    GraphClosed(plan, templates, graph);
    PlanCoherent(plan);
    EffectsCoherent(plan, templates);
    GraphEffects(plan, templates, graph);
  }

  lemma GraphEffects(plan: Plan, templates: Templates, graph: Graph)
    requires GraphOf(plan, templates, graph)
    ensures graph.effects == EffectsOfNodes(plan, templates)
  {
  }

  lemma RetainedAcyclic(plan: Plan, templates: Templates, graph: Graph, kept: set<NodeId>)
    requires ValidPlan(plan) && GraphOf(plan, templates, graph) && Closed(DependenciesOf(plan), kept)
    ensures Acyclic(Restrict(graph.dependencies, kept))
  {
    hide LayersOk, NodeDeps, EffectsFor, WellFormedPlan, RankOk;
    RestrictAcyclic(graph.dependencies, kept);
  }

  lemma RetainedIsGraph(plan: Plan, templates: Templates, graph: Graph, kept: set<NodeId>, retained: Graph)
    requires ValidPlan(plan) && GraphOf(plan, templates, graph) && Closed(DependenciesOf(plan), kept)
    requires retained.dependencies == Restrict(graph.dependencies, kept)
      && retained.effects == Restrict(graph.effects, kept)
    requires Layering(retained.dependencies, retained.effects, retained.layers)
    ensures GraphOf(Prune(plan, kept), templates, retained)
  {
    hide LayersOk, NodeDeps, EffectsFor, Acyclic, ValidNode;
    PruneMaps(plan, templates, kept);
  }

  lemma NothingEliminated(plan: Plan, kept: set<NodeId>)
    requires IdsOutside(plan.nodes, kept) == []
    ensures Prune(plan, kept) == plan
  {
    NothingOutside(plan.nodes, kept);
  }

  /** How a run ended, as its caller sees it. */
  datatype Report = Report(status: Status, values: map<string, Json>, errors: map<NodeId, ToolError>,
        skipped: map<NodeId, SkipReason>)

  /** `a` is the outcome of a finished run of the engine `c` was built for, and
      `report` shows it. */
  ghost predicate Executed(host: Host, plan: Plan, graph: Graph, groups: seq<BatchGroup>, options: Options,
      report: Report, c: Config, a: Assignment) {
    && BuiltFor(host, plan, graph, UsedGroups(groups, options), c) && ProgramOk(c.program)
         && (exists rank :: DataRank(c.program, rank))
    && (options.serial ==> Unbatched(c.program))
    && Complete(c.program, a)
    && report.values == Visible(plan, a) && report.skipped == SkipsOf(a)
    && report.errors == ErrorsOf(a) + Unresolved(plan.outputs, OutputsOf(a), DeadOf(a))
    && (report.status == Success ==> report.errors == map[])
    && (Running(plan, options) ==> NothingStopped(a) && report.status == if report.errors == map[] then Success
         else Failure)
  }

  /** Runs an engine to the end and reports. */
  method RunToEnd(c: Config, declared: map<string, ValueRef>)
        returns (report: Report, ghost a: Assignment, ghost stop: Option<SkipReason>)
    requires ConfigOk(c)
    ensures ProgramOk(c.program) && Complete(c.program, a)
    ensures report.values == Resolved(declared, OutputsOf(a)) && report.skipped == SkipsOf(a)
    ensures report.errors == ErrorsOf(a) + Unresolved(declared, OutputsOf(a), DeadOf(a))
    ensures report.status == if stop == Some(Cancelled) then Cancellation else if report.errors == map[] then Success
      else Failure
    ensures StopOk(c, a, stop) && (!c.failFast && !c.cancellable ==> stop.None?)
  {
    hide ConfigOk, ProgramOk, Mirrors, StopOk, RunLog, Keeps, Complete, Resolved, Unresolved, OutputsOf, DeadOf,
      ErrorsOf, SkipsOf;
    var engine := new Engine(c);
    engine.Run();
    a, stop := engine.result, engine.stop;
    MirrorsAll(a, engine.outputs, engine.dead, engine.errors, engine.skipped);
    AllKnown(c.program, a);
    var status, values := engine.Finish(declared);
    report := Report(status, values, engine.errors, engine.skipped);
  }

  lemma AllKnown(p: Program, a: Assignment)
    requires ProgramOk(p) && Complete(p, a)
    ensures a.Keys == p.nodes.Keys
  {
  }

  /** Builds an engine and runs it to the end. */
  method Execute(host: Host, plan: Plan, graph: Graph, groups: seq<BatchGroup>, options: Options,
      ghost templates: Templates)
    returns (report: Report)
    requires WellFormedPlan(plan) && GraphOf(plan, templates, graph) && groups == AllGroups(plan, graph.layers)
    requires ReadsApartFromWrites(graph.effects) && |Flatten(graph.layers)| <= MAX_KEY
    ensures exists c, a :: Executed(host, plan, graph, groups, options, report, c, a)
  {
    hide WellFormedPlan, GraphOf, BuiltFor, ConfigOk, ProgramOk, DataRank, UnitRank, Serial, StopOk, Flatten, AllGroups,
      Complete, Unresolved,
      OutputsOf, DeadOf, ErrorsOf, SkipsOf, NothingStopped, Running;
    var config := NewConfig(host, plan, graph, groups, options, templates);
    ghost var a, stop;
    report, a, stop := RunToEnd(config, plan.outputs);
    RunningIsPositive(plan, options, config, a, stop);
    assert Executed(host, plan, graph, groups, options, report, config, a);
  }

  /** Nothing will stop the run: no fail-fast, no cancellation, no zero limit. */
  predicate Running(plan: Plan, options: Options) {
    && !options.failFast && !options.cancellable
    && (options.serial || options.maxConcurrency.None? || options.maxConcurrency.value > 0)
    && forall tool | tool in plan.tools :: plan.tools[tool].maxConcurrency != Some(0)
  }

  lemma RunningIsPositive(plan: Plan, options: Options, c: Config, a: Assignment, stop: Option<SkipReason>)
    requires c.toolLimits == ToolLimits(plan) && c.failFast == options.failFast && c.cancellable == options.cancellable
    requires c.globalLimit == if options.serial then Some(1) else options.maxConcurrency
    requires StopOk(c, a, stop) && (!c.failFast && !c.cancellable ==> stop.None?)
    ensures Running(plan, options) ==> NothingStopped(a) && stop.None?
  {
  }

  lemma MirrorsAll(a: Assignment, outputs: Outputs, dead: set<NodeId>, errors: map<NodeId, ToolError>,
      skipped: map<NodeId, SkipReason>)
    requires Mirrors(a, outputs, dead, errors, skipped)
    ensures outputs == OutputsOf(a) && skipped == SkipsOf(a) && errors == ErrorsOf(a) && dead == DeadOf(a)
    ensures forall n | n in a :: n in outputs || n in errors || n in skipped
  {
  }

  /** How the two runs relate: `outcome` is what the plan means and the serial
      run shows; `ran` is what the compiled run ended with and shows. On every
      node that remains, and in all declared outputs, they agree exactly when each
      batch answers its members one by one. */
  ghost predicate Agreement(host: Host, plan: Plan, templates: Templates, options: Options, compiled: Report,
      serial: Report, outcome: Assignment, o: Optimized, c: Config, ran: Assignment)
  {
    && Meaning(host, plan, outcome) && serial.values == Visible(plan, outcome)
    && CompilesTo(plan, templates, o) && Executed(host, o.plan, o.graph, o.groups, options, compiled, c, ran)
    && (ran == Remaining(plan, o, outcome) <==> BatchesPointwise(c.program, Remaining(plan, o, outcome)))
    && (DefaultBatch(host.exec) ==>
          (ran == Remaining(plan, o, outcome) <==> BatchesAgree(c.program, Remaining(plan, o, outcome))))
    && (Honest(host.exec) && BatchesSucceed(c.program, Remaining(plan, o, outcome)) ==>
          ran == Remaining(plan, o, outcome))
    && (ran == Remaining(plan, o, outcome) ==> SameReport(plan, o, compiled, serial))
  }

  /** The same declared outputs, and the same failures and skips among the nodes
      that remain. */
  ghost predicate SameReport(plan: Plan, o: Optimized, compiled: Report, serial: Report) {
    && compiled.values == serial.values
    && compiled.skipped == Remaining(plan, o, serial.skipped)
    && forall n | n in Ids(o.plan.nodes) ::
         (n in compiled.errors <==> n in serial.errors)
           && (n in serial.errors ==> compiled.errors[n] == serial.errors[n])
  }

  /** The repository's central claim: for deterministic tools, compiling a plan
      and running it in parallel shows the outputs of running it serially as
      written, exactly as far as `Agreement` says. */
  method OptimizedRunEqualsSerialRun(host: Host, plan: Plan, templates: Templates, options: Options)
    returns (compiled: Report, serial: Report)
    requires ValidPlan(plan) && JsonInputs(plan) && ListedInOrder(plan) && EffectsApart(plan, templates)
    requires !options.serial && Running(plan, options) && |plan.nodes| <= MAX_KEY
    ensures exists outcome, o, c, ran :: Agreement(host, plan, templates, options, compiled, serial, outcome, o, c, ran)
  {
    hide *;
    ValidIsWellFormed(plan);
    DistinctNodes(plan);
    var result := Compile(plan, templates);
    OrderedCompiles(plan);
    var o := result.value;
    CompiledReady(plan, templates, o);
    RunningCompiled(plan, o.plan, options);
    compiled := Execute(host, o.plan, o.graph, o.groups, options, templates);
    ghost var c, ran :| Executed(host, o.plan, o.graph, o.groups, options, compiled, c, ran);

    var validated := Validate(plan, templates);
    var graph0 := validated.value;
    WrittenApart(plan, templates, graph0);
    FlatSize(plan, templates, graph0);
    var groups0 := FindBatchGroups(plan, graph0);
    RunningSerial(plan, options);
    serial := Execute(host, plan, graph0, groups0, SerialOptions(), templates);
    ghost var s, outcome :| Executed(host, plan, graph0, groups0, SerialOptions(), serial, s, outcome);
    RunsAgree(host, plan, templates, options, o, c, ran, compiled, graph0, groups0, s, outcome, serial);
  }

  /** Options of the serial run: one unit at a time, nothing stops it. */
  function SerialOptions(): Options {
    Options(true, None, false, false)
  }

  lemma RunsAgree(host: Host, plan: Plan, templates: Templates, options: Options, o: Optimized, c: Config,
      ran: Assignment, compiled: Report, graph0: Graph, groups0: seq<BatchGroup>, s: Config, outcome: Assignment,
      serial: Report)
    requires ValidPlan(plan) && JsonInputs(plan) && CompilesTo(plan, templates, o) && !options.serial
    requires Running(plan, options) && Running(o.plan, options)
    requires Executed(host, o.plan, o.graph, o.groups, options, compiled, c, ran)
    requires Executed(host, plan, graph0, groups0, SerialOptions(), serial, s, outcome)
    ensures Agreement(host, plan, templates, options, compiled, serial, outcome, o, c, ran)
  {
    hide ValidPlan, JsonInputs, CompilesTo, BuiltFor, ProgramOk, DataRank, Unbatched, Complete, NothingStopped, SkipsOf,
      ErrorsOf, Unresolved,
      Remaining, SameReport, BatchesPointwise, BatchesAgree, BatchesSucceed, Meaning, Visible;
    ValidIsWellFormed(plan);
    RunningSerial(plan, options);
    OptimizedMatchesSerial(host, plan, templates, o, c, ran, graph0, s, outcome);
    if ran == Remaining(plan, o, outcome) {
      CompiledValid(host, plan, templates, o, outcome);
      MeaningKeys(host, plan, outcome);
      BuiltKeys(host, o.plan, o.graph, o.groups, c);
      SameFailures(plan, o, ran, outcome, compiled, serial);
    }
  }

  lemma CompiledValid(host: Host, plan: Plan, templates: Templates, o: Optimized, outcome: Assignment)
    requires ValidPlan(plan) && JsonInputs(plan) && CompilesTo(plan, templates, o) && Meaning(host, plan, outcome)
    ensures ValidPlan(o.plan) && Remaining(plan, o, outcome).Keys == Ids(o.plan.nodes)
  {
    hide *;
    ValidIsWellFormed(plan);
    CompilationKeepsMeaning(host, plan, templates, o, outcome);
    MeaningKeys(host, o.plan, Remaining(plan, o, outcome));
  }

  /** Unresolved outputs are reported under keys no node has. */
  lemma OutputKeysApart(plan: Plan, outputs: Outputs, dead: set<NodeId>)
    requires ValidPlan(plan)
    ensures Unresolved(plan.outputs, outputs, dead).Keys !! Ids(plan.nodes)
  {
    hide ResolveRef, Acyclic, Unresolved, OutputKey;
    NodeIdsAreValid(plan);
    UnresolvedKeys(plan.outputs, outputs, dead);
  }

  lemma NodeIdsAreValid(plan: Plan)
    requires ValidPlan(plan)
    ensures forall n | n in Ids(plan.nodes) :: ValidNodeId(n)
  {
    hide Acyclic, NodeDeps, ValidNodeId;
    forall n | n in Ids(plan.nodes)
      ensures ValidNodeId(n)
    {
      var i :| 0 <= i < |plan.nodes| && plan.nodes[i].id == n;
      assert ValidNode(plan, plan.nodes[i]);
    }
  }

  lemma UnresolvedKeys(declared: map<string, ValueRef>, outputs: Outputs, dead: set<NodeId>)
    ensures forall key | key in Unresolved(declared, outputs, dead) :: !ValidNodeId(key)
  {
    hide ResolveRef;
    forall name: string
      ensures !ValidNodeId(OutputKey(name))
    {
      assert OutputKey(name)[7] == '.';
    }
  }

  lemma SameFailures(plan: Plan, o: Optimized, ran: Assignment, outcome: Assignment, compiled: Report, serial: Report)
    requires ValidPlan(plan) && ValidPlan(o.plan) && ran == Remaining(plan, o, outcome) && ran.Keys == Ids(o.plan.nodes)
    requires outcome.Keys == Ids(plan.nodes) && compiled.values == serial.values
    requires compiled.skipped == SkipsOf(ran)
      && compiled.errors == ErrorsOf(ran) + Unresolved(o.plan.outputs, OutputsOf(ran), DeadOf(ran))
    requires serial.skipped == SkipsOf(outcome)
    requires serial.errors == ErrorsOf(outcome) + Unresolved(plan.outputs, OutputsOf(outcome), DeadOf(outcome))
    ensures SameReport(plan, o, compiled, serial)
  {
    hide ValidPlan, Unresolved, Ids, AliasesOf;
    OutputKeysApart(plan, OutputsOf(outcome), DeadOf(outcome));
    OutputKeysApart(o.plan, OutputsOf(ran), DeadOf(ran));
    forall n | n in Ids(o.plan.nodes)
      ensures n in outcome && ran[n] == outcome[n] && n in Ids(plan.nodes)
    {
      assert n in ran;
    }
  }

  lemma WrittenApart(plan: Plan, templates: Templates, graph: Graph)
    requires EffectsApart(plan, templates) && GraphOf(plan, templates, graph)
    ensures ReadsApartFromWrites(graph.effects)
  {
    hide ReadsApartFromWrites, EffectsOfNodes;
  }

  lemma OrderedCompiles(plan: Plan)
    requires ValidPlan(plan) && ListedInOrder(plan)
    ensures forall aliases | Deduped(plan, aliases) :: ValidPlan(Contracted(plan, aliases))
  {
    hide *;
    forall aliases | Deduped(plan, aliases)
      ensures ValidPlan(Contracted(plan, aliases))
    {
      CompilesInOrder(plan, aliases);
    }
  }

  lemma CompilesInOrder(plan: Plan, aliases: Aliases)
    requires ValidPlan(plan) && ListedInOrder(plan) && Deduped(plan, aliases)
    ensures ValidPlan(Contracted(plan, aliases))
  {
    hide WellFormedPlan, ListedInOrder, Deduped, Contracted, QuotientRank;
    ValidIsWellFormed(plan);
    InOrderStaysAcyclic(plan, aliases);
    ContractedAcyclic(plan, aliases);
    ContractedValid(plan, aliases);
  }

  lemma FlatSize(plan: Plan, templates: Templates, graph: Graph)
    requires GraphOf(plan, templates, graph)
    ensures |Flatten(graph.layers)| <= |plan.nodes|
  {
    hide GraphOf, Flatten;
    FlatOrder(plan, templates, graph);
    NoRepeatsCount(Flatten(graph.layers));
    IdsSize(plan.nodes);
  }

  lemma {:induction false} IdsSize(nodes: seq<Node>)
    ensures |Ids(nodes)| <= |nodes|
  {
    if nodes == [] {
      assert Ids(nodes) == {};
    } else {
      var init, last := nodes[..|nodes| - 1], nodes[|nodes| - 1];
      IdsSize(init);
      assert Ids(nodes) == Ids(init) + {last.id} by {
        assert forall i | 0 <= i < |init| :: init[i] == nodes[i];
      }
    }
  }

  lemma {:induction false} KeepSize(nodes: seq<Node>, kept: set<NodeId>)
    ensures |KeepNodes(nodes, kept)| <= |nodes|
  {
    if nodes != [] {
      KeepSize(nodes[..|nodes| - 1], kept);
    }
  }

  lemma CompiledReady(plan: Plan, templates: Templates, o: Optimized)
    requires WellFormedPlan(plan) && EffectsApart(plan, templates) && CompilesTo(plan, templates, o)
    ensures WellFormedPlan(o.plan) && GraphOf(o.plan, templates, o.graph)
      && o.groups == AllGroups(o.plan, o.graph.layers)
    ensures ReadsApartFromWrites(o.graph.effects) && |Flatten(o.graph.layers)| <= |plan.nodes|
    ensures o.plan.tools == plan.tools
  {
    hide WellFormedPlan, GraphOf, Reported, ReadsApartFromWrites, Flatten, AllGroups, Deduped, ValidPlan, Eliminated,
      KeepNodes, RewriteNodes,
      RewriteOutputs, AliasesOf, Ids;
    var aliases, kept := AliasesOf(o.removed), Ids(o.plan.nodes);
    var first :| Compiled(plan, templates, aliases, first, kept, o.plan, o.graph, o.groups);
    var plan1 := Contracted(plan, aliases);
    KeptIsClosed(plan1, templates, first, kept);
    PruneValid(plan1, kept);
    ValidIsWellFormed(o.plan);
    ContractedIds(plan, aliases);
    DistinctNodes(plan);
    ApartPruned(plan1, templates, kept);
    GraphEffects(o.plan, templates, o.graph);
    FlatSize(o.plan, templates, o.graph);
    KeepSize(plan1.nodes, kept);
    KeepSize(plan.nodes, Survivors(plan, aliases));
  }

  lemma RunningCompiled(plan: Plan, plan': Plan, options: Options)
    requires Running(plan, options) && plan'.tools == plan.tools
    ensures Running(plan', options)
  {
  }

  lemma RunningSerial(plan: Plan, options: Options)
    requires Running(plan, options)
    ensures Running(plan, SerialOptions())
  {
  }
}
