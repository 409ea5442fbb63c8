/** Inputs that show what the repository's promises do not cover: a batch whose
    failing call takes another node's output with it, a fail-fast stop that does
    not hold back the batch that caused it, and a lock that panics. */
module Counterexamples {
  import opened Wrappers
  import opened Json
  import opened Strings
  import opened Refs
  import opened Plans
  import opened Resolve
  import opened Calls
  import opened Locks
  import opened Semantics
  import opened Scheduling
  import opened History
  import opened Layers
  import opened Graphs
  import opened Meanings
  import opened Optimizers
  import opened Batching
  import opened Engines
  import opened BatchRuns
  import opened Pipeline

  /** Two calls of one batchable tool. */
  const A := Node("a", "t", Bool(true), [], None, None)
  const B := Node("b", "t", Bool(false), [], None, None)

  const Tools: map<ToolName, ToolSpec> :=
    map["t" := ToolSpec("adapter", Some(Effects(true, {}, {}, false, true, false)), None, None, None, None)]

  /** Fails the second one, one call at a time or in a batch. */
  function CallT(tool: ToolName, input: Json): CallResult {
    if input == Bool(true) then Ok(Null) else Err(Coded("failed"))
  }

  const Exec := Executor(CallT, (tool, inputs) => OneByOne(CallT, tool, inputs))

  lemma ExecIsDefault()
    ensures DefaultBatch(Exec)
  {
    forall tool, inputs
      ensures DefaultOn(Exec, tool, inputs)
    {
      var f := Exec.call;
      assert Exec.callBatch(tool, inputs) == OneByOne(CallT, tool, inputs);
    }
  }

  // ------------------------------------------------------------------ a lock

  /** Nothing else is held, and still a read of what is also written panics. */
  method ReadWritePanics(r: Resource) returns (result: Acquisition)
    ensures result == Panicked
  {
    var table := new LockTable();
    result := table.TryAcquire(LockRequest({r}, {r}, None, false));
  }

  // --------------------------------------------------- a stop and its batch

  /** The second member fails its schema. */
  const Strict := Host(Exec, {}, (tool, input) => input == Bool(true))

  const Batch := Unit(["a", "b"], "t", true, NoLocks, 0)

  /** A fail-fast run of the two calls as one batch. */
  const FailFast := Config(
    Program(Strict, Tools, map["a" := A, "b" := B], [Batch], map["a" := 0, "b" := 0]),
    [{}], [{}], [0], map[], None, true, false)

  lemma FailFastProgram()
    ensures ProgramOk(FailFast.program)
  {
    assert UnitOk(FailFast.program, Batch);
  }

  lemma FailFastOk()
    ensures ConfigOk(FailFast)
  {
    FailFastProgram();
    hide ProgramOk;
    assert DataDeps(A) == {} && DataDeps(B) == {};
    assert UnitRank(FailFast, [0]);
  }

  /** The engine may stop for the batch's second member and admit the batch. */
  lemma StopAdmitsItsBatch()
    ensures ConfigOk(FailFast) && FailFast.failFast && Batch.members == ["a", "b"]
    ensures Prepare(FailFast.program, "b", map[]) == Settled(Failed(Coded("invalid_input")))
    ensures StopOf(FailFast, map[], 0) + FateOf(FailFast, [], map[], 0) == [Halted, Started(0)]
    ensures Legal(FailFast, [Halted, Started(0)])
  {
    FailFastOk();
    FailFastGates();
    FailFastLegal();
    hide ConfigOk, Prepare, SomeReady, SomeFails, Admits, Legal, StopOf, FateOf;
    AdmittedAfterStop(FailFast, [], map[], 0);
  }

  lemma FailFastGates()
    ensures Prepare(FailFast.program, "b", map[]) == Settled(Failed(Coded("invalid_input")))
    ensures SomeReady(FailFast, map[], 0) && SomeFails(FailFast, map[], 0)
  {
    assert "a" in Batch.members && PassesGate(FailFast, map[], "a");
    assert "b" in Batch.members && FailsGate(FailFast, map[], "b");
  }

  lemma FailFastLegal()
    ensures Admits(FailFast, [], 0) && Legal(FailFast, [Halted, Started(0)])
  {
    hide Prepare, Legal;
    var log: Log := [];
    Appended(log, Halted);
    assert log + [Halted] == [Halted];
    StopIsLegal();
    AdmissionIsLegal();
    hide LegalEvent;
    LegalAppend(FailFast, [Halted], Started(0));
    assert [Halted] + [Started(0)] == [Halted, Started(0)];
  }

  lemma StopIsLegal()
    ensures Legal(FailFast, [Halted])
  {
    var log: Log := [];
    LegalAppend(FailFast, log, Halted);
    assert log + [Halted] == [Halted];
  }

  lemma AdmissionIsLegal()
    ensures LegalEvent(FailFast, [Halted], Started(0))
  {
    hide Prepare;
    var log: Log := [];
    Appended(log, Halted);
    assert log + [Halted] == [Halted];
  }

  lemma NothingRunsYet(s: State)
    requires s.blocked == []
    ensures Unstuck(FailFast, s)
  {
  }

  lemma Halts(engine: Engine)
    requires engine.Valid() && engine.config == FailFast && engine.log == [Halted, Started(0)]
    ensures engine.stop == Some(NotRun)
  {
    hide Inv, Admission, SerialOk, Legal, ActiveIn, StartedIn, FinishedIn;
    assert engine.log[0] == Halted;
  }

  /** And it does. */
  method StopAndAdmit() returns (engine: Engine)
    ensures fresh(engine) && engine.Valid() && engine.config == FailFast
    ensures engine.stop == Some(NotRun) && engine.log == [Halted, Started(0)]
  {
    hide ConfigOk, Inv, Admission, SerialOk, Legal, StopOf, FateOf, SomeFails, SomeReady, Admits, Prepare, Mirrors;
    FailFastOk();
    StopAdmitsItsBatch();
    engine := new Engine(FailFast);
    assert 0 in engine.ready;
    NothingRunsYet(engine.View());
    engine.ScheduleOne();
    assert engine.log == [] + [Halted, Started(0)];
    Halts(engine);
  }

  // ------------------------------------------------ a batch and its failure

  /** Accepts every input. */
  const Lenient := Host(Exec, {}, (tool, input) => true)

  /** Both calls, and both results declared as outputs. */
  const Pair := Plan(CURRENT_VERSION, Tools, [A, B], map["a" := ValueRef("a", []), "b" := ValueRef("b", [])])

  const PairGraph := Graph(map["a" := {}, "b" := {}], [["a", "b"]], map["a" := Free, "b" := Free])

  const Free := ResolvedEffects("t", true, true, {}, {}, false)

  function Plain(resource: Resource, input: Json): Resource {
    resource
  }

  lemma PairNodes()
    ensures Ids(Pair.nodes) == {"a", "b"} && DistinctIds(Pair.nodes)
    ensures NodeOf(Pair.nodes, "a") == A && NodeOf(Pair.nodes, "b") == B
    ensures NodeDeps(A) == {} && NodeDeps(B) == {}
  {
    assert Pair.nodes[0] == A && Pair.nodes[1] == B;
    assert Pair.nodes[1..] == [B];
  }

  lemma PairNodesValid()
    ensures ValidNode(Pair, A) && ValidNode(Pair, B)
  {
    PairNodes();
    hide NodeDeps, Ids;
  }

  lemma PairValid()
    ensures ValidPlan(Pair) && JsonInputs(Pair) && ListedInOrder(Pair)
  {
    PairNodes();
    PairNodesValid();
    hide ValidNode, NodeDeps, Ids;
    assert RankOk(DependenciesOf(Pair), map["a" := 0, "b" := 0]);
  }

  lemma PairEffects()
    ensures EffectsFor(A, EffectsOf(Pair, "t"), Plain) == Free && EffectsFor(B, EffectsOf(Pair, "t"), Plain) == Free
    ensures EffectsOfNodes(Pair, Plain) == PairGraph.effects && DependenciesOf(Pair) == PairGraph.dependencies
  {
    PairNodes();
    hide NodeDeps, Ids, NodeOf;
    var none: set<Resource> := {};
    assert (set r | r in none :: Plain(r, A.input)) == {} && (set r | r in none :: Plain(r, B.input)) == {};
    assert A.tool == "t" && B.tool == "t";
  }

  lemma PairLayering()
    ensures Layering(PairGraph.dependencies, PairGraph.effects, PairGraph.layers)
  {
    assert PairGraph.layers[..0] == [];
    assert Emitted([]) == {};
    assert Emitted(PairGraph.layers) == Members(["a", "b"]) == {"a", "b"};
    assert Less("a", "b");
    assert LayerOk(PairGraph.dependencies, PairGraph.effects, {}, ["a", "b"]);
  }

  lemma PairGraphOf()
    ensures GraphOf(Pair, Plain, PairGraph)
  {
    hide Layering, EffectsOfNodes, DependenciesOf;
    PairEffects();
    PairLayering();
  }

  lemma PairKeys()
    ensures DedupKey(Pair, A) != DedupKey(Pair, B)
  {
    Texts.Injective(A.input, B.input);
  }

  lemma PairUnmerged(aliases: Aliases)
    requires Deduped(Pair, aliases)
    ensures aliases == map[]
  {
    PairNodes();
    PairKeys();
    hide DedupKey, Ids;
    assert Pair.nodes[0] == A && Pair.nodes[1] == B;
    assert aliases.Keys == {};
  }

  lemma PairCandidates(layer: seq<NodeId>)
    requires layer == ["a", "b"]
    ensures Candidates(Pair, layer, "t") == layer && BatchTools(Pair, layer) == {"t"}
  {
    PairNodes();
    assert IsCandidate(Pair, "a") && IsCandidate(Pair, "b");
    assert layer[..1] == ["a"] && layer[..1][..0] == [];
    assert Candidates(Pair, ["a"], "t") == ["a"];
  }

  lemma PairGroups()
    ensures AllGroups(Pair, [["a", "b"]]) == [BatchGroup("t", ["a", "b"])]
  {
    var layer := ["a", "b"];
    PairCandidates(layer);
    hide Candidates, BatchTools;
    var tools := Sorted({"t"});
    assert |tools| == 1 && tools[0] in {"t"};
    assert tools == ["t"] && tools[..0] == [];
    var layers := [layer];
    assert layers[..0] == [];
    assert ToolsGroups(Pair, layer, []) == [];
    assert ToolGroups(Pair, layer, "t") == [BatchGroup("t", layer)];
  }

  lemma PairKept(first: Graph, kept: set<NodeId>)
    requires GraphOf(Pair, Plain, first) && Eliminated(Pair, first, kept)
    ensures Prune(Pair, kept) == Pair
  {
    PairNodes();
    assert Pair.outputs["a"].node in Roots(Pair, first) && Pair.outputs["b"].node in Roots(Pair, first);
    KeepEvery(Pair.nodes, kept);
  }

  /** Compiling leaves the plan as it is and groups both nodes. */
  lemma PairCompiles(o: Optimized)
    requires CompilesTo(Pair, Plain, o)
    ensures o == Optimized(Pair, PairGraph, [], [], [BatchGroup("t", ["a", "b"])])
  {
    hide Deduped, ValidPlan, GraphOf, Eliminated, Prune, AllGroups, AliasesOf, MergeReport, IdsOutside, Ids;
    var aliases, kept := AliasesOf(o.removed), Ids(o.plan.nodes);
    var first :| Compiled(Pair, Plain, aliases, first, kept, o.plan, o.graph, o.groups);
    PairUnmerged(aliases);
    PairKept(first, kept);
    PairGraphOf();
    GraphUnique(Pair, Plain, o.graph, PairGraph);
    PairGroups();
    PairReport();
  }

  lemma PairReport()
    ensures MergeReport(Pair.nodes, map[]) == [] && IdsOutside(Pair.nodes, Ids(Pair.nodes)) == []
  {
    EveryNode(Pair);
    assert Pair.nodes[..1] == [A] && Pair.nodes[..1][..0] == [];
    assert MergeReport([A], map[]) == [];
  }

  lemma PairApart()
    ensures EffectsApart(Pair, Plain)
  {
    hide Deduped, EffectsOfNodes;
    PairGraphOf();
    GraphEffects(Pair, Plain, PairGraph);
    forall aliases | Deduped(Pair, aliases)
      ensures Contracted(Pair, aliases) == Pair
    {
      PairUnmerged(aliases);
    }
  }

  /** Alone, the first call succeeds. */
  lemma PairAlone(a: Assignment)
    requires Meaning(Lenient, Pair, a)
    ensures a == map["a" := Done(Null), "b" := Failed(Coded("failed"))]
  {
    PairNodes();
    assert Means(Lenient, Tools, Pair.nodes[0], a) && Means(Lenient, Tools, Pair.nodes[1], a);
    assert DataDeps(A) == {} && DataDeps(B) == {};
  }

  /** What the batch sends, and the one answer it gets. */
  lemma PairSent(p: Program, a: Assignment)
    requires p.host == Lenient && p.tools == Tools && "a" in p.nodes && "b" in p.nodes && p.nodes["a"] == A
      && p.nodes["b"] == B
    ensures Prepare(p, "a", a).Ready? && Prepare(p, "b", a).Ready?
    ensures BatchResult(Exec, "t", PreparedMembers(p, ["a", "b"], a), "a") == Err(Coded("failed"))
    ensures BatchResult(Exec, "t", PreparedMembers(p, ["a", "b"], a), "b") == Err(Coded("failed"))
  {
    assert DataDeps(A) == {} && DataDeps(B) == {};
    var members := ["a", "b"];
    assert members[..1] == ["a"] && members[..1][..0] == [];
    var x, y := PreparedMember("a", Bool(true), None, true, None), PreparedMember("b", Bool(false), None, true, None);
    assert Prepare(p, "a", a) == Ready(x) && Prepare(p, "b", a) == Ready(y);
    hide Prepare;
    assert PreparedMembers(p, ["a"], a) == [x];
    assert PreparedMembers(p, members, a) == [x, y];
    PairAnswer(x, y);
  }

  lemma PairAnswer(x: PreparedMember, y: PreparedMember)
    requires x.input == Bool(true) && y.input == Bool(false)
    ensures Exec.callBatch("t", MemberInputs([x, y])) == Err(Coded("failed"))
  {
    var inputs := MemberInputs([x, y]);
    assert inputs[1..] == [BatchInput(y.node, y.input)];
    assert OneByOne(CallT, "t", inputs[1..]) == Err(Coded("failed"));
  }

  /** A program whose first unit is the two calls as one batch. */
  ghost predicate IsPair(p: Program) {
    && p.host == Lenient && p.tools == Tools && p.nodes == map["a" := A, "b" := B]
    && |p.units| > 0 && p.units[0].batch && p.units[0].tool == "t" && p.units[0].members == ["a", "b"]
  }

  lemma PairBuilt(c: Config)
    requires BuiltFor(Lenient, Pair, PairGraph, [BatchGroup("t", ["a", "b"])], c)
    ensures IsPair(c.program)
  {
    hide BuiltFor, Index;
    var groups := [BatchGroup("t", ["a", "b"])];
    assert groups[0] == BatchGroup("t", ["a", "b"]);
    BuiltParts(Lenient, Pair, PairGraph, groups, c);
    PairIndex();
  }

  lemma PairIndex()
    ensures Index(Pair.nodes) == map["a" := A, "b" := B]
  {
    PairNodes();
    hide Ids, NodeOf;
  }

  /** What the members of the batch end with. */
  lemma PairOutcomes(p: Program, a: Assignment)
    requires IsPair(p)
    ensures MembersKnown(p, 0)
    ensures "a" in p.units[0].members && UnitOutcome(p, 0, "a", a) == Failed(Coded("failed"))
    ensures "b" in p.units[0].members && UnitOutcome(p, 0, "b", a) == Failed(Coded("failed"))
  {
    PairSent(p, a);
    PreparedNode(p, "a", a);
    PreparedNode(p, "b", a);
    var members := ["a", "b"];
    assert "a" in members && "b" in members;
    hide Prepare, BatchResult, PreparedMembers, SingleResult;
  }

  /** Together, the second one's failure is both's. */
  lemma PairTogether(c: Config, ran: Assignment)
    requires IsPair(c.program) && ProgramOk(c.program) && Complete(c.program, ran) && NothingStopped(ran)
    ensures ran == map["a" := Failed(Coded("failed")), "b" := Failed(Coded("failed"))]
  {
    hide *;
    PairFails(c.program, ran, "a");
    PairFails(c.program, ran, "b");
  }

  lemma PairFails(p: Program, ran: Assignment, n: NodeId)
    requires IsPair(p) && ProgramOk(p) && Complete(p, ran) && NothingStopped(ran) && n in {"a", "b"}
    ensures ran.Keys == {"a", "b"} && ran[n] == Failed(Coded("failed"))
  {
    hide ProgramOk, Complete, NothingStopped, UnitOutcome;
    PairOutcomes(p, ran);
    OutcomeAt(p, n, ran);
    MembersAreNodes(p, 0);
  }

  lemma OutcomeAt(p: Program, n: NodeId, a: Assignment)
    requires ProgramOk(p) && Complete(p, a) && NothingStopped(a) && n in p.nodes
    ensures a.Keys == p.nodes.Keys && MembersKnown(p, p.unitOf[n]) && n in p.units[p.unitOf[n]].members
    ensures a[n] == UnitOutcome(p, p.unitOf[n], n, a)
  {
    UnitOfNode(p, n);
    MembersAreNodes(p, p.unitOf[n]);
    hide ProgramOk, UnitOutcome, UnitReady, Stopped;
    assert Explained(p, n, a);
  }

  /** Whatever the compiled run does, it shows nothing; the serial run shows the
      first call's output. */
  lemma FailingBatchDiffers(o: Optimized, c: Config, ran: Assignment, serial: Assignment)
    requires CompilesTo(Pair, Plain, o) && Meaning(Lenient, Pair, serial)
    requires BuiltFor(Lenient, o.plan, o.graph, o.groups, c) && ProgramOk(c.program) && Complete(c.program, ran)
      && NothingStopped(ran)
    ensures Visible(Pair, serial) == map["a" := Null] && Visible(o.plan, ran) == map[]
  {
    hide *;
    PairCompiles(o);
    PairAlone(serial);
    PairBuilt(c);
    PairTogether(c, ran);
    PairVisible();
  }

  lemma PairVisible()
    ensures Visible(Pair, map["a" := Done(Null), "b" := Failed(Coded("failed"))]) == map["a" := Null]
    ensures Visible(Pair, map["a" := Failed(Coded("failed")), "b" := Failed(Coded("failed"))]) == map[]
  {
    assert Walk(Null, []) == Some(Null);
  }

  /** The two runs of a valid plan, with the default batch adapter, differ. */
  method FailingBatchRuns() returns (compiled: Report, serial: Report)
    ensures ValidPlan(Pair) && DefaultBatch(Exec)
    ensures compiled.values == map[] && serial.values == map["a" := Null]
  {
    hide *;
    ExecIsDefault();
    PairValid();
    PairApart();
    var options := Options(false, None, false, false);
    PairRunning(options);
    compiled, serial := OptimizedRunEqualsSerialRun(Lenient, Pair, Plain, options);
    ghost var outcome, o, c, ran :| Agreement(Lenient, Pair, Plain, options, compiled, serial, outcome, o, c, ran);
    AgreementShows(options, compiled, serial, outcome, o, c, ran);
  }

  lemma PairRunning(options: Options)
    requires options == Options(false, None, false, false)
    ensures !options.serial && Running(Pair, options) && |Pair.nodes| <= MAX_KEY
  {
  }

  lemma AgreementShows(options: Options, compiled: Report, serial: Report, outcome: Assignment, o: Optimized, c: Config,
      ran: Assignment)
    requires options == Options(false, None, false, false)
    requires Agreement(Lenient, Pair, Plain, options, compiled, serial, outcome, o, c, ran)
    ensures compiled.values == map[] && serial.values == map["a" := Null]
  {
    hide BuiltFor, ProgramOk, Complete, NothingStopped, CompilesTo, Meaning, Visible, SameReport, BatchesPointwise,
      BatchesAgree, BatchesSucceed,
      Remaining, DataRank, Unbatched, SkipsOf, ErrorsOf, Unresolved;
    PairCompiles(o);
    PairRunning(options);
    FailingBatchDiffers(o, c, ran, outcome);
  }
}
