# Compile-and-execute pipeline: a verified model

A plan is a list of tool calls (nodes) with references between them and declared
effects. It is compiled in three passes, deduplication, dead-node elimination and
batching, and then run by a dependency-driven scheduler that a resource lock table
and an output cache keep safe. This project models that pipeline in Dafny and proves
what it is for: **a compiled, batched, parallel run shows the same declared outputs
as a serial run of the plan as written.**

`dafny verify dfyconfig.toml` checks everything.

## How the files fit together

| file | what it holds |
|---|---|
| `Json`, `Strings`, `Canonical` | JSON values, key order, canonical text and why it is injective |
| `Refs`, `Resolve` | references: print, parse, collect, resolve, redirect through aliases |
| `Paths`, `Items`, `References` | what a path reads, what a fan-out sends for an item, and which references a node holds, stated of the values |
| `Plan`, `Calls`, `Semantics` | the plan IR; what one dispatch computes; what one unit's outcome is, given the others' |
| `Evaluation`, `Meaning` | two reference meanings: unit by unit by rank, and node by node with no units at all |
| `Gates`, `FanOuts` | when a node runs, and which call's answer or failure it ends with, stated of its references and the adapter |
| `BatchRuns`, `PartialRuns` | when a batched run is the node-by-node meaning; runs cut short and runs through the cache |
| `Locks`, `Layers`, `Graph` | lock table, Kahn layering, validation |
| `KeyText` | the string deduplication compares, and when it determines its parts |
| `Optimizer`, `Batching` | deduplication, dead-node elimination, batch groups, units and unit graph |
| `Declared`, `Groups` | which nodes share a layer, what units lock and which calls share a batch, stated of what the tools declare |
| `Scheduling`, `History`, `Engine` | scheduler invariant, run log, and the engine that keeps both |
| `RunSafety` | what may run side by side and how much of it, over every legal log |
| `Store`, `Serializability` | overlapping units over a shared store |
| `Coherence`, `EngineCoherence`, `StaleHit` | cache hits over a run, over every run of the engine, and where they go stale |
| `Cache`, `Dispatch` | the LRU cache; single, batch and fan-out dispatch through it |
| `BitMatrix`, `Explain`, `Cost` | the bitset order index and its diagnostics; cost estimates |
| `Pipeline` | compile, execute, and the central claim |
| `Counterexamples` | the inputs behind the findings below |

The meaning of a run is a *consistent assignment*: every node's outcome is the one its
unit computes from the outcomes of what it refers to, or a record that the engine
stopped first. The scheduler's invariant says that what it has recorded so far is
consistent; `Semantics.Unique` says that consistency leaves no choice; so neither
completion order, nor priorities, limits, locks or blocked retries can show in the
result.

## What the proofs found

- **A fail-fast stop does not hold back its own batch** (scheduler.rs:155-183).
  `Counterexamples.StopAndAdmit` is an engine with two calls in one batch, the second
  failing its input schema: the engine stops, then admits the batch. A unit is admitted
  after the stop exactly when the run fails fast, one of its members fails a gate, another
  passes, and limits and locks would have let it run anyway: all known before the unit is
  handled (`Engines.Engine.Handle`, `Engines.AdmittedAfterStop`). Nothing else ever is
  (`History.Legal`).
- **Deduplication can reject a valid plan.** A pure merge ignores `depends_on`. If a
  node is listed before a duplicate it waits for, it is made to depend on itself
  (`Optimizers.OutOfOrderBreaks`). `Optimizers.ContractedValid` gives the exact condition,
  `Optimizers.InOrderStaysAcyclic` the one a caller can read off the list.
- **One failing call fails its whole batch**, so a compiled run need not show what the
  serial run shows. `Counterexamples.FailingBatchRuns` is about a valid plan of two calls of
  which one fails: serially the other's output is there, compiled there is none.
  The compiled run ends with the serial outcomes exactly when each batch call answers its
  members as their own calls would (`BatchRuns.BatchedRunIsMeaning`, for any adapter); with
  the default `call_batch`, exactly when no batch sends a failing call together with one
  that ends differently (`BatchRuns.DefaultBatchedRunIsMeaning`). Members that fail or skip
  before they are sent do not matter. Both conditions are about the serial run alone.
- **A failed write is never dropped from the cache, and neither is an undeclared one**
  (scheduler.rs:360-382): what a unit's end invalidates are the declared writes of its
  members that succeeded (`EngineCoherence.Dropped`). Hits are fresh over every run in which
  whoever changes a resource declares it and reports success
  (`EngineCoherence.EngineHitsAreFresh`). A fan-out whose first item writes and whose second
  fails, or a tool without declared effects, leaves a stale entry behind that a later lookup
  returns (`StaleHits.StaleHit`).
- **Deduplication keys can collide when a tool's name holds a NUL** (`KeyTexts.NulToolsCollide`);
  otherwise the joined string determines its parts (`KeyTexts.KeyTextIsKey`). The ordering
  context in it is joined by commas, which node ids may hold: waiting for `a,b` and waiting
  for `a` and `b` look alike (`Optimizers.CommasCollide`); without commas in ids it
  determines what is waited for (`Optimizers.JoinDetermines`).
- **A node that declares a resource as both read and written panics on admission**, exactly
  when it is compatible with everything held (`Locks.LockTable.TryAcquire`,
  `Counterexamples.ReadWritePanics`).

## Assumptions

- Node ids are distinct when deduplication runs (it precedes validation).
- An adapter answers from the tool and the inputs alone (`Calls.Executor`); for
  serializability and coherence, from the declared resources as well. The central claim
  asks no more of it. Where a batch call must answer for its members, an adapter is
  *honest*: a batch whose calls would all succeed returns each input's output under the
  input's name, in any order (`Calls.Honest`).
- Where outputs of a batch are cached, an adapter is *faithful*: for a batch whose names are
  distinct, an output it returns for an input is what that input's own call returns
  (`Dispatching.Faithful`). The default `call_batch` is honest and faithful
  (`Calls.DefaultIsHonest`, `Dispatching.DefaultIsFaithful`).
- The resolved reads and writes of each node of the plan, as written and once its
  references were redirected to merged nodes, are disjoint; pure tools declare no writes.
- Filling resource templates is given from outside (`Graphs.Templates`).
- For cache coherence: a node that changes a resource declares to write it, and reports a
  value, not an error (`EngineCoherence.Accounted`); cacheable tools do not write; a cache
  key's recorded reads cover what its call reads.
- For serializability: steps of two units of one tool that claims to be commutative commute
  where the lock table lets the units overlap.

## Model

| member | source | states |
|---|---|---|
| Pipeline.OptimizedRunEqualsSerialRun | crates/tool-compiler-runtime/tests/property.rs:137-164 | Compiles and runs a plan in parallel, runs it serially as written, and relates the reports: the same outcome on every remaining node, the same declared outputs, errors and skips, exactly when each batch of the serial outcomes answers its members one by one; any adapter, completion order, limits and priorities |
| Pipeline.OptimizedMatchesSerial | crates/tool-compiler-runtime/tests/property.rs:137-164 | The same for any two finished runs, with the exact condition for any adapter, the exact condition for the default adapter, and the one an honest adapter needs |
| Pipeline.CompilationKeepsMeaning | crates/tool-compiler-optimizer/src/lib.rs:136-165 | Deduplication followed by elimination leaves the outcome of every remaining node and the value or absence of every declared output |
| Pipeline.Compile | crates/tool-compiler-optimizer/src/lib.rs:136-165 | Succeeds exactly when the plan with equal nodes merged is valid, yielding the compiled plan, its graph (rebuilt after elimination), its report and its groups; otherwise names a fault that plan has |
| Pipeline.CompilationUnique | crates/tool-compiler-optimizer/src/lib.rs:136-165 | A plan compiles in at most one way: merges, kept nodes, layers, groups and report follow from the plan |
| Pipeline.Execute | crates/tool-compiler-runtime/src/engine.rs:87-245 | Building an engine and running it ends with an outcome for every node, a report that shows exactly that outcome's values, errors and skips, and nothing stopped when nothing could stop it |
| Pipeline.MeaningOfProgram | crates/tool-compiler-runtime/src/engine.rs:134-174 | Cutting a plan into units does not change what its nodes mean one by one |
| BatchRuns.BatchedRunIsMeaning | crates/tool-compiler-runtime/src/dispatch.rs:173-280 | For any adapter, a finished batched run is the node-by-node meaning exactly when each batch that meaning sends answers its members as their own calls would |
| BatchRuns.DefaultBatchedRunIsMeaning | crates/tool-compiler-adapter-api/src/lib.rs:35-48 | With the default batch, exactly when no batch sends a failing call with one that ends differently |
| BatchRuns.HonestBatches | crates/tool-compiler-adapter-api/src/lib.rs:29-34 | With an honest adapter, batches that send no failing call answer member by member |
| BatchRuns.BatchUnitIsSolo | crates/tool-compiler-runtime/src/dispatch.rs:173-280 | A batch unit reports for all its members what each would alone exactly when its call answers the members it sends one by one |
| BatchRuns.MeaningIsComplete | crates/tool-compiler-runtime/src/scheduler.rs:189-254 | The node-by-node meaning is what running the units ends with when batches answer member by member |
| BatchRuns.UnbatchedIsMeaning | crates/tool-compiler-runtime/src/scheduler.rs:189-254 | A finished run of single units is the node-by-node meaning |
| Counterexamples.FailingBatchDiffers | crates/tool-compiler-runtime/tests/property.rs:137-164 | On a plan of two calls, one failing, every compiled run shows no output and the serial run shows one |
| Counterexamples.FailingBatchRuns | crates/tool-compiler-runtime/tests/property.rs:137-164 | Both runs of that plan, and that they differ |
| Engines.Engine.Run | crates/tool-compiler-runtime/src/scheduler.rs:45-138 | Terminates with every node in exactly one of outputs, errors and skipped, all locks and permits free, a legal log, and the evaluation of the program whenever it did not stop |
| Engines.Engine.constructor | crates/tool-compiler-runtime/src/scheduler.rs:50-56 | Counters are dependency counts; exactly the units with none are ready |
| Engines.Engine.Schedule | crates/tool-compiler-runtime/src/scheduler.rs:147-184 | Empties the ready queue, keeping the whole invariant and, under positive limits, blocking units only while another runs |
| Engines.Engine.Pop | crates/tool-compiler-runtime/src/scheduler.rs:39-42 | Takes the ready unit with the highest key, ties to the lower index |
| Engines.Engine.Gate | crates/tool-compiler-runtime/src/scheduler.rs:199-240 | The branches of gating compute exactly the preparation function of the recorded outcomes, which the `Gates` rows describe |
| Gates.ReadyWhen | crates/tool-compiler-runtime/src/scheduler.rs:199-284 | A node is dispatched exactly when nothing it refers to failed or was skipped, its condition asks for the value its target has, its tool is not blocked, and its input resolves and fits |
| Gates.SkippedForDependency | crates/tool-compiler-runtime/src/scheduler.rs:202-209 | A node is skipped for a failed dependency exactly when its input, items or condition refer to a dead node |
| Gates.SkippedUnlessEqual | crates/tool-compiler-runtime/src/scheduler.rs:211-222 | With `equals`, a node is skipped exactly when the target is another value, and when negated exactly when it is that value |
| Gates.SkippedUnlessTruthy | crates/tool-compiler-runtime/src/scheduler.rs:304-311 | Without `equals`, exactly on null and false, and when negated exactly on everything else |
| Gates.UnresolvedConditionFails | crates/tool-compiler-runtime/src/scheduler.rs:218-221 | A condition whose target does not resolve fails its node with the code of that fault |
| Gates.BlockedToolFails | crates/tool-compiler-runtime/src/scheduler.rs:225-235 | A node that gets that far and calls a blocked tool fails as `blocked_tool` |
| Gates.MisfitFails | crates/tool-compiler-runtime/src/scheduler.rs:256-284 | Which code an input fails with that does not resolve, is no array to expand, or is rejected by its tool |
| Gates.ReadyWith | crates/tool-compiler-runtime/src/scheduler.rs:286-301 | A ready node is dispatched with its resolved input and items and its tool's batching declarations |
| Gates.FailedDependencyIs | crates/tool-compiler-runtime/src/scheduler.rs:413-447 | Over a whole run, stopped or not, a node is skipped for a failed dependency exactly when something it refers to ended without an output |
| Gates.OneCallDecides | crates/tool-compiler-runtime/src/scheduler.rs:385-393 | A node whose gates are open ends with its call's output, or with its call's error |
| Gates.ValidatedInputResolves | crates/tool-compiler-runtime/src/refs.rs:14-47 | An input validation accepts never fails as a malformed reference |
| Engines.Engine.PrepareMembers | crates/tool-compiler-runtime/src/scheduler.rs:189-254 | Settles exactly the members that fail a gate and dispatches exactly the others, if any, and finishes the unit otherwise; stops the engine exactly when it fails fast and a member fails, and returns the survivors even then |
| Engines.Engine.Handle | crates/tool-compiler-runtime/src/scheduler.rs:155-184 | What one popped unit adds to the log: its end if the engine had stopped, else the stop it causes and whether it finishes, is admitted or waits, from what is known before |
| Engines.AdmittedAfterStop | crates/tool-compiler-runtime/src/scheduler.rs:155-184 | A unit is admitted right after the stop exactly when the run fails fast, a member fails its gates, another passes, and limits and locks allow it |
| Counterexamples.StopAdmitsItsBatch | crates/tool-compiler-runtime/src/scheduler.rs:155-184 | A fail-fast batch of two, one failing its schema, whose legal log admits it after the stop |
| Counterexamples.StopAndAdmit | crates/tool-compiler-runtime/src/scheduler.rs:155-184 | The engine run that does so |
| Engines.Engine.TryAdmit | crates/tool-compiler-runtime/src/scheduler.rs:313-342 | Admits exactly when limits and the locks of active units allow it, and a refusal under positive limits means something is running |
| RunSafety.SideBySide | crates/tool-compiler-runtime/src/scheduler.rs:313-342 | In every legal log, of two nodes active together neither writes what the other reads, both declare their effects, and both write one resource only as calls of one commutative tool |
| RunSafety.LimitsHold | crates/tool-compiler-runtime/src/scheduler.rs:313-342 | In every legal log, no more units of a tool are active than the plan declares, nor more units than the run allows |
| Engines.Engine.Release | crates/tool-compiler-runtime/src/scheduler.rs:344-351 | Gives back the unit's lock and permits, whichever unit it is |
| Engines.Engine.Absorb | crates/tool-compiler-runtime/src/scheduler.rs:353-393 | Every member of a dispatched unit gets the outcome its unit computes |
| Engines.Engine.SettleUnit | crates/tool-compiler-runtime/src/scheduler.rs:413-447 | Settles exactly the unsettled members, as failed dependencies where something they refer to is dead and for the given reason otherwise, keeps earlier outcomes, and frees dependents |
| Engines.Engine.Unblock | crates/tool-compiler-runtime/src/scheduler.rs:462-474 | Counts down the dependents of a finished unit and readies exactly those that reach zero |
| Engines.Engine.Requeue | crates/tool-compiler-runtime/src/scheduler.rs:141-145 | Every blocked unit is ready again, none is lost |
| Engines.Engine.Join | crates/tool-compiler-runtime/src/scheduler.rs:114-134 | A completed unit is released, absorbed and finished, once |
| Engines.Engine.SettleLeftovers | crates/tool-compiler-runtime/src/scheduler.rs:86-97 | The fallback settles nothing under positive limits, and makes progress otherwise |
| Engines.Engine.Finish | crates/tool-compiler-runtime/src/finish.rs:17-92 | The safety net settles nothing when all nodes are settled; declared outputs are those that resolve; an unresolved one is an error unless its node died; the status follows |
| Engines.Busy | crates/tool-compiler-runtime/src/scheduler.rs:313-342 | A limit or lock that refuses a unit is held by a running one, so with nothing running a retry succeeds |
| Engines.LostAndKept | crates/tool-compiler-runtime/src/scheduler.rs:199-254 | A unit that lost a member to preparation and kept another is a batch |
| Scheduling.PlacedIsReady | crates/tool-compiler-runtime/src/scheduler.rs:462-474 | Everything a ready, blocked or running unit refers to is settled |
| Scheduling.RecordStep | crates/tool-compiler-runtime/src/scheduler.rs:385-411 | Recording an outcome for the unit in hand keeps the invariant of all others |
| Scheduling.FinishStep | crates/tool-compiler-runtime/src/scheduler.rs:462-474 | Each unit stays in exactly one place and the counters stay exact when one finishes |
| Scheduling.RunEnds | crates/tool-compiler-runtime/src/scheduler.rs:70-73 | With nothing ready, blocked or running, every unit is finished and every node settled |
| Semantics.Unique | crates/tool-compiler-runtime/src/scheduler.rs:189-254 | Two complete consistent assignments that agree on what was stopped are equal |
| Semantics.PrepareFootprint | crates/tool-compiler-runtime/src/engine.rs:66-84 | A node is prepared from the outcomes of its data dependencies alone |
| PartialRuns.PartialRunsAreSound | crates/tool-compiler-runtime/src/scheduler.rs:385-393 | What a fail-fast or cancelled run reports for a node, batched or not, the full run reports too, when the full run's batches send no failing call |
| PartialRuns.CachedRunsAreSound | crates/tool-compiler-runtime/src/dispatch.rs:81-101 | A run through a truthful cache ends with the meaning, whatever was found there, when no batch and no batchable fan-out sends a failing call |
| PartialRuns.CachedRunIsMeaning | crates/tool-compiler-runtime/src/dispatch.rs:81-101 | Given what the lookups found, a finished run through the cache is the meaning exactly when no unit of the meaning would report anything but its members' own results |
| PartialRuns.DefaultBatchHits | crates/tool-compiler-runtime/src/dispatch.rs:173-280 | With the default batch, hits do not show exactly when the members still sent all succeed or all fail alike |
| Evaluation.EvaluateIsComplete | crates/tool-compiler-runtime/src/scheduler.rs:189-254 | Recursive evaluation over data dependencies is a complete outcome with nothing stopped |
| Evaluation.CompleteIsEvaluation | crates/tool-compiler-runtime/src/scheduler.rs:45-254 | Every complete outcome with nothing stopped is that evaluation: confluence |
| History.SerialIncreases | crates/tool-compiler-runtime/src/engine.rs:189-205 | A serial run admits units in strictly increasing position |
| History.SerialStart | crates/tool-compiler-runtime/src/scheduler.rs:141-184 | With nothing running or blocked, the foremost ready unit is the first unfinished one |
| History.FirstUnfinished | crates/tool-compiler-runtime/src/engine.rs:189-205 | The first unfinished unit of the serial order waits for nothing |
| History.WithoutOne | crates/tool-compiler-runtime/src/scheduler.rs:344-351 | Removing an active unit removes its one lock and one permit, wherever it stood |
| Locks.LockTable.TryAcquire | crates/tool-compiler-runtime/src/locks.rs:70-116 | Refuses exactly when some held request is incompatible, panics exactly when granted to a self-conflicting request, and otherwise adds the request |
| Counterexamples.ReadWritePanics | crates/tool-compiler-runtime/src/locks.rs:87-112 | With nothing else held, reading and writing one resource panics |
| Locks.LockTable.Release | crates/tool-compiler-runtime/src/locks.rs:136-165 | Removes one copy of the request from the held multiset, in any order of release |
| Locks.TableOfMultiset | crates/tool-compiler-runtime/src/locks.rs:15-22 | The table is a function of the multiset of held requests |
| Locks.IsCompatibleIsPairwise | crates/tool-compiler-runtime/src/locks.rs:118-133 | The per-resource test decides compatibility with every held request |
| Locks.LocksMirrorEffects | crates/tool-compiler-graph/src/lib.rs:126-144 | For single nodes, lock compatibility is `can_run_with` |
| Locks.BatchLockCovers | crates/tool-compiler-runtime/src/engine.rs:139-141 | A merged batch lock keeps out whatever any member would |
| Locks.BatchLockDisjoint | crates/tool-compiler-runtime/src/engine.rs:139-141 | Members that may run together merge into a lock that does not contradict itself |
| Layers.LayerState.AdmitsIsPairwise | crates/tool-compiler-graph/src/layers.rs:41-64 | The aggregate admission test equals the pairwise one |
| Layers.LayerState.Absorb | crates/tool-compiler-graph/src/layers.rs:66-82 | The aggregates stand for the absorbed members |
| Layers.SafeLayers | crates/tool-compiler-graph/src/layers.rs:88-155 | Succeeds exactly on acyclic graphs, with layers that partition the nodes, follow dependencies, hold no conflicting pair and leave out only nodes that conflict with an earlier member; otherwise names the least node that is on a cycle or depends on one |
| Layers.DependencyEarlier | crates/tool-compiler-graph/src/layers.rs:131-141 | Every dependency lies in a strictly earlier layer |
| Layers.LayeringUnique | crates/tool-compiler-graph/src/layers.rs:113-143 | A graph has exactly one such layering |
| Graphs.Validate | crates/tool-compiler-graph/src/lib.rs:148-178 | Accepts exactly the valid acyclic plans, with their graph; an error names a fault the plan has; what the graph's layers mean is in the `Declared` rows |
| Declared.ResolvedAre | crates/tool-compiler-graph/src/lib.rs:97-119 | A node reads and writes exactly the resources its tool's templates give on its input, and commutes exactly when its tool says so |
| Declared.RunTogetherIs | crates/tool-compiler-graph/src/lib.rs:126-144 | `can_run_with` holds exactly when neither node writes what the other reads and common writes are calls of one commutative tool, both declaring their effects |
| Declared.LayerMatesMayRunTogether | crates/tool-compiler-graph/src/layers.rs:113-143 | Any two nodes of one layer of a validated plan may run together in that sense |
| Declared.UndeclaredIsAlone | crates/tool-compiler-graph/src/lib.rs:121-129 | A node whose tool declares nothing is alone in its layer |
| Declared.HeldBackForReason | crates/tool-compiler-graph/src/layers.rs:113-143 | A node whose dependencies are earlier is left out of a layer only for an earlier member it may not run with |
| Declared.UnitLockIs | crates/tool-compiler-runtime/src/engine.rs:136-174 | The lock of a unit covers exactly the resources its members' tools declare to read and write, and everything if one declares nothing |
| Declared.UnitIs | crates/tool-compiler-runtime/src/engine.rs:134-174 | A unit calls its members' tool, is a batch exactly when it has several, and its priority is the cost of one dispatch of them all |
| Layers.EmittedLeadsNowhere | crates/tool-compiler-graph/src/layers.rs:113-143 | No layered node is on a cycle or depends on one |
| Layers.StuckLeads | crates/tool-compiler-graph/src/layers.rs:144-151 | Every node left over is on a cycle or depends on one |
| Graphs.CollectDependencies | crates/tool-compiler-graph/src/lib.rs:281-312 | The dependency map is explicit edges, references, items and conditions of each node, or an error the plan has |
| References.CollectsHeld | crates/tool-compiler-ir/src/refs.rs:177-219 | Collecting finds exactly the references that stand in the input outside literals, and refuses exactly the inputs with a malformed one |
| References.DataDepsAre | crates/tool-compiler-runtime/src/engine.rs:66-84 | A node's data dependencies are exactly what its input, items and condition refer to |
| References.DependenciesAre | crates/tool-compiler-graph/src/lib.rs:281-312 | Its dependencies are those and its explicit edges |
| Graphs.Retain | crates/tool-compiler-graph/src/lib.rs:55-75 | Restricts dependencies and effects and layers them anew |
| Graphs.RetainIsValidate | crates/tool-compiler-graph/src/lib.rs:47-75 | On a dependency-closed set this is the graph validation would build for the pruned plan, layers included |
| Meanings.MeaningUnique | crates/tool-compiler-runtime/src/scheduler.rs:189-254 | A valid plan has at most one node-by-node meaning |
| Meanings.PruneKeepsMeaning | crates/tool-compiler-optimizer/src/lib.rs:252-261 | Nodes kept with all they depend on keep their outcomes |
| Optimizers.DeduplicateNodes | crates/tool-compiler-optimizer/src/lib.rs:179-217 | Merges exactly the nodes whose key was seen into the first such node, reports them in order, and rewrites the rest through the aliases; each merge is right and none is left, in the sense of `Optimizers.MergesAreRight` |
| Optimizers.MergesAreRight | crates/tool-compiler-optimizer/src/lib.rs:179-217 | A removed node makes the same call, of a tool that declares it pure or cacheable, as an earlier node that stays, with the same joined `depends_on` unless pure; no two nodes that stay do |
| Optimizers.KeysAre | crates/tool-compiler-optimizer/src/lib.rs:318-342 | Keys exist and are equal exactly for such nodes |
| Optimizers.JoinDetermines | crates/tool-compiler-optimizer/src/lib.rs:332-339 | Joined `depends_on` lists are equal exactly when the lists are, for ids without commas |
| Optimizers.CommasCollide | crates/tool-compiler-optimizer/src/lib.rs:332-339 | With commas they are not: two different lists of valid ids join to one string |
| Optimizers.DedupUnique | crates/tool-compiler-optimizer/src/lib.rs:179-200 | The plan alone decides which nodes merge into which |
| Optimizers.RewriteNodeAliases | crates/tool-compiler-optimizer/src/lib.rs:344-359 | Following alias chains in place yields the node over canonical ids |
| Optimizers.SameKeySameCall | crates/tool-compiler-optimizer/src/lib.rs:318-342 | Equal keys mean the same tool, input, items and condition |
| KeyTexts.KeyTextIsKey | crates/tool-compiler-optimizer/src/lib.rs:318-342 | For tools named without NUL, the joined key strings of two nodes are equal exactly when the parts are |
| KeyTexts.NulToolsCollide | crates/tool-compiler-optimizer/src/lib.rs:324-339 | With a NUL in a tool's name, two different calls share a key string |
| Optimizers.AliasSameOutcome | crates/tool-compiler-optimizer/src/lib.rs:179-200 | A merged node has the outcome of the node it was merged into |
| Optimizers.PrepareRewritten | crates/tool-compiler-optimizer/src/lib.rs:344-396 | A rewritten node is gated and resolved from the survivors as the original is from all nodes |
| Optimizers.DedupKeepsMeaning | crates/tool-compiler-optimizer/src/lib.rs:179-217 | Deduplication keeps survivors' outcomes and declared outputs, with conditions and fan-out |
| Optimizers.ContractedValid | crates/tool-compiler-optimizer/src/lib.rs:142-143 | The deduplicated plan is valid exactly when merging equal nodes leaves the dependency graph acyclic |
| Optimizers.InOrderStaysAcyclic | crates/tool-compiler-optimizer/src/lib.rs:179-217 | A plan listed in dependency order stays acyclic |
| Optimizers.OutOfOrderBreaks | crates/tool-compiler-optimizer/src/lib.rs:332-339 | A valid two-node plan that deduplication turns into a self-reference |
| Optimizers.MarkLive | crates/tool-compiler-optimizer/src/lib.rs:230-250 | The stack walk marks exactly the least dependency-closed set with the roots |
| Optimizers.EliminateDeadNodes | crates/tool-compiler-optimizer/src/lib.rs:219-262 | Keeps exactly the live nodes, reports the others in order, and keeps all when no outputs are declared |
| Optimizers.KeptAreNeeded | crates/tool-compiler-optimizer/src/lib.rs:219-262 | With declared outputs, a node is kept exactly when a chain of dependencies leads to it from a node an output reads or whose tool is not declared pure |
| Graphs.KeepOrder | crates/tool-compiler-optimizer/src/lib.rs:252-261 | Pruning keeps exactly the nodes asked for, in the order they stood |
| Optimizers.EliminationKeepsMeaning | crates/tool-compiler-optimizer/src/lib.rs:219-262 | Elimination keeps the plan valid, the kept outcomes, and every declared output |
| Batching.FindBatchGroups | crates/tool-compiler-optimizer/src/lib.rs:264-316 | Per layer and tool, the candidates in layer order, cut by batch size, without chunks of one |
| Batching.GroupsAreOk | crates/tool-compiler-optimizer/src/lib.rs:264-316 | Groups share no node; each lies in one layer, calls one batchable tool, expands nothing and fits the batch size |
| Groupings.GroupsAreBatches | crates/tool-compiler-optimizer/src/lib.rs:264-316 | In each layer, a tool's groups are exactly all its batchable nodes in order, or, under a batch size, their consecutive chunks of that size with the rest as the last, chunks of one left out |
| Batching.GroupLockOk | crates/tool-compiler-optimizer/src/lib.rs:264-316 | Every grouped node declares its effects, and the group's lock does not contradict itself |
| Batching.LeftOnItsOwn | crates/tool-compiler-optimizer/src/lib.rs:294-312 | A batchable node stays alone only with batch size one or as the odd one of its layer |
| Batching.BuildUnits | crates/tool-compiler-runtime/src/engine.rs:134-174 | Units partition the nodes, one per group and one per remaining node, with their counts |
| Batching.WireUnits | crates/tool-compiler-runtime/src/engine.rs:176-187 | Unit edges are exactly the node dependencies between different units, and dependents their transpose |
| Batching.BuiltIsOk | crates/tool-compiler-runtime/src/engine.rs:134-187 | The unit graph is acyclic, covers every reference, and no unit's lock contradicts itself |
| Batching.NewConfig | crates/tool-compiler-runtime/src/engine.rs:87-245 | What the engine is built from satisfies everything a run needs; serial keys are inverted positions of a dependency order |
| Batching.FlattenTopological | crates/tool-compiler-runtime/src/engine.rs:189-197 | Flattened layers list each node once, after all it depends on |
| Calls.BatchIsPointwise | crates/tool-compiler-adapter-api/src/lib.rs:29-39 | A batch in which no call fails gives each member its own call's output |
| Calls.BatchPoisons | crates/tool-compiler-adapter-api/src/lib.rs:35-48 | With the default batch, members get their own results exactly when none fails or all fail alike |
| Calls.IndexNameParses | crates/tool-compiler-runtime/src/fanout.rs:109-124 | An item index written as a batch name parses back |
| FanOuts.CalledOneByOne | crates/tool-compiler-runtime/src/fanout.rs:139-160 | Item by item, the output lists the calls' outputs in order, or the failure is the first failing item's, under its code or as `item_failed` |
| FanOuts.CalledInChunks | crates/tool-compiler-runtime/src/fanout.rs:99-137 | In chunks of the batch size, each item has the last output that names it in its chunk's answer, or the failure is the first failing chunk's own or `batch_missing_output` |
| FanOuts.BatchMemberIs | crates/tool-compiler-runtime/src/dispatch.rs:213-279 | A batch member has the last output under its name in the answer to the whole batch, or misses it, or fails with the call |
| Dispatching.DispatchSingle | crates/tool-compiler-runtime/src/dispatch.rs:103-171 | Through a truthful cache the result is the call's own, and the cache stays truthful |
| Dispatching.DispatchBatch | crates/tool-compiler-runtime/src/dispatch.rs:173-280 | One result per member: hits keep their own output, the rest share one batch call; pointwise when none fails |
| Dispatching.DispatchFanOut | crates/tool-compiler-runtime/src/fanout.rs:16-97 | The result, failures included, is a function of the member and the items found: those not found are sent once, one by one or in chunks, up to the first failure; it is the cache-free result for unbatchable tools and whenever it is a value; the items' inputs are those of the `Items` rows |
| Items.PathMarker | crates/tool-compiler-runtime/src/refs.rs:84-94 | A marker stands for what its path, cut at the dots, reads from the item, and is an error where the path leads nowhere |
| Items.KeyMarker | crates/tool-compiler-runtime/src/refs.rs:114-123 | A key reads that member of an object item, or is an error if there is none |
| Items.IndexMarker | crates/tool-compiler-runtime/src/refs.rs:114-123 | An index reads that element of an array item, or is an error past its end |
| Items.DotMarker | crates/tool-compiler-runtime/src/refs.rs:114-123 | A key joined by a dot to a path reads what the path reads from the key's value |
| Items.EmptyMarker | crates/tool-compiler-runtime/src/refs.rs:114-117 | The empty marker is the item |
| Items.ArrayTemplate | crates/tool-compiler-runtime/src/refs.rs:105-109 | Arrays keep their length and each element is filled; one that cannot be filled fails the whole |
| Items.ObjectTemplate | crates/tool-compiler-runtime/src/refs.rs:99-103 | Objects keep their keys and each member is filled |
| Items.MarkerFreeStays | crates/tool-compiler-runtime/src/refs.rs:80-112 | A template without markers is sent as it is |
| Items.ItemInputsAre | crates/tool-compiler-runtime/src/fanout.rs:30-43 | The inputs of a fan-out are its items' own, in order; it fails as `invalid_item` exactly when an item does not fit |
| Dispatching.UncachedFanOut | crates/tool-compiler-runtime/src/fanout.rs:16-97 | With nothing found that function is the cache-free fan-out, errors included |
| Dispatching.CachedFanOutIsOwn | crates/tool-compiler-runtime/src/fanout.rs:16-97 | Whatever is found, it is the cache-free fan-out for unbatchable tools and when no item fails |
| Dispatching.DefaultIsFaithful | crates/tool-compiler-adapter-api/src/lib.rs:35-48 | The default batch returns for each input what the input's own call does |
| Dispatching.DispatchUnit | crates/tool-compiler-runtime/src/dispatch.rs:81-101 | A batch, or fan-outs and single calls: what each member is reported as, from the unit's members and what the lookups found |
| Dispatching.FanOutIsMap | crates/tool-compiler-runtime/src/fanout.rs:99-160 | Fan-out is a map over the items for every chunk size |
| Dispatching.RunBatched | crates/tool-compiler-runtime/src/fanout.rs:99-137 | Pending items are sent once, in chunks, and each slot gets its own item's output |
| Dispatching.RunSequential | crates/tool-compiler-runtime/src/fanout.rs:139-160 | Pending items are called in order up to the first failure, which is reported |
| Dispatching.AddTruthful | crates/tool-compiler-runtime/src/cache.rs:12-29 | A stored output answers for its own adapter, tool, version and input alone |
| Caches.MemoryCache.Get | crates/tool-compiler-runtime/src/cache.rs:157-181 | Returns the listed output and moves the entry to the recently used end |
| Caches.MemoryCache.Insert | crates/tool-compiler-runtime/src/cache.rs:183-210 | Replaces the key's entry, evicts the least recently used down to the cap, appends the new one |
| Caches.MemoryCache.EvictLeastRecentlyUsed | crates/tool-compiler-runtime/src/cache.rs:138-152 | Removes exactly the least recently used entry and its index entries |
| Caches.MemoryCache.Remove | crates/tool-compiler-runtime/src/cache.rs:124-136 | Removes one entry from entries, LRU index and resource index |
| Caches.MemoryCache.InvalidateReads | crates/tool-compiler-runtime/src/cache.rs:212-223 | Drops exactly the entries that read one of the resources |
| Caches.MemoryCache.Clear | crates/tool-compiler-runtime/src/cache.rs:225-230 | Leaves the empty list |
| Caches.InvalidateFind | crates/tool-compiler-runtime/src/cache.rs:212-223 | After invalidation a key is found exactly if it was and read none of the resources |
| Caches.AddFind | crates/tool-compiler-runtime/src/cache.rs:183-210 | An inserted output is found; other keys keep their output or were evicted; the cap holds |
| Caches.AddEvictsOldest | crates/tool-compiler-runtime/src/cache.rs:188-191 | A full cache gives up exactly its oldest entry |
| Coherence.HitsAreFresh | crates/tool-compiler-runtime/src/scheduler.rs:353-383 | Over every run in which the drops cover what was changed, a hit returns what making the call at that moment would |
| Coherence.ActKeeps | crates/tool-compiler-runtime/src/scheduler.rs:353-383 | Every admission, lookup, call, insertion, write, release and invalidation keeps the cache coherent |
| EngineCoherence.EngineHitsAreFresh | crates/tool-compiler-runtime/src/scheduler.rs:114-134 | For every legal log of the engine, with lookups, calls, stores and writes of running units anywhere between its events, the drops being the declared writes of members that succeeded: hits are fresh when nothing else is changed |
| EngineCoherence.EngineLeavesCoherent | crates/tool-compiler-runtime/src/scheduler.rs:114-134 | Once the engine has finished every unit, the cache is coherent for the next run |
| StaleHits.StaleHit | crates/tool-compiler-runtime/src/scheduler.rs:360-382 | A run in which a node changes what its unit's end does not drop, because it failed or does not declare it, ends in a hit that is not what the call would answer |
| StaleHits.FailedAndUndeclared | crates/tool-compiler-runtime/src/scheduler.rs:360-382 | Both causes occur: a write of a node that fails, and a write of a tool that declares nothing |
| Coherence.QuietIsCoherent | crates/tool-compiler-runtime/src/cache.rs:43-45 | A finished run leaves a coherent cache for the next |
| Serializability.RunsAreSerializable | crates/tool-compiler-runtime/src/scheduler.rs:313-351 | Steps of overlapping units, reordered unit by unit in admission order, give the same results and the same store |
| Serializability.CompatibleCommute | crates/tool-compiler-runtime/src/locks.rs:118-133 | Steps of units whose locks are compatible commute |
| Serializability.InversionOverlaps | crates/tool-compiler-runtime/src/scheduler.rs:313-351 | A unit that steps after a later-admitted one stepped ran beside it: compatible locks, no dependency |
| Explains.ForwardPass | crates/tool-compiler-optimizer/src/explain.rs:170-181 | Ancestor rows hold exactly the positions a chain of edges reaches |
| Explains.BackwardPass | crates/tool-compiler-optimizer/src/explain.rs:182-191 | Descendant rows hold exactly the positions that reach it |
| Explains.ReachesIsOrdered | crates/tool-compiler-optimizer/src/explain.rs:135-202 | A bit is set exactly when a dependency chain exists between the nodes |
| Explains.PartnerCount | crates/tool-compiler-optimizer/src/explain.rs:64-66 | The subtraction never underflows and counts the unordered nodes of other layers |
| Explains.HasPartners | crates/tool-compiler-optimizer/src/explain.rs:61-69 | The count is positive exactly when such a node exists |
| Explains.ExplainParallelBoundaries | crates/tool-compiler-optimizer/src/explain.rs:45-133 | Reports exactly the undeclared nodes with a partner and, per resource, exactly the nodes of the all-pairs definition |
| BitMatrices.OrRow | crates/tool-compiler-optimizer/src/explain.rs:253-259 | Or-ing words unites one row with another and changes no other row |
| BitMatrices.SetBit | crates/tool-compiler-optimizer/src/explain.rs:245-247 | Sets one column of one row |
| BitMatrices.CountRow | crates/tool-compiler-optimizer/src/explain.rs:220-232 | Summed one-bits count the row's columns |
| Costs.Summarize | crates/tool-compiler-optimizer/src/cost.rs:10-57 | Compiled time is at most serial time, tokens after at most tokens before, for every plan; each estimate is its sum, the compiled time that of the layers' slowest dispatches; calls after account for every group and node |
| Costs.EstimateIs | crates/tool-compiler-optimizer/src/cost.rs:93-126 | The layered estimate adds up, over the layers, the slowest dispatch of each: a node's group's where it is grouped, its single call otherwise |
| Costs.CostsAreDeclared | crates/tool-compiler-optimizer/src/cost.rs:77-91 | A dispatch takes the declared fixed time and the time per call once for each call; a tool that declares no cost is free |
| Costs.CompiledCheaper | crates/tool-compiler-optimizer/src/cost.rs:93-126 | The sum of slowest dispatches is at most the sum of single calls |
| Costs.EstimatedCallsAreUnits | crates/tool-compiler-optimizer/src/cost.rs:16-25 | The estimated calls are the units a parallel engine builds |
| Canonical.Injective | crates/tool-compiler-ir/src/canonical.rs:13-52 | Two values share a canonical text exactly when they are equal |
| Canonical.CanonicalDenotes | crates/tool-compiler-ir/src/canonical.rs:19-72 | The canonical text is JSON text for the value, in the grammar of RFC 8259 without white space, object keys in order |
| Canonical.ReadsEscaped | crates/tool-compiler-ir/src/canonical.rs:54-72 | Each character reads back from its escape, per section 7 of RFC 8259 |
| Canonical.CanonicalJsonString | crates/tool-compiler-ir/src/canonical.rs:13-17 | The writers push exactly the canonical text |
| Canonical.QuoteUnambiguous | crates/tool-compiler-ir/src/canonical.rs:54-72 | An escaped string, per section 7 of RFC 8259, determines its text and where it ends |
| Refs.RoundTrip | crates/tool-compiler-ir/src/refs.rs:93-142 | A reference survives printing and parsing exactly when its node id and segments are ones the parser produces |
| Refs.UnescapeEscape | crates/tool-compiler-ir/src/refs.rs:77-91 | Two-pass unescaping inverts escaping |
| Refs.FromStr | crates/tool-compiler-ir/src/refs.rs:120-141 | The segment loop parses what the specification parses, errors included |
| Refs.ParsedIsValid | crates/tool-compiler-ir/src/refs.rs:120-141 | What parses has a valid node id and no empty segment |
| Resolve.ResolveRewritten | crates/tool-compiler-optimizer/src/lib.rs:361-396 | Resolving an alias-rewritten input reads what the original read, literals untouched |
| Resolve.CollectRewritten | crates/tool-compiler-optimizer/src/lib.rs:361-396 | A rewritten input refers to the canonical nodes, in the same places |
| Resolve.ResolveFootprint | crates/tool-compiler-runtime/src/refs.rs:14-47 | An input resolves by the outputs its references name, and nothing else |
| Resolve.ResolveValueRef | crates/tool-compiler-runtime/src/refs.rs:51-68 | The cursor loop follows the path or reports the first missing step; what following a path means is in the `Paths` rows |
| Paths.ReadsItsNode | crates/tool-compiler-runtime/src/refs.rs:51-68 | A reference reads from its node's output, or reports that there is none |
| Paths.IntoObject | crates/tool-compiler-runtime/src/refs.rs:70-76 | A segment reads that member of an object, exactly when it is there |
| Paths.IntoArray | crates/tool-compiler-runtime/src/refs.rs:70-76 | A segment that names an index reads that element of an array, exactly when it is in range |
| Paths.NoSuchElement | crates/tool-compiler-runtime/src/refs.rs:70-76 | A segment that names no index reads nothing from an array |
| Paths.ParsedIsNamed | crates/tool-compiler-runtime/src/refs.rs:70-76 | The segments that name an index are its decimal digits, zeros and one plus sign before them allowed |
| Paths.IntoLeaf | crates/tool-compiler-runtime/src/refs.rs:70-76 | A path into any other value is missing |
| Paths.PathConcat | crates/tool-compiler-runtime/src/refs.rs:51-68 | A path followed by another reads what the second reads from what the first reads |
| Paths.RefInput | crates/tool-compiler-runtime/src/refs.rs:25-32 | A printed reference in an input stands for what it reads |
| Paths.ArrayInput | crates/tool-compiler-runtime/src/refs.rs:40-44 | Arrays keep their length, each element is resolved, and one failure fails the whole |
| Paths.ObjectInput | crates/tool-compiler-runtime/src/refs.rs:34-38 | Objects that are no reference or literal keep their keys and each member is resolved |
| Resolve.CanonicalNode | crates/tool-compiler-optimizer/src/lib.rs:398-404 | Chain following ends at the canonical node |

## Left out

- Adapters, the CLI, the MCP server, the SDK, the planner, opportunity mining and the built-in tools.
- Timeouts, retries, backoff, single-flight waiting and cache time-to-live: a call is one deterministic answer, and completion order is a free choice.
- A panicking task, which makes every member of its unit fail at once.
- Trace events, counters, redaction, truncation and result modes; tool errors carry only their code, not their message.
- Schema validation is an opaque predicate on tool and input.
- Numbers in JSON are tokens; how they are rendered is not modelled. Maps have one iteration order, by key.
- Integer widths: clocks, counters and costs are unbounded, so saturation and wrap-around do not appear. A 64-bit word is the set of its one bits.
- The mutable JSON tree: rewriting references inside an input is a function from value to value, not an edit in place.
- KeyTexts.KeyTextIsKey: how `for_each` and `when` print for debugging is a parameter, assumed injective and free of NUL.
- `$item` markers under `$literal`: resolution unwraps the literal first, and no claim is made about what substitution then does.
- Locks.BatchLockCovers: one direction only, because a merged lock drops the commutative claim and is stronger than its members need.
- The engine's own loop runs with the cache off: that dispatching its units through a truthful cache ends with the same outcomes is PartialRuns.CachedRunsAreSound, and that the cache stays truthful while units write is EngineCoherence.EngineHitsAreFresh.
- Races between runs that share a cache at the same time.
