/** Dispatching a unit through the cache: single calls, batches and fan-out
    report what they would report without a cache. */
module Dispatching {
  import opened Wrappers
  import opened Json
  import opened Strings
  import opened Refs
  import opened Plans
  import opened Resolve
  import opened Calls
  import opened Caches
  import Texts = Canonical

  /** Where a unit's calls go, and whether and how their outputs are cached. */
  datatype Spec = Spec(adapter: string, tool: ToolName, version: Option<string>, caching: bool, readSet: set<Resource>)

  function KeyFor(spec: Spec, input: Json): CacheKey {
    CacheKey(spec.adapter, spec.tool, spec.version, Texts.Canonical(input))
  }

  /** What every tool of every adapter answers, in each version. */
  type World = (string, ToolName, Option<string>, Json) -> CallResult

  function Answer(world: World, spec: Spec, input: Json): CallResult {
    world(spec.adapter, spec.tool, spec.version, input)
  }

  /** Whatever is cached, for whichever tool, is what calling it gives. */
  ghost predicate Truthful(world: World, items: seq<Item>) {
    DistinctKeys(items) && forall spec, input | WellFormed(input) :: TrueOf(world, items, spec, input)
  }

  ghost predicate TrueOf(world: World, items: seq<Item>, spec: Spec, input: Json) {
    var found := Find(items, KeyFor(spec, input));
    found.Some? ==> Answer(world, spec, input) == Ok(found.value.output)
  }

  lemma TouchTruthful(world: World, items: seq<Item>, key: CacheKey)
    requires Truthful(world, items) && DistinctKeys(Touch(items, key))
    ensures Truthful(world, Touch(items, key))
  {
    hide DistinctKeys, Touch, Find;
    forall spec: Spec, input: Json | WellFormed(input)
      ensures TrueOf(world, Touch(items, key), spec, input)
    {
      assert TrueOf(world, items, spec, input);
      TouchFind(items, key, KeyFor(spec, input));
    }
  }

  /** A stored output answers for its own input to its own tool alone: keys of
      different adapters, tools, versions or inputs do not collide. */
  lemma AddTruthful(world: World, spec: Spec, items: seq<Item>, input: Json, output: Json, cap: nat)
    requires Truthful(world, items) && cap > 0 && WellFormed(input) && Answer(world, spec, input) == Ok(output)
    requires DistinctKeys(Add(items, Item(KeyFor(spec, input), output, spec.readSet), cap))
    ensures Truthful(world, Add(items, Item(KeyFor(spec, input), output, spec.readSet), cap))
  {
    hide DistinctKeys, Add, Find;
    var item := Item(KeyFor(spec, input), output, spec.readSet);
    forall other: Spec, arg: Json | WellFormed(arg)
      ensures TrueOf(world, Add(items, item, cap), other, arg)
    {
      assert TrueOf(world, items, other, arg);
      AddFind(items, item, cap, KeyFor(other, arg));
      Texts.Injective(input, arg);
    }
  }

  /** The executor's calls of this tool are the world's. */
  ghost predicate Serves(world: World, exec: Executor, spec: Spec) {
    forall input :: exec.call(spec.tool, input) == Answer(world, spec, input)
  }

  ghost predicate Ready(cache: MemoryCache, world: World, exec: Executor, spec: Spec)
    reads cache
  {
    cache.Valid() && Truthful(world, cache.items) && Serves(world, exec, spec)
  }

  /** A lookup, if the tool caches: a hit is what the call would return. */
  method LookUp(cache: MemoryCache, ghost world: World, ghost exec: Executor, spec: Spec, input: Json)
        returns (output: Option<Json>)
    requires Ready(cache, world, exec, spec) && WellFormed(input)
    modifies cache
    ensures Ready(cache, world, exec, spec)
    ensures output.Some? ==> spec.caching && exec.call(spec.tool, input) == Ok(output.value)
  {
    output := None;
    if spec.caching {
      hide Truthful, DistinctKeys, Touch, Find, Represents, LruOk, IndexOk;
      var key := KeyFor(spec, input);
      TruthAt(world, cache.items, spec, input);
      ghost var items := cache.items;
      output := cache.Get(key);
      CacheDistinct(cache);
      TouchTruthful(world, items, key);
    }
  }

  lemma TruthAt(world: World, items: seq<Item>, spec: Spec, input: Json)
    requires Truthful(world, items) && WellFormed(input)
    ensures TrueOf(world, items, spec, input)
  {
  }

  lemma CacheDistinct(cache: MemoryCache)
    requires cache.Valid()
    ensures DistinctKeys(cache.items)
  {
  }

  /** Stores an output, if the tool caches. */
  method Keep(cache: MemoryCache, ghost world: World, ghost exec: Executor, spec: Spec, input: Json, output: Json)
    requires Ready(cache, world, exec, spec) && WellFormed(input) && exec.call(spec.tool, input) == Ok(output)
    modifies cache
    ensures Ready(cache, world, exec, spec)
  {
    if spec.caching {
      hide Truthful, DistinctKeys, Add, Represents, LruOk, IndexOk;
      ghost var items := cache.items;
      cache.Insert(KeyFor(spec, input), output, spec.readSet);
      CacheDistinct(cache);
      AddTruthful(world, spec, items, input, output, cache.maxEntries);
    }
  }

  // ------------------------------------------------------------------ single

  /** `dispatch_single`: through a truthful cache, exactly what the call returns. */
  method DispatchSingle(cache: MemoryCache, ghost world: World, exec: Executor, spec: Spec, member: PreparedMember)
        returns (result: CallResult, hit: bool)
    requires Ready(cache, world, exec, spec) && WellFormed(member.input)
    modifies cache
    ensures Ready(cache, world, exec, spec)
    ensures result == exec.call(spec.tool, member.input)
    ensures hit ==> spec.caching && result.Ok?
  {
    hide Ready;
    var cached := LookUp(cache, world, exec, spec, member.input);
    if cached.Some? {
      return Ok(cached.value), true;
    }
    hit := false;
    result := exec.call(spec.tool, member.input);
    if result.Ok? {
      Keep(cache, world, exec, spec, member.input, result.value);
    }
  }

  // ------------------------------------------------------------------- batch

  ghost predicate WellFormedInputs(members: seq<PreparedMember>) {
    forall i | 0 <= i < |members| :: WellFormed(members[i].input)
  }

  /** The members that were not hits, in order. */
  function Missed(members: seq<PreparedMember>, hits: set<NodeId>): seq<PreparedMember> {
    if members == [] then []
    else
      var init, last := Missed(members[..|members| - 1], hits), members[|members| - 1];
      if last.node in hits then init else init + [last]
  }

  lemma {:induction false} MissedMembers(members: seq<PreparedMember>, hits: set<NodeId>)
    ensures forall m :: m in Missed(members, hits) <==> m in members && m.node !in hits
    ensures DistinctMembers(members) ==> DistinctMembers(Missed(members, hits))
  {
    if members != [] {
      var init, last := members[..|members| - 1], members[|members| - 1];
      MissedMembers(init, hits);
      assert members == init + [last];
      if DistinctMembers(members) {
        MissedApart(init, last, hits);
      }
    }
  }

  lemma MissedApart(init: seq<PreparedMember>, last: PreparedMember, hits: set<NodeId>)
    requires DistinctMembers(init + [last])
    requires forall m :: m in Missed(init, hits) ==> m in init
    ensures forall i | 0 <= i < |Missed(init, hits)| :: Missed(init, hits)[i].node != last.node
  {
    hide Missed;
    var members, before := init + [last], Missed(init, hits);
    forall i | 0 <= i < |before|
      ensures before[i].node != last.node
    {
      assert before[i] in before;
      var k :| 0 <= k < |init| && init[k] == before[i];
      assert members[k] == before[i] && members[|init|] == last;
    }
  }

  lemma {:induction false} MissedSame(members: seq<PreparedMember>, hits: set<NodeId>, more: set<NodeId>)
    requires forall i | 0 <= i < |members| :: members[i].node in hits <==> members[i].node in more
    ensures Missed(members, hits) == Missed(members, more)
  {
    if members != [] {
      MissedSame(members[..|members| - 1], hits, more);
    }
  }

  /** What the lookups of a batch found. */
  ghost predicate Found(exec: Executor, spec: Spec, members: seq<PreparedMember>, results: map<NodeId, CallResult>) {
    forall n | n in results :: exists i: nat :: HitAt(exec, spec, members, n, results[n], i)
  }

  ghost predicate HitAt(exec: Executor, spec: Spec, members: seq<PreparedMember>, n: NodeId, result: CallResult,
      i: nat) {
    i < |members| && members[i].node == n && result == exec.call(spec.tool, members[i].input) && result.Ok?
  }

  /** The lookups: hits are reported, the rest is pending. */
  method LookUpAll(cache: MemoryCache, ghost world: World, ghost exec: Executor, spec: Spec,
      members: seq<PreparedMember>)
        returns (results: map<NodeId, CallResult>, pending: seq<PreparedMember>)
    requires Ready(cache, world, exec, spec) && WellFormedInputs(members) && DistinctMembers(members)
    modifies cache
    ensures Ready(cache, world, exec, spec)
    ensures Found(exec, spec, members, results) && pending == Missed(members, results.Keys)
  {
    hide Ready, Missed;
    results, pending := map[], [];
    NothingMissed({});
    assert members[..0] == [] && results.Keys == {};
    for i := 0 to |members|
      invariant Ready(cache, world, exec, spec)
      invariant Found(exec, spec, members[..i], results) && pending == Missed(members[..i], results.Keys)
    {
      var cached := LookUp(cache, world, exec, spec, members[i].input);
      FoundStep(exec, spec, members, i, results, cached);
      if cached.Some? {
        results := results[members[i].node := Ok(cached.value)];
      } else {
        pending := pending + [members[i]];
      }
    }
    assert members[..|members|] == members;
  }

  lemma NothingMissed(hits: set<NodeId>)
    ensures Missed([], hits) == []
  {
  }

  lemma FoundStep(exec: Executor, spec: Spec, members: seq<PreparedMember>, i: nat, results: map<NodeId, CallResult>,
      cached: Option<Json>)
    requires i < |members| && DistinctMembers(members) && Found(exec, spec, members[..i], results)
    requires cached.Some? ==> exec.call(spec.tool, members[i].input) == Ok(cached.value)
    ensures var results' := if cached.Some? then results[members[i].node := Ok(cached.value)] else results;
      && Found(exec, spec, members[..i + 1], results')
      && Missed(members[..i + 1], results'.Keys) == if cached.Some? then Missed(members[..i], results.Keys)
           else Missed(members[..i], results.Keys) + [members[i]]
  {
    var results' := if cached.Some? then results[members[i].node := Ok(cached.value)] else results;
    var before, after := members[..i], members[..i + 1];
    assert after[..i] == before;
    forall n | n in results
      ensures n != members[i].node && exists k: nat :: HitAt(exec, spec, after, n, results[n], k)
    {
      var k: nat :| HitAt(exec, spec, before, n, results[n], k);
      assert HitAt(exec, spec, after, n, results[n], k);
    }
    if cached.Some? {
      assert HitAt(exec, spec, after, members[i].node, Ok(cached.value), i);
    }
    MissedSame(members[..i], results.Keys, results'.Keys);
  }

  ghost predicate DistinctNames(inputs: seq<BatchInput>) {
    forall i, j | 0 <= i < j < |inputs| :: inputs[i].node != inputs[j].node
  }

  ghost predicate IsIndexName(name: string) {
    exists n: nat :: name == IndexName(n)
  }

  ghost predicate IndexNames(inputs: seq<BatchInput>) {
    forall i | 0 <= i < |inputs| :: IsIndexName(inputs[i].node)
  }

  /** The adapter contract for outputs: one that a batch of distinct names returns
      for an input is what that input's own call returns. */
  ghost predicate Faithful(exec: Executor) {
    forall tool, inputs | DistinctNames(inputs) :: FaithfulOn(exec, tool, inputs) && FaithfulItems(exec, tool, inputs)
  }

  /** The same for the items of a fan-out, which are named by their index. */
  ghost predicate FaithfulItems(exec: Executor, tool: ToolName, inputs: seq<BatchInput>) {
    IndexNames(inputs) && exec.callBatch(tool, inputs).Ok? ==>
      forall i, n: nat | 0 <= i < |inputs| && inputs[i].node == IndexName(n)
        && n in ByIndex(exec.callBatch(tool, inputs).value) ::
        exec.call(tool, inputs[i].input) == Ok(ByIndex(exec.callBatch(tool, inputs).value)[n])
  }

  ghost predicate FaithfulOn(exec: Executor, tool: ToolName, inputs: seq<BatchInput>) {
    exec.callBatch(tool, inputs).Ok? ==>
      forall i | 0 <= i < |inputs| && inputs[i].node in ByNode(exec.callBatch(tool, inputs).value) ::
        exec.call(tool, inputs[i].input) == Ok(ByNode(exec.callBatch(tool, inputs).value)[inputs[i].node])
  }

  /** The default batch adapter keeps that contract. */
  lemma DefaultIsFaithful(exec: Executor)
    requires DefaultBatch(exec)
    ensures Faithful(exec)
  {
    hide ByNode, ByIndex;
    forall tool: ToolName, inputs: seq<BatchInput> | DistinctNames(inputs)
      ensures FaithfulOn(exec, tool, inputs) && FaithfulItems(exec, tool, inputs)
    {
      DefaultFaithfulOn(exec, tool, inputs);
    }
  }

  lemma DefaultFaithfulOn(exec: Executor, tool: ToolName, inputs: seq<BatchInput>)
    requires DefaultBatch(exec) && DistinctNames(inputs)
    ensures FaithfulOn(exec, tool, inputs) && FaithfulItems(exec, tool, inputs)
  {
    hide ByNode, ByIndex, IndexName, ParseIndex;
    assert DefaultOn(exec, tool, inputs);
    OneByOneOutputs(exec.call, tool, inputs);
    if exec.callBatch(tool, inputs).Ok? {
      var outputs := exec.callBatch(tool, inputs).value;
      forall i | 0 <= i < |inputs|
        ensures inputs[i].node in ByNode(outputs)
        ensures exec.call(tool, inputs[i].input) == Ok(ByNode(outputs)[inputs[i].node])
      {
        ByNodeFinds(outputs, i);
      }
      forall i, n: nat | 0 <= i < |inputs| && IndexNames(inputs) && inputs[i].node == IndexName(n)
        ensures n in ByIndex(outputs) && exec.call(tool, inputs[i].input) == Ok(ByIndex(outputs)[n])
      {
        IndexNameParses(n);
        forall j | 0 <= j < |outputs| && ParseIndex(outputs[j].node) == Some(n)
          ensures j == i
        {
          assert IsIndexName(inputs[j].node);
          var m: nat :| inputs[j].node == IndexName(m);
          IndexNameParses(m);
        }
        ByIndexFinds(outputs, n, i, outputs[i].output);
      }
    }
  }

  lemma MemberNames(members: seq<PreparedMember>)
    requires DistinctMembers(members)
    ensures DistinctNames(MemberInputs(members))
  {
  }

  lemma ChunkNames(inputs: seq<Json>, indices: seq<nat>)
    requires forall k | 0 <= k < |indices| :: indices[k] < |inputs|
    requires forall i, j | 0 <= i < j < |indices| :: indices[i] < indices[j]
    ensures DistinctNames(ChunkOf(inputs, indices)) && IndexNames(ChunkOf(inputs, indices))
  {
    hide IndexName;
    var chunk := ChunkOf(inputs, indices);
    forall i, j | 0 <= i < j < |chunk|
      ensures chunk[i].node != chunk[j].node
    {
      IndexNameParses(indices[i]);
      IndexNameParses(indices[j]);
    }
  }

  /** The results of the members that were sent, stored as they come. */
  method RecordBatch(cache: MemoryCache, ghost world: World, ghost exec: Executor, spec: Spec,
      pending: seq<PreparedMember>, sent: Result<seq<BatchOutput>, ToolError>)
    returns (results: map<NodeId, CallResult>)
    requires Ready(cache, world, exec, spec) && WellFormedInputs(pending) && DistinctMembers(pending) && Faithful(exec)
    requires sent == exec.callBatch(spec.tool, MemberInputs(pending))
    modifies cache
    ensures Ready(cache, world, exec, spec)
    ensures forall n :: n in results <==> exists i :: 0 <= i < |pending| && pending[i].node == n
    ensures forall i | 0 <= i < |pending| ::
      results[pending[i].node] == BatchResult(exec, spec.tool, pending, pending[i].node)
  {
    hide Ready, ByNode;
    MemberNames(pending);
    assert FaithfulOn(exec, spec.tool, MemberInputs(pending));
    results := map[];
    for k := 0 to |pending|
      invariant Ready(cache, world, exec, spec)
      invariant forall n :: n in results <==> exists i :: 0 <= i < k && pending[i].node == n
      invariant forall i | 0 <= i < k ::
        results[pending[i].node] == BatchResult(exec, spec.tool, pending, pending[i].node)
    {
      var member := pending[k];
      assert MemberInputs(pending)[k] == BatchInput(member.node, member.input);
      if sent.Err? {
        results := results[member.node := Err(sent.error)];
      } else {
        var found := ByNode(sent.value);
        if member.node in found {
          Keep(cache, world, exec, spec, member.input, found[member.node]);
          results := results[member.node := Ok(found[member.node])];
        } else {
          results := results[member.node := Err(Coded("batch_missing_output"))];
        }
      }
    }
  }

  /** `dispatch_batch`: one result per member. Hits keep their own call's output;
      the others share one batch call. When no call fails, every member gets what
      its own call returns, hit or not. */
  method DispatchBatch(cache: MemoryCache, ghost world: World, exec: Executor, spec: Spec, members: seq<PreparedMember>)
    returns (results: map<NodeId, CallResult>, ghost hits: set<NodeId>)
    requires Ready(cache, world, exec, spec) && WellFormedInputs(members) && DistinctMembers(members) && Honest(exec)
      && Faithful(exec)
    modifies cache
    ensures Ready(cache, world, exec, spec)
    ensures forall n :: n in results <==> exists i :: 0 <= i < |members| && members[i].node == n
    ensures forall i | 0 <= i < |members| ::
              results[members[i].node] == if members[i].node in hits then exec.call(spec.tool, members[i].input)
                                          else BatchResult(exec, spec.tool, Missed(members, hits), members[i].node)
    ensures forall n | n in hits :: n in results && results[n].Ok?
    ensures AllSucceed(exec, spec.tool, members) ==>
              forall i | 0 <= i < |members| :: results[members[i].node] == exec.call(spec.tool, members[i].input)
  {
    hide Ready, Honest, Faithful, BatchResult, Missed;
    var pending;
    results, pending := LookUpAll(cache, world, exec, spec, members);
    hits := results.Keys;
    MissedMembers(members, hits);
    MissedWellFormed(members, hits);
    if pending == [] {
      BatchReported(exec, spec, members, results, map[], hits);
      assert results + map[] == results;
      return;
    }
    var sent := exec.callBatch(spec.tool, MemberInputs(pending));
    var more := RecordBatch(cache, world, exec, spec, pending, sent);
    BatchReported(exec, spec, members, results, more, hits);
    results := results + more;
  }

  lemma MissedWellFormed(members: seq<PreparedMember>, hits: set<NodeId>)
    requires WellFormedInputs(members)
    ensures WellFormedInputs(Missed(members, hits))
  {
    MissedMembers(members, hits);
    var missed := Missed(members, hits);
    forall i | 0 <= i < |missed|
      ensures WellFormed(missed[i].input)
    {
      assert missed[i] in missed;
      var k :| 0 <= k < |members| && members[k] == missed[i];
    }
  }

  lemma MissedAt(members: seq<PreparedMember>, hits: set<NodeId>, i: nat)
    requires i < |members| && members[i].node !in hits
    ensures exists k :: 0 <= k < |Missed(members, hits)| && Missed(members, hits)[k] == members[i]
  {
    MissedMembers(members, hits);
    assert members[i] in Missed(members, hits);
  }

  /** Hits and batch results together. */
  lemma BatchReported(exec: Executor, spec: Spec, members: seq<PreparedMember>, found: map<NodeId, CallResult>,
      more: map<NodeId, CallResult>, hits: set<NodeId>)
    requires DistinctMembers(members) && Honest(exec) && Found(exec, spec, members, found) && hits == found.Keys
    requires forall n ::
      n in more <==> exists k :: 0 <= k < |Missed(members, hits)| && Missed(members, hits)[k].node == n
    requires forall k | 0 <= k < |Missed(members, hits)| ::
      more[Missed(members, hits)[k].node] == BatchResult(exec, spec.tool, Missed(members, hits),
        Missed(members, hits)[k].node)
    ensures var results := found + more;
      && (forall n :: n in results <==> exists i :: 0 <= i < |members| && members[i].node == n)
      && (forall i | 0 <= i < |members| ::
           results[members[i].node] == if members[i].node in hits then exec.call(spec.tool, members[i].input)
                                       else BatchResult(exec, spec.tool, Missed(members, hits), members[i].node))
      && (forall n | n in hits :: n in results && results[n].Ok?)
      && (AllSucceed(exec, spec.tool, members) ==>
           forall i | 0 <= i < |members| :: results[members[i].node] == exec.call(spec.tool, members[i].input))
  {
    hide BatchResult, Honest;
    assert forall n | n in found :: exists i: nat :: HitAt(exec, spec, members, n, found[n], i);
    var missed, results := Missed(members, hits), found + more;
    MissedMembers(members, hits);
    hide Missed;
    forall n | n in more
      ensures n !in hits && exists i :: 0 <= i < |members| && members[i].node == n
    {
      var k :| 0 <= k < |missed| && missed[k].node == n;
      assert missed[k] in missed;
      var i :| 0 <= i < |members| && members[i] == missed[k];
    }
    forall i | 0 <= i < |members|
      ensures members[i].node in results
      ensures results[members[i].node] == if members[i].node in hits then exec.call(spec.tool, members[i].input)
                                          else BatchResult(exec, spec.tool, missed, members[i].node)
      ensures AllSucceed(exec, spec.tool, members) ==>
        results[members[i].node] == exec.call(spec.tool, members[i].input)
    {
      if members[i].node in hits {
        var j: nat :| HitAt(exec, spec, members, members[i].node, found[members[i].node], j);
        assert i == j;
      } else {
        MissedAt(members, hits, i);
        var k :| 0 <= k < |missed| && missed[k] == members[i];
        if AllSucceed(exec, spec.tool, members) {
          MissedSucceed(exec, spec.tool, members, hits);
          BatchIsPointwise(exec, spec.tool, missed, k);
        }
      }
    }
  }

  lemma MissedSucceed(exec: Executor, tool: ToolName, members: seq<PreparedMember>, hits: set<NodeId>)
    requires AllSucceed(exec, tool, members)
    ensures AllSucceed(exec, tool, Missed(members, hits))
  {
    MissedMembers(members, hits);
    var missed := Missed(members, hits);
    forall i | 0 <= i < |missed|
      ensures exec.call(tool, missed[i].input).Ok?
    {
      assert missed[i] in missed;
      var k :| 0 <= k < |members| && members[k] == missed[i];
    }
  }

  // ----------------------------------------------------------------- fan-out

  ghost predicate CallsSucceed(exec: Executor, tool: ToolName, inputs: seq<Json>) {
    forall i | 0 <= i < |inputs| :: exec.call(tool, inputs[i]).Ok?
  }

  /** The output of each item's own call. */
  ghost function ItemOutputs(exec: Executor, tool: ToolName, inputs: seq<Json>): (outputs: seq<Json>)
    requires CallsSucceed(exec, tool, inputs)
    ensures |outputs| == |inputs| && forall i | 0 <= i < |inputs| :: exec.call(tool, inputs[i]) == Ok(outputs[i])
  {
    seq(|inputs|, i requires 0 <= i < |inputs| => exec.call(tool, inputs[i]).value)
  }

  lemma {:induction false} CallEachOutputs(exec: Executor, tool: ToolName, inputs: seq<Json>, i: nat)
    requires CallsSucceed(exec, tool, inputs) && i <= |inputs|
    ensures CallEach(exec, tool, inputs, i) == Ok(ItemOutputs(exec, tool, inputs)[i..])
    decreases |inputs| - i
  {
    if i < |inputs| {
      CallEachOutputs(exec, tool, inputs, i + 1);
      var outputs := ItemOutputs(exec, tool, inputs);
      assert outputs[i..] == [outputs[i]] + outputs[i + 1..];
    } else {
      assert ItemOutputs(exec, tool, inputs)[i..] == [];
    }
  }

  lemma {:induction false} ByIndexFinds(outputs: seq<BatchOutput>, n: nat, i: nat, value: Json)
    requires i < |outputs| && outputs[i] == BatchOutput(IndexName(n), value)
    requires forall j | 0 <= j < |outputs| && ParseIndex(outputs[j].node) == Some(n) :: outputs[j].output == value
    ensures n in ByIndex(outputs) && ByIndex(outputs)[n] == value
  {
    hide ParseIndex;
    IndexNameParses(n);
    var init := outputs[..|outputs| - 1];
    if i < |init| {
      ByIndexFinds(init, n, i, value);
    }
  }

  /** One chunk of an honest batch adapter: each item's own output. */
  lemma ChunkOutputs(exec: Executor, tool: ToolName, inputs: seq<BatchInput>, names: seq<nat>)
    requires Honest(exec) && |names| == |inputs|
      && forall i | 0 <= i < |inputs| :: inputs[i].node == IndexName(names[i])
    requires forall i, j | 0 <= i < j < |names| :: names[i] != names[j]
    requires forall i | 0 <= i < |inputs| :: exec.call(tool, inputs[i].input).Ok?
    ensures exec.callBatch(tool, inputs).Ok?
    ensures forall i | 0 <= i < |inputs| :: names[i] in ByIndex(exec.callBatch(tool, inputs).value)
              && exec.call(tool, inputs[i].input) == Ok(ByIndex(exec.callBatch(tool, inputs).value)[names[i]])
  {
    assert HonestBatch(exec, tool, inputs);
    hide ParseIndex, ByIndex, IndexName, Honest;
    var outputs := exec.callBatch(tool, inputs).value;
    forall i | 0 <= i < |inputs|
      ensures names[i] in ByIndex(outputs) && exec.call(tool, inputs[i].input) == Ok(ByIndex(outputs)[names[i]])
    {
      assert inputs[i] in inputs && Named(outputs, inputs[i].node);
      var k :| 0 <= k < |outputs| && outputs[k].node == inputs[i].node;
      forall j | 0 <= j < |outputs| && ParseIndex(outputs[j].node) == Some(names[i])
        ensures exec.call(tool, inputs[i].input) == Ok(outputs[j].output)
      {
        assert Answers(exec, tool, inputs, outputs[j]);
        var m :| 0 <= m < |inputs| && inputs[m].node == outputs[j].node
          && exec.call(tool, inputs[m].input) == Ok(outputs[j].output);
        IndexNameParses(names[m]);
        assert m == i;
      }
      IndexNameParses(names[i]);
      ByIndexFinds(outputs, names[i], k, outputs[k].output);
    }
  }

  lemma {:induction false} PickOutputs(found: map<nat, Json>, outputs: seq<Json>, lo: nat, hi: nat)
    requires lo <= hi <= |outputs| && forall k | lo <= k < hi :: k in found && found[k] == outputs[k]
    ensures PickRange(found, lo, hi) == Ok(outputs[lo..hi])
    decreases hi - lo
  {
    if lo < hi {
      PickOutputs(found, outputs, lo + 1, hi);
      assert outputs[lo..hi] == [outputs[lo]] + outputs[lo + 1..hi];
    } else {
      assert outputs[lo..hi] == [];
    }
  }

  lemma CallChunkOutputs(exec: Executor, tool: ToolName, inputs: seq<Json>, lo: nat, hi: nat)
    requires Honest(exec) && CallsSucceed(exec, tool, inputs) && lo <= hi <= |inputs|
    ensures CallChunk(exec, tool, inputs, lo, hi) == Ok(ItemOutputs(exec, tool, inputs)[lo..hi])
  {
    hide Honest, ByIndex, IndexName;
    var sent, names := ChunkInputs(inputs, lo, hi), seq(hi - lo, i requires 0 <= i < hi - lo => lo + i);
    ChunkOutputs(exec, tool, sent, names);
    var found, outputs := ByIndex(exec.callBatch(tool, sent).value), ItemOutputs(exec, tool, inputs);
    forall k | lo <= k < hi
      ensures k in found && found[k] == outputs[k]
    {
      assert names[k - lo] == k && sent[k - lo].input == inputs[k];
    }
    PickOutputs(found, outputs, lo, hi);
  }

  lemma {:induction false} CallChunksOutputs(exec: Executor, tool: ToolName, inputs: seq<Json>, lo: nat, size: nat)
    requires Honest(exec) && CallsSucceed(exec, tool, inputs) && lo <= |inputs| && size > 0
    ensures CallChunks(exec, tool, inputs, lo, size) == Ok(ItemOutputs(exec, tool, inputs)[lo..])
    decreases |inputs| - lo
  {
    hide CallChunk, Honest;
    if lo < |inputs| {
      var hi, outputs := Min(lo + size, |inputs|), ItemOutputs(exec, tool, inputs);
      CallChunkOutputs(exec, tool, inputs, lo, hi);
      CallChunksOutputs(exec, tool, inputs, hi, size);
      assert outputs[lo..] == outputs[lo..hi] + outputs[hi..];
    } else {
      assert ItemOutputs(exec, tool, inputs)[lo..] == [];
    }
  }

  /** Fan-out is a map over the items, whatever the chunk size. */
  lemma FanOutIsMap(exec: Executor, tool: ToolName, member: PreparedMember)
    requires Honest(exec) && member.items.Some? && ItemInputs(member.input, member.items.value).Ok?
    requires CallsSucceed(exec, tool, ItemInputs(member.input, member.items.value).value)
    ensures FanOut(exec, tool, member) ==
      Ok(Arr(ItemOutputs(exec, tool, ItemInputs(member.input, member.items.value).value)))
  {
    hide Honest, CallEach, CallChunks, ItemInputs;
    var inputs := ItemInputs(member.input, member.items.value).value;
    var outputs := ItemOutputs(exec, tool, inputs);
    CallEachOutputs(exec, tool, inputs, 0);
    CallChunksOutputs(exec, tool, inputs, 0, if |inputs| > 0 then ChunkSize(member.batchSize, |inputs|) else 1);
    assert outputs[0..] == outputs;
  }

  // Items are JSON when the template and the list are.

  lemma {:induction false} WalkWellFormed(current: Json, path: seq<string>)
    requires WellFormed(current)
    ensures Walk(current, path).Some? ==> WellFormed(Walk(current, path).value)
    decreases |path|
  {
    if path != [] {
      var next := StepInto(current, path[0]);
      if next.Some? {
        WalkWellFormed(next.value, path[1..]);
      }
    }
  }

  lemma {:induction false} SubstituteWellFormed(template: Json, item: Json)
    requires WellFormed(template) && WellFormed(item)
    ensures SubstituteItem(template, item).Ok? ==> WellFormed(SubstituteItem(template, item).value)
    decreases template, 1, 0
  {
    match template
    case Obj(fields) =>
      if |fields| == 1 && ITEM_KEY in fields {
        if fields[ITEM_KEY].Str? && fields[ITEM_KEY].s != "" {
          WalkWellFormed(item, Split(fields[ITEM_KEY].s));
        }
      } else if !IsLiteral(template) {
        SubstituteFieldsWellFormed(template, Sorted(fields.Keys), item);
      }
    case Arr(items) => SubstituteItemsWellFormed(template, 0, item);
    case _ =>
  }

  lemma {:induction false} SubstituteFieldsWellFormed(template: Json, keys: seq<string>, item: Json)
    requires template.Obj? && WellFormed(template) && WellFormed(item) && forall k | k in keys :: k in template.fields
    ensures SubstituteFields(template, keys, item).Ok? ==> WellFormed(Obj(SubstituteFields(template, keys, item).value))
    decreases template, 0, |keys|
  {
    hide SubstituteItem;
    if keys != [] {
      SubstituteWellFormed(template.fields[keys[0]], item);
      SubstituteFieldsWellFormed(template, keys[1..], item);
    }
  }

  lemma {:induction false} SubstituteItemsWellFormed(template: Json, i: nat, item: Json)
    requires template.Arr? && i <= |template.items| && WellFormed(template) && WellFormed(item)
    ensures SubstituteItems(template, i, item).Ok? ==> WellFormed(Arr(SubstituteItems(template, i, item).value))
    decreases template, 0, |template.items| - i
  {
    hide SubstituteItem;
    if i < |template.items| {
      SubstituteWellFormed(template.items[i], item);
      SubstituteItemsWellFormed(template, i + 1, item);
    }
  }

  ghost predicate AllWellFormed(values: seq<Json>) {
    forall i | 0 <= i < |values| :: WellFormed(values[i])
  }

  lemma {:induction false} ItemInputsWellFormed(template: Json, items: seq<Json>)
    requires WellFormed(template) && AllWellFormed(items)
    ensures ItemInputs(template, items).Ok? ==>
      AllWellFormed(ItemInputs(template, items).value) && |ItemInputs(template, items).value| == |items|
  {
    hide SubstituteItem;
    if items != [] {
      SubstituteWellFormed(template, items[0]);
      ItemInputsWellFormed(template, items[1..]);
    }
  }

  function After(inputs: seq<Json>, rest: Result<seq<Json>, ToolError>): Result<seq<Json>, ToolError> {
    if rest.Ok? then Ok(inputs + rest.value) else rest
  }

  lemma ItemInputsStep(template: Json, items: seq<Json>, i: nat, inputs: seq<Json>)
    requires i < |items|
    ensures var input := SubstituteItem(template, items[i]);
      After(inputs, ItemInputs(template, items[i..])) ==
        if input.Ok? then After(inputs + [input.value], ItemInputs(template, items[i + 1..]))
          else Err(Coded("invalid_item"))
  {
    hide SubstituteItem;
    var input := SubstituteItem(template, items[i]);
    assert items[i..][1..] == items[i + 1..];
    var rest := ItemInputs(template, items[i + 1..]);
    if input.Ok? && rest.Ok? {
      assert (inputs + [input.value]) + rest.value == inputs + ([input.value] + rest.value);
    }
  }

  /** The substituted inputs, or the first item the template does not fit. */
  method SubstituteAll(template: Json, items: seq<Json>) returns (result: Result<seq<Json>, ToolError>)
    ensures result == ItemInputs(template, items)
  {
    hide SubstituteItem, ItemInputs;
    var inputs := [];
    assert items[0..] == items;
    assert ItemInputs(template, items).Ok? ==>
      [] + ItemInputs(template, items).value == ItemInputs(template, items).value;
    for i := 0 to |items|
      invariant ItemInputs(template, items) == After(inputs, ItemInputs(template, items[i..]))
    {
      ItemInputsStep(template, items, i, inputs);
      var input := SubstituteItem(template, items[i]);
      if input.Err? {
        return Err(Coded("invalid_item"));
      }
      inputs := inputs + [input.value];
    }
    NoItemInputs(template, items[|items|..]);
    assert inputs + [] == inputs;
    result := Ok(inputs);
  }

  lemma NoItemInputs(template: Json, items: seq<Json>)
    requires items == []
    ensures ItemInputs(template, items) == Ok([])
  {
  }

  // ----------------------------------------------------- fan-out with a cache

  type Slots = seq<Option<Json>>

  /** A filled slot holds its own item's output. */
  ghost predicate SlotsOk(exec: Executor, tool: ToolName, inputs: seq<Json>, slots: Slots) {
    |slots| == |inputs|
      && forall i | 0 <= i < |slots| && slots[i].Some? :: exec.call(tool, inputs[i]) == Ok(slots[i].value)
  }

  /** Exactly the items without an output yet, in order. */
  ghost predicate AwaitedBy(pending: seq<nat>, slots: Slots) {
    && (forall i, j | 0 <= i < j < |pending| :: pending[i] < pending[j])
    && forall i: nat :: i in pending <==> i < |slots| && slots[i].None?
  }

  /** The items that were not hits, in order. */
  function Awaited(count: nat, hits: set<nat>): seq<nat> {
    if count == 0 then []
    else
      var init := Awaited(count - 1, hits);
      if count - 1 in hits then init else init + [count - 1]
  }

  lemma {:induction false} AwaitedSame(count: nat, a: set<nat>, b: set<nat>)
    requires forall i: nat | i < count :: i in a <==> i in b
    ensures Awaited(count, a) == Awaited(count, b)
  {
    if count > 0 {
      AwaitedSame(count - 1, a, b);
    }
  }

  lemma {:induction false} AwaitedMembers(count: nat, hits: set<nat>)
    ensures forall i, j | 0 <= i < j < |Awaited(count, hits)| :: Awaited(count, hits)[i] < Awaited(count, hits)[j]
    ensures forall i: nat :: i in Awaited(count, hits) <==> i < count && i !in hits
  {
    if count > 0 {
      AwaitedMembers(count - 1, hits);
      var init := Awaited(count - 1, hits);
      assert forall i | 0 <= i < |init| :: init[i] in init;
    }
  }

  ghost function HitsIn(slots: Slots): set<nat> {
    set i | 0 <= i < |slots| && slots[i].Some?
  }

  /** Which pending item fails first when each is called in turn. */
  function EachError(exec: Executor, tool: ToolName, inputs: seq<Json>, pending: seq<nat>, p: nat): Option<ToolError>
    requires p <= |pending| && forall q | 0 <= q < |pending| :: pending[q] < |inputs|
    decreases |pending| - p
  {
    if p == |pending| then None
    else
      var result := exec.call(tool, inputs[pending[p]]);
      if result.Err? then Some(ItemError(result.error)) else EachError(exec, tool, inputs, pending, p + 1)
  }

  lemma {:induction false} EachFails(exec: Executor, tool: ToolName, inputs: seq<Json>, pending: seq<nat>, i: nat,
      p: nat, error: ToolError)
    requires i <= p && forall q | 0 <= q < |pending| :: pending[q] < |inputs|
    requires FailsFirstWith(exec, tool, inputs, pending, p, error)
    ensures EachError(exec, tool, inputs, pending, i) == Some(error)
    decreases p - i
  {
    if i < p {
      EachFails(exec, tool, inputs, pending, i + 1, p, error);
    }
  }

  lemma {:induction false} EachSucceeds(exec: Executor, tool: ToolName, inputs: seq<Json>, pending: seq<nat>, i: nat)
    requires i <= |pending| && forall q | 0 <= q < |pending| :: pending[q] < |inputs|
    requires CallsSucceed(exec, tool, inputs)
    ensures EachError(exec, tool, inputs, pending, i).None?
    decreases |pending| - i
  {
    if i < |pending| {
      EachSucceeds(exec, tool, inputs, pending, i + 1);
    }
  }

  /** How one batch call for a chunk of pending items ends. */
  function ChunkError(exec: Executor, tool: ToolName, inputs: seq<Json>, chunk: seq<nat>): Option<ToolError>
    requires forall q | 0 <= q < |chunk| :: chunk[q] < |inputs|
  {
    var result := exec.callBatch(tool, ChunkOf(inputs, chunk));
    if result.Err? then Some(result.error)
    else if forall q | 0 <= q < |chunk| :: chunk[q] in ByIndex(result.value) then None
    else Some(Coded("batch_missing_output"))
  }

  /** Which chunk of pending items fails first. */
  function ChunksError(exec: Executor, tool: ToolName, inputs: seq<Json>, pending: seq<nat>, lo: nat, size: nat):
      Option<ToolError>
    requires lo <= |pending| && size > 0 && forall q | 0 <= q < |pending| :: pending[q] < |inputs|
    decreases |pending| - lo
  {
    if lo == |pending| then None
    else
      var hi := Min(lo + size, |pending|);
      var error := ChunkError(exec, tool, inputs, pending[lo..hi]);
      if error.Some? then error else ChunksError(exec, tool, inputs, pending, hi, size)
  }

  function OutputOf(result: CallResult): Json {
    if result.Ok? then result.value else Null
  }

  /** What a fan-out reports when `hits` of its items were found in the cache:
      the others are called, one by one or in chunks, up to the first failure. */
  function CachedFanOut(exec: Executor, tool: ToolName, member: PreparedMember, hits: set<nat>): CallResult
    requires member.items.Some?
  {
    var inputs :- ItemInputs(member.input, member.items.value);
    var error := PendingError(exec, tool, inputs, member, hits);
    if error.Some? then Err(error.value)
    else Ok(Arr(Outputs(exec, tool, inputs)))
  }

  function PendingError(exec: Executor, tool: ToolName, inputs: seq<Json>, member: PreparedMember, hits: set<nat>):
      Option<ToolError>
  {
    AwaitedMembers(|inputs|, hits);
    var pending := Awaited(|inputs|, hits);
    assert forall q | 0 <= q < |pending| :: pending[q] in pending;
    if member.batchable && |pending| > 1
    then ChunksError(exec, tool, inputs, pending, 0, ChunkSize(member.batchSize, |pending|))
    else EachError(exec, tool, inputs, pending, 0)
  }

  /** Items with a cached output are filled; the others are pending. */
  method LookUpItems(cache: MemoryCache, ghost world: World, ghost exec: Executor, spec: Spec, inputs: seq<Json>,
      results: array<Option<Json>>) returns (pending: seq<nat>)
    requires Ready(cache, world, exec, spec) && AllWellFormed(inputs)
    requires results.Length == |inputs| && forall i | 0 <= i < results.Length :: results[i] == None
    modifies cache, results
    ensures Ready(cache, world, exec, spec)
    ensures SlotsOk(exec, spec.tool, inputs, results[..]) && AwaitedBy(pending, results[..])
    ensures pending == Awaited(|inputs|, HitsIn(results[..]))
  {
    hide Ready, Awaited;
    pending := [];
    ghost var hits: set<nat> := {};
    AwaitedNone(hits);
    for i := 0 to |inputs|
      invariant hits == (set k | 0 <= k < i && results[k].Some?) && pending == Awaited(i, hits)
      invariant Ready(cache, world, exec, spec)
      invariant forall k | i <= k < results.Length :: results[k] == None
      invariant forall k | 0 <= k < i && results[k].Some? :: exec.call(spec.tool, inputs[k]) == Ok(results[k].value)
      invariant forall a, b | 0 <= a < b < |pending| :: pending[a] < pending[b]
      invariant forall a | 0 <= a < |pending| :: pending[a] < i
      invariant forall k: nat :: k in pending <==> k < i && results[k].None?
    {
      var cached := LookUp(cache, world, exec, spec, inputs[i]);
      AwaitedNext(i, hits, cached.Some?);
      if cached.Some? {
        results[i] := cached;
        hits := hits + {i};
      } else {
        pending := pending + [i];
      }
    }
    assert hits == HitsIn(results[..]);
  }

  lemma AwaitedNone(hits: set<nat>)
    ensures Awaited(0, hits) == []
  {
  }

  lemma AwaitedNext(i: nat, hits: set<nat>, hit: bool)
    requires forall k | k in hits :: k < i
    ensures Awaited(i + 1, if hit then hits + {i} else hits) == Awaited(i, hits) + if hit then [] else [i]
  {
    AwaitedSame(i, hits, hits + {i});
  }

  /** The first pending item whose call fails is what a sequential pass reports. */
  ghost predicate FailsFirstAt(exec: Executor, tool: ToolName, inputs: seq<Json>, pending: seq<nat>, p: nat) {
    && p < |pending| && (forall q | 0 <= q <= p :: pending[q] < |inputs|)
    && (forall q | 0 <= q < p :: exec.call(tool, inputs[pending[q]]).Ok?)
    && exec.call(tool, inputs[pending[p]]).Err?
  }

  ghost predicate FailsFirstWith(exec: Executor, tool: ToolName, inputs: seq<Json>, pending: seq<nat>, p: nat,
      error: ToolError) {
    FailsFirstAt(exec, tool, inputs, pending, p) && error == ItemError(exec.call(tool, inputs[pending[p]]).error)
  }

  /** `run_fan_out_sequential`: one call per pending item, in order. */
  method RunSequential(cache: MemoryCache, ghost world: World, exec: Executor, spec: Spec, inputs: seq<Json>,
      pending: seq<nat>, results: array<Option<Json>>)
    returns (error: Option<ToolError>, ghost sent: seq<nat>)
    requires Ready(cache, world, exec, spec) && AllWellFormed(inputs)
    requires SlotsOk(exec, spec.tool, inputs, results[..]) && AwaitedBy(pending, results[..])
    modifies cache, results
    ensures Ready(cache, world, exec, spec) && SlotsOk(exec, spec.tool, inputs, results[..])
    ensures sent <= pending && (error.None? ==> sent == pending)
    ensures error.None? ==> forall i | 0 <= i < results.Length :: results[i].Some?
    ensures error.Some? ==> exists p: nat :: FailsFirstWith(exec, spec.tool, inputs, pending, p, error.value)
  {
    hide Ready;
    sent := [];
    ghost var before := results[..];
    for p := 0 to |pending|
      invariant Ready(cache, world, exec, spec) && sent == pending[..p]
      invariant forall q | 0 <= q < p ::
        pending[q] < |inputs| && exec.call(spec.tool, inputs[pending[q]]).Ok? && results[pending[q]].Some?
      invariant forall i | 0 <= i < results.Length && before[i].Some? :: results[i] == before[i]
      invariant forall i | 0 <= i < results.Length && results[i].Some? ::
        exec.call(spec.tool, inputs[i]) == Ok(results[i].value)
    {
      var index := pending[p];
      assert index in pending;
      var result := exec.call(spec.tool, inputs[index]);
      sent := sent + [index];
      if result.Err? {
        assert forall q | 0 <= q <= p :: pending[q] in pending;
        assert FailsFirstWith(exec, spec.tool, inputs, pending, p, ItemError(result.error));
        return Some(ItemError(result.error)), sent;
      }
      Keep(cache, world, exec, spec, inputs[index], result.value);
      results[index] := Some(result.value);
    }
    error := None;
    forall i | 0 <= i < results.Length
      ensures results[i].Some?
    {
      if before[i].None? {
        assert i in pending;
        var q :| 0 <= q < |pending| && pending[q] == i;
      }
    }
  }

  function ChunkOf(inputs: seq<Json>, indices: seq<nat>): (chunk: seq<BatchInput>)
    requires forall k | 0 <= k < |indices| :: indices[k] < |inputs|
    ensures |chunk| == |indices|
      && forall k | 0 <= k < |chunk| :: chunk[k] == BatchInput(IndexName(indices[k]), inputs[indices[k]])
  {
    seq(|indices|, k requires 0 <= k < |indices| => BatchInput(IndexName(indices[k]), inputs[indices[k]]))
  }

  lemma HonestChunk(exec: Executor, tool: ToolName, inputs: seq<Json>, indices: seq<nat>)
    requires Honest(exec) && CallsSucceed(exec, tool, inputs)
    requires forall k | 0 <= k < |indices| :: indices[k] < |inputs|
    requires forall i, j | 0 <= i < j < |indices| :: indices[i] < indices[j]
    ensures exec.callBatch(tool, ChunkOf(inputs, indices)).Ok?
    ensures forall k | 0 <= k < |indices| :: indices[k] in ByIndex(exec.callBatch(tool, ChunkOf(inputs, indices)).value)
  {
    hide Honest, ByIndex, IndexName;
    ChunkOutputs(exec, tool, ChunkOf(inputs, indices), indices);
  }

  /** One `call_batch` for a chunk of pending items, in order. */
  method RunChunk(cache: MemoryCache, ghost world: World, exec: Executor, spec: Spec, inputs: seq<Json>,
      chunk: seq<nat>, results: array<Option<Json>>) returns (error: Option<ToolError>)
    requires Ready(cache, world, exec, spec) && AllWellFormed(inputs) && Honest(exec) && Faithful(exec)
    requires SlotsOk(exec, spec.tool, inputs, results[..])
    requires forall k | 0 <= k < |chunk| :: chunk[k] < |inputs|
    requires forall i, j | 0 <= i < j < |chunk| :: chunk[i] < chunk[j]
    modifies cache, results
    ensures Ready(cache, world, exec, spec) && SlotsOk(exec, spec.tool, inputs, results[..])
    ensures forall i | 0 <= i < results.Length && old(results[i]).Some? :: results[i].Some?
    ensures error.None? ==> forall k | 0 <= k < |chunk| :: results[chunk[k]].Some?
    ensures CallsSucceed(exec, spec.tool, inputs) ==> error.None?
    ensures error == ChunkError(exec, spec.tool, inputs, chunk)
  {
    hide Ready, Honest, ByIndex, IndexName, CallsSucceed;
    var sent := ChunkOf(inputs, chunk);
    ChunkNames(inputs, chunk);
    assert FaithfulItems(exec, spec.tool, sent);
    if CallsSucceed(exec, spec.tool, inputs) {
      HonestChunk(exec, spec.tool, inputs, chunk);
    }
    var result := exec.callBatch(spec.tool, sent);
    if result.Err? {
      return Some(result.error);
    }
    var found := ByIndex(result.value);
    ghost var before := results[..];
    for k := 0 to |chunk|
      invariant Ready(cache, world, exec, spec)
      invariant forall i | 0 <= i < results.Length && results[i].Some? ::
        exec.call(spec.tool, inputs[i]) == Ok(results[i].value)
      invariant forall i | 0 <= i < results.Length && before[i].Some? :: results[i].Some?
      invariant forall j | 0 <= j < k :: results[chunk[j]].Some? && chunk[j] in found
    {
      var index := chunk[k];
      if index !in found {
        return Some(Coded("batch_missing_output"));
      }
      assert sent[k].node == IndexName(index);
      Keep(cache, world, exec, spec, inputs[index], found[index]);
      results[index] := Some(found[index]);
    }
    error := None;
  }

  /** `run_fan_out_batched`: the pending items in chunks of `size`. */
  method RunBatched(cache: MemoryCache, ghost world: World, exec: Executor, spec: Spec, inputs: seq<Json>,
      pending: seq<nat>, size: nat, results: array<Option<Json>>)
    returns (error: Option<ToolError>, ghost sent: seq<nat>)
    requires Ready(cache, world, exec, spec) && AllWellFormed(inputs) && Honest(exec) && Faithful(exec) && size > 0
    requires SlotsOk(exec, spec.tool, inputs, results[..]) && AwaitedBy(pending, results[..])
    modifies cache, results
    ensures Ready(cache, world, exec, spec) && SlotsOk(exec, spec.tool, inputs, results[..])
    ensures sent <= pending && (error.None? ==> sent == pending)
    ensures error.None? ==> forall i | 0 <= i < results.Length :: results[i].Some?
    ensures CallsSucceed(exec, spec.tool, inputs) ==> error.None?
    ensures forall q | 0 <= q < |pending| :: pending[q] < |inputs|
    ensures error == ChunksError(exec, spec.tool, inputs, pending, 0, size)
  {
    hide Ready, Honest, Faithful, CallsSucceed, ChunkError;
    assert forall q | 0 <= q < |pending| :: pending[q] in pending;
    sent := [];
    ghost var before := results[..];
    var lo := 0;
    while lo < |pending|
      invariant lo <= |pending| && sent == pending[..lo]
      invariant ChunksError(exec, spec.tool, inputs, pending, 0, size) ==
        ChunksError(exec, spec.tool, inputs, pending, lo, size)
      invariant Ready(cache, world, exec, spec) && SlotsOk(exec, spec.tool, inputs, results[..])
      invariant forall i | 0 <= i < results.Length && before[i].Some? :: results[i].Some?
      invariant forall q | 0 <= q < lo :: pending[q] < results.Length && results[pending[q]].Some?
    {
      var hi := Min(lo + size, |pending|);
      var chunk := pending[lo..hi];
      assert forall k | 0 <= k < |chunk| :: chunk[k] == pending[lo + k] && pending[lo + k] in pending;
      error := RunChunk(cache, world, exec, spec, inputs, chunk, results);
      sent := sent + chunk;
      if error.Some? {
        return error, sent;
      }
      forall q | 0 <= q < hi
        ensures pending[q] < results.Length && results[pending[q]].Some?
      {
        if q >= lo {
          assert chunk[q - lo] == pending[q];
        }
      }
      lo := hi;
    }
    error := None;
    forall i | 0 <= i < results.Length
      ensures results[i].Some?
    {
      if before[i].None? {
        assert i in pending;
        var q :| 0 <= q < |pending| && pending[q] == i;
      }
    }
  }

  lemma {:induction false} CallEachFails(exec: Executor, tool: ToolName, inputs: seq<Json>, i: nat, k: nat)
    requires i <= k < |inputs| && (forall j | i <= j < k :: exec.call(tool, inputs[j]).Ok?)
      && exec.call(tool, inputs[k]).Err?
    ensures CallEach(exec, tool, inputs, i) == Err(ItemError(exec.call(tool, inputs[k]).error))
    decreases k - i
  {
    if i < k {
      CallEachFails(exec, tool, inputs, i + 1, k);
    }
  }

  /** With a truthful cache the first failing pending item is the first failing item. */
  lemma FirstFailure(exec: Executor, tool: ToolName, inputs: seq<Json>, slots: Slots, pending: seq<nat>, p: nat,
      error: ToolError)
    requires SlotsOk(exec, tool, inputs, slots) && AwaitedBy(pending, slots)
      && FailsFirstWith(exec, tool, inputs, pending, p, error)
    ensures CallEach(exec, tool, inputs, 0) == Err(error)
    ensures !CallsSucceed(exec, tool, inputs)
  {
    forall j | 0 <= j < pending[p]
      ensures exec.call(tool, inputs[j]).Ok?
    {
      if slots[j].None? {
        assert j in pending;
        var q :| 0 <= q < |pending| && pending[q] == j;
      }
    }
    CallEachFails(exec, tool, inputs, 0, pending[p]);
  }

  lemma FilledSlots(exec: Executor, tool: ToolName, inputs: seq<Json>, slots: Slots)
    requires SlotsOk(exec, tool, inputs, slots) && forall i | 0 <= i < |slots| :: slots[i].Some?
    ensures CallsSucceed(exec, tool, inputs)
    ensures forall i | 0 <= i < |slots| :: slots[i].value == ItemOutputs(exec, tool, inputs)[i]
  {
  }

  lemma SequentialFanOut(exec: Executor, tool: ToolName, member: PreparedMember)
    requires member.items.Some? && !member.batchable && ItemInputs(member.input, member.items.value).Ok?
    ensures FanOut(exec, tool, member) ==
      (var outputs := CallEach(exec, tool, ItemInputs(member.input, member.items.value).value, 0);
       if outputs.Ok? then Ok(Arr(outputs.value)) else Err(outputs.error))
  {
  }

  /** `dispatch_fan_out`: whatever is cached, the output is the array of the
      items' own outputs in order, each item a hit or sent once, as without a
      cache. For a tool that is not batchable that includes its failures. */
  method DispatchFanOut(cache: MemoryCache, ghost world: World, exec: Executor, spec: Spec, member: PreparedMember)
    returns (result: CallResult, ghost hits: set<nat>, ghost sent: seq<nat>)
    requires Ready(cache, world, exec, spec) && member.items.Some? && WellFormed(member.input)
      && AllWellFormed(member.items.value)
    requires Honest(exec) && Faithful(exec)
    modifies cache
    ensures Ready(cache, world, exec, spec)
    ensures result == CachedFanOut(exec, spec.tool, member, hits) && HitsSucceed(exec, spec.tool, member, hits)
    ensures result.Ok? ==> result == FanOut(exec, spec.tool, member)
    ensures (FanOut(exec, spec.tool, member).Ok?
             && CallsSucceed(exec, spec.tool, ItemInputs(member.input, member.items.value).value)) ==>
      result.Ok?
    ensures !member.batchable || ItemInputs(member.input, member.items.value).Err? ==>
      result == FanOut(exec, spec.tool, member)
    ensures (forall i, j | 0 <= i < j < |sent| :: sent[i] < sent[j]) && forall i | i in sent :: i !in hits
    ensures result.Ok? ==> forall i: nat :: i < |member.items.value| <==> i in hits || i in sent
  {
    hide Ready, Honest, Faithful, FanOut, ItemInputs, CallEach, SlotsOk, Awaited, EachError, ChunksError,
      CachedFanOut, FailsFirstWith;
    hits, sent := {}, [];
    NothingFound(exec, spec.tool, member);
    ItemInputsWellFormed(member.input, member.items.value);
    var substituted := SubstituteAll(member.input, member.items.value);
    if substituted.Err? {
      NoFanOut(exec, spec.tool, member);
      return Err(substituted.error), hits, sent;
    }
    var inputs := substituted.value;
    var results := new Option<Json>[|inputs|](_ => None);
    var pending := LookUpItems(cache, world, exec, spec, inputs, results);
    ghost var slots := results[..];
    SlotCount(exec, spec.tool, inputs, slots);
    hits := HitsIn(slots);
    FoundSucceed(exec, spec.tool, member, inputs, slots);
    var error;
    if member.batchable && |pending| > 1 {
      var size := match member.batchSize case Some(n) => (if n > 1 then n else 1) case None => |pending|;
      error, sent := RunBatched(cache, world, exec, spec, inputs, pending, size, results);
    } else {
      error, sent := RunSequential(cache, world, exec, spec, inputs, pending, results);
      if error.Some? {
        ghost var p: nat :| FailsFirstWith(exec, spec.tool, inputs, pending, p, error.value);
        FirstFailure(exec, spec.tool, inputs, slots, pending, p, error.value);
        AwaitedMembers(|inputs|, hits);
        assert forall q | 0 <= q < |pending| :: pending[q] in pending;
        EachFails(exec, spec.tool, inputs, pending, 0, p, error.value);
        if !member.batchable {
          SequentialFanOut(exec, spec.tool, member);
        }
      } else {
        SlotCount(exec, spec.tool, inputs, results[..]);
        FilledSlots(exec, spec.tool, inputs, results[..]);
        AwaitedMembers(|inputs|, hits);
        assert forall q | 0 <= q < |pending| :: pending[q] in pending;
        EachSucceeds(exec, spec.tool, inputs, pending, 0);
      }
    }
    PrefixIn(sent, pending);
    if error.Some? {
      FanOutFails(exec, spec.tool, member, hits, error.value);
      return Err(error.value), hits, sent;
    }
    SlotCount(exec, spec.tool, inputs, results[..]);
    FilledSlots(exec, spec.tool, inputs, results[..]);
    FanOutSucceeds(exec, spec.tool, member, hits);
    FanOutIsMap(exec, spec.tool, member);
    var outputs := [];
    for i := 0 to results.Length
      invariant outputs == ItemOutputs(exec, spec.tool, inputs)[..i]
    {
      outputs := outputs + [if results[i].Some? then results[i].value else Null];
    }
    assert ItemOutputs(exec, spec.tool, inputs)[..results.Length] == ItemOutputs(exec, spec.tool, inputs);
    result := Ok(Arr(outputs));
  }

  /** Every item found in the cache is one whose own call succeeds. */
  ghost predicate HitsSucceed(exec: Executor, tool: ToolName, member: PreparedMember, hits: set<nat>)
    requires member.items.Some?
  {
    var inputs := ItemInputs(member.input, member.items.value);
    inputs.Ok? ==> forall i | i in hits :: i < |inputs.value| && exec.call(tool, inputs.value[i]).Ok?
  }

  lemma NothingFound(exec: Executor, tool: ToolName, member: PreparedMember)
    requires member.items.Some?
    ensures HitsSucceed(exec, tool, member, {})
    ensures ItemInputs(member.input, member.items.value).Err? ==>
      CachedFanOut(exec, tool, member, {}) == Err(ItemInputs(member.input, member.items.value).error)
  {
  }

  lemma FoundSucceed(exec: Executor, tool: ToolName, member: PreparedMember, inputs: seq<Json>, slots: Slots)
    requires member.items.Some? && ItemInputs(member.input, member.items.value) == Ok(inputs)
    requires SlotsOk(exec, tool, inputs, slots)
    ensures HitsSucceed(exec, tool, member, HitsIn(slots))
  {
    hide ItemInputs;
  }

  lemma FanOutFails(exec: Executor, tool: ToolName, member: PreparedMember, hits: set<nat>, error: ToolError)
    requires member.items.Some? && ItemInputs(member.input, member.items.value).Ok?
    requires PendingError(exec, tool, ItemInputs(member.input, member.items.value).value, member, hits) == Some(error)
    ensures CachedFanOut(exec, tool, member, hits) == Err(error)
  {
    hide ItemInputs, PendingError;
  }

  lemma FanOutSucceeds(exec: Executor, tool: ToolName, member: PreparedMember, hits: set<nat>)
    requires member.items.Some? && ItemInputs(member.input, member.items.value).Ok?
    requires CallsSucceed(exec, tool, ItemInputs(member.input, member.items.value).value)
    requires PendingError(exec, tool, ItemInputs(member.input, member.items.value).value, member, hits).None?
    ensures CachedFanOut(exec, tool, member, hits) ==
      Ok(Arr(ItemOutputs(exec, tool, ItemInputs(member.input, member.items.value).value)))
  {
    hide ItemInputs, PendingError;
    var inputs := ItemInputs(member.input, member.items.value).value;
    assert Outputs(exec, tool, inputs) == ItemOutputs(exec, tool, inputs);
  }

  // Without hits that is the cache-free fan-out.

  lemma {:induction false} AwaitedAll(count: nat)
    ensures |Awaited(count, {})| == count && forall i | 0 <= i < count :: Awaited(count, {})[i] == i
  {
    if count > 0 {
      AwaitedAll(count - 1);
    }
  }

  function Outputs(exec: Executor, tool: ToolName, inputs: seq<Json>): (outputs: seq<Json>)
    ensures |outputs| == |inputs| && forall i | 0 <= i < |inputs| :: outputs[i] == OutputOf(exec.call(tool, inputs[i]))
  {
    seq(|inputs|, i requires 0 <= i < |inputs| => OutputOf(exec.call(tool, inputs[i])))
  }

  function Ended(error: Option<ToolError>, outputs: seq<Json>): Result<seq<Json>, ToolError> {
    if error.Some? then Err(error.value) else Ok(outputs)
  }

  lemma {:induction false} EachIsCallEach(exec: Executor, tool: ToolName, inputs: seq<Json>, pending: seq<nat>, i: nat)
    requires |pending| == |inputs| && (forall q | 0 <= q < |pending| :: pending[q] == q) && i <= |inputs|
    ensures CallEach(exec, tool, inputs, i) ==
      Ended(EachError(exec, tool, inputs, pending, i), Outputs(exec, tool, inputs)[i..])
    decreases |inputs| - i
  {
    var outputs := Outputs(exec, tool, inputs);
    if i < |inputs| {
      EachIsCallEach(exec, tool, inputs, pending, i + 1);
      assert outputs[i..] == [outputs[i]] + outputs[i + 1..];
    } else {
      assert outputs[i..] == [];
    }
  }

  lemma {:induction false} PickFound(found: map<nat, Json>, outputs: seq<Json>, lo: nat, hi: nat)
    requires lo <= hi <= |outputs| && forall k | lo <= k < hi && k in found :: found[k] == outputs[k]
    ensures PickRange(found, lo, hi) ==
      if forall k | lo <= k < hi :: k in found then Ok(outputs[lo..hi]) else Err(Coded("batch_missing_output"))
    decreases hi - lo
  {
    if lo < hi {
      PickFound(found, outputs, lo + 1, hi);
      assert outputs[lo..hi] == [outputs[lo]] + outputs[lo + 1..hi];
    } else {
      assert outputs[lo..hi] == [];
    }
  }

  lemma ChunkIsCallChunk(exec: Executor, tool: ToolName, inputs: seq<Json>, chunk: seq<nat>, lo: nat, hi: nat)
    requires Faithful(exec) && lo <= hi <= |inputs| && |chunk| == hi - lo
      && forall q | 0 <= q < |chunk| :: chunk[q] == lo + q
    ensures CallChunk(exec, tool, inputs, lo, hi) ==
      Ended(ChunkError(exec, tool, inputs, chunk), Outputs(exec, tool, inputs)[lo..hi])
  {
    ChunkNames(inputs, chunk);
    var sent, outputs := ChunkOf(inputs, chunk), Outputs(exec, tool, inputs);
    assert sent == ChunkInputs(inputs, lo, hi);
    assert FaithfulItems(exec, tool, sent);
    hide Faithful, ByIndex, IndexName, PickRange;
    var result := exec.callBatch(tool, sent);
    if result.Ok? {
      var found := ByIndex(result.value);
      forall k | lo <= k < hi && k in found
        ensures found[k] == outputs[k]
      {
        assert chunk[k - lo] == k && sent[k - lo].node == IndexName(k);
      }
      PickFound(found, outputs, lo, hi);
      if forall q | 0 <= q < |chunk| :: chunk[q] in found {
        forall k | lo <= k < hi
          ensures k in found
        {
          assert chunk[k - lo] == k;
        }
      }
    }
  }

  lemma {:induction false} ChunksAreCallChunks(exec: Executor, tool: ToolName, inputs: seq<Json>, pending: seq<nat>,
      lo: nat, size: nat)
    requires Faithful(exec) && |pending| == |inputs| && (forall q | 0 <= q < |pending| :: pending[q] == q)
    requires lo <= |inputs| && size > 0
    ensures CallChunks(exec, tool, inputs, lo, size) ==
      Ended(ChunksError(exec, tool, inputs, pending, lo, size), Outputs(exec, tool, inputs)[lo..])
    decreases |inputs| - lo
  {
    hide Faithful, CallChunk, ChunkError;
    var outputs := Outputs(exec, tool, inputs);
    if lo < |inputs| {
      var hi := Min(lo + size, |inputs|);
      ChunkIsCallChunk(exec, tool, inputs, pending[lo..hi], lo, hi);
      ChunksAreCallChunks(exec, tool, inputs, pending, hi, size);
      assert outputs[lo..] == outputs[lo..hi] + outputs[hi..];
    } else {
      assert outputs[lo..] == [];
    }
  }

  /** With nothing found, a fan-out is the cache-free one, errors included. */
  lemma UncachedFanOut(exec: Executor, tool: ToolName, member: PreparedMember)
    requires Faithful(exec) && member.items.Some?
    ensures CachedFanOut(exec, tool, member, {}) == FanOut(exec, tool, member)
  {
    hide Faithful, ItemInputs, CallEach, CallChunks, EachError, ChunksError, Awaited;
    var inputs := ItemInputs(member.input, member.items.value);
    if inputs.Ok? {
      AwaitedAll(|inputs.value|);
      var pending, outputs := Awaited(|inputs.value|, {}), Outputs(exec, tool, inputs.value);
      EachIsCallEach(exec, tool, inputs.value, pending, 0);
      var size := if pending == [] then 1 else ChunkSize(member.batchSize, |pending|);
      ChunksAreCallChunks(exec, tool, inputs.value, pending, 0, size);
      assert outputs[0..] == outputs;
    }
  }

  lemma NoFanOut(exec: Executor, tool: ToolName, member: PreparedMember)
    requires member.items.Some? && ItemInputs(member.input, member.items.value).Err?
    ensures FanOut(exec, tool, member) == Err(ItemInputs(member.input, member.items.value).error)
  {
  }

  lemma SlotCount(exec: Executor, tool: ToolName, inputs: seq<Json>, slots: Slots)
    requires SlotsOk(exec, tool, inputs, slots)
    ensures |slots| == |inputs|
  {
  }

  lemma PrefixIn(sent: seq<nat>, pending: seq<nat>)
    requires sent <= pending
    ensures forall i | 0 <= i < |sent| :: sent[i] == pending[i]
    ensures forall i | i in sent :: i in pending
  {
    assert forall i | 0 <= i < |sent| :: sent[i] == pending[i];
  }

  // -------------------------------------------------------------------- unit

  /** What the lookups of a unit found: members of a batch, items of fan-outs. */
  datatype Hits = Hits(members: set<NodeId>, items: map<NodeId, set<nat>>)

  function ItemHits(hits: Hits, node: NodeId): set<nat> {
    if node in hits.items then hits.items[node] else {}
  }

  /** Only calls that succeed are ever found. */
  ghost predicate HitsOk(exec: Executor, tool: ToolName, batch: bool, members: seq<PreparedMember>, hits: Hits) {
    forall i | 0 <= i < |members| ::
      if batch then members[i].node in hits.members ==> exec.call(tool, members[i].input).Ok?
      else members[i].items.Some? ==> HitsSucceed(exec, tool, members[i], ItemHits(hits, members[i].node))
  }

  /** What dispatching `members` through a truthful cache reports for `member`
      when `hits` were found: its own output if it was found, its share of the
      call for the others, a fan-out of the items not found, or its own call. */
  function CachedResult(exec: Executor, tool: ToolName, batch: bool, members: seq<PreparedMember>, hits: Hits,
      member: PreparedMember): CallResult
  {
    if batch then
      if member.node in hits.members then exec.call(tool, member.input)
      else BatchResult(exec, tool, Missed(members, hits.members), member.node)
    else if member.items.Some? then CachedFanOut(exec, tool, member, ItemHits(hits, member.node))
    else exec.call(tool, member.input)
  }

  /** Where no call fails, hits do not show. */
  lemma CachedBatchIsOwn(exec: Executor, tool: ToolName, members: seq<PreparedMember>, hits: Hits, i: nat)
    requires Honest(exec) && DistinctMembers(members) && AllSucceed(exec, tool, members) && i < |members|
    ensures CachedResult(exec, tool, true, members, hits, members[i]) == exec.call(tool, members[i].input)
  {
    hide Honest, Missed, BatchResult;
    if members[i].node !in hits.members {
      MissedMembers(members, hits.members);
      MissedSucceed(exec, tool, members, hits.members);
      MissedAt(members, hits.members, i);
      var missed := Missed(members, hits.members);
      var k :| 0 <= k < |missed| && missed[k] == members[i];
      BatchIsPointwise(exec, tool, missed, k);
    }
  }

  lemma {:induction false} ChunksSucceed(exec: Executor, tool: ToolName, inputs: seq<Json>, pending: seq<nat>, lo: nat,
      size: nat)
    requires Honest(exec) && CallsSucceed(exec, tool, inputs) && lo <= |pending| && size > 0
    requires forall q | 0 <= q < |pending| :: pending[q] < |inputs|
    requires forall i, j | 0 <= i < j < |pending| :: pending[i] < pending[j]
    ensures ChunksError(exec, tool, inputs, pending, lo, size).None?
    decreases |pending| - lo
  {
    hide Honest, ByIndex, IndexName, CallsSucceed;
    if lo < |pending| {
      var hi := Min(lo + size, |pending|);
      HonestChunk(exec, tool, inputs, pending[lo..hi]);
      ChunksSucceed(exec, tool, inputs, pending, hi, size);
    }
  }

  lemma {:induction false} FirstError(exec: Executor, tool: ToolName, inputs: seq<Json>, k: nat) returns (first: nat)
    requires k < |inputs| && exec.call(tool, inputs[k]).Err?
    ensures first < |inputs| && exec.call(tool, inputs[first]).Err?
    ensures forall j | 0 <= j < first :: exec.call(tool, inputs[j]).Ok?
    decreases k
  {
    if j :| 0 <= j < k && exec.call(tool, inputs[j]).Err? {
      first := FirstError(exec, tool, inputs, j);
    } else {
      first := k;
    }
  }

  lemma EachSkipsHits(exec: Executor, tool: ToolName, inputs: seq<Json>, hits: set<nat>, k: nat)
    requires forall i | i in hits :: i < |inputs| && exec.call(tool, inputs[i]).Ok?
    requires k < |inputs| && exec.call(tool, inputs[k]).Err?
    requires forall q | 0 <= q < |Awaited(|inputs|, hits)| :: Awaited(|inputs|, hits)[q] < |inputs|
    ensures EachError(exec, tool, inputs, Awaited(|inputs|, hits), 0).Some?
    ensures CallEach(exec, tool, inputs, 0) == Err(EachError(exec, tool, inputs, Awaited(|inputs|, hits), 0).value)
  {
    hide Awaited, EachError, CallEach;
    var pending := Awaited(|inputs|, hits);
    AwaitedMembers(|inputs|, hits);
    var first := FirstError(exec, tool, inputs, k);
    assert first in pending;
    var p :| 0 <= p < |pending| && pending[p] == first;
    EachFails(exec, tool, inputs, pending, 0, p, ItemError(exec.call(tool, inputs[first]).error));
    CallEachFails(exec, tool, inputs, 0, first);
  }

  lemma CachedFanOutIsOwn(exec: Executor, tool: ToolName, member: PreparedMember, hits: set<nat>)
    requires Honest(exec) && member.items.Some? && HitsSucceed(exec, tool, member, hits)
    requires member.batchable && ItemInputs(member.input, member.items.value).Ok? ==>
      CallsSucceed(exec, tool, ItemInputs(member.input, member.items.value).value)
    ensures CachedFanOut(exec, tool, member, hits) == FanOut(exec, tool, member)
  {
    hide Honest, ItemInputs, Awaited, EachError, ChunksError, CallEach, CallChunks;
    var result := ItemInputs(member.input, member.items.value);
    if result.Ok? {
      var inputs, pending := result.value, Awaited(|result.value|, hits);
      AwaitedMembers(|inputs|, hits);
      assert forall q | 0 <= q < |pending| :: pending[q] in pending;
      if CallsSucceed(exec, tool, inputs) {
        EachSucceeds(exec, tool, inputs, pending, 0);
        var size := if pending == [] then 1 else ChunkSize(member.batchSize, |pending|);
        ChunksSucceed(exec, tool, inputs, pending, 0, size);
        FanOutSucceeds(exec, tool, member, hits);
        FanOutIsMap(exec, tool, member);
      } else {
        var k :| 0 <= k < |inputs| && exec.call(tool, inputs[k]).Err?;
        EachSkipsHits(exec, tool, inputs, hits, k);
        FanOutFails(exec, tool, member, hits, EachError(exec, tool, inputs, pending, 0).value);
      }
    }
  }

  ghost predicate ItemsWellFormed(members: seq<PreparedMember>) {
    forall i | 0 <= i < |members| && members[i].items.Some? :: AllWellFormed(members[i].items.value)
  }

  /** `dispatch_unit`: a batch, or each member as a fan-out or a single call. */
  method DispatchUnit(cache: MemoryCache, ghost world: World, exec: Executor, spec: Spec, batch: bool,
      members: seq<PreparedMember>)
    returns (results: map<NodeId, CallResult>, ghost hits: Hits)
    requires Ready(cache, world, exec, spec) && WellFormedInputs(members) && ItemsWellFormed(members)
      && DistinctMembers(members)
    requires Honest(exec) && Faithful(exec)
    modifies cache
    ensures Ready(cache, world, exec, spec)
    ensures HitsOk(exec, spec.tool, batch, members, hits)
    ensures forall i | 0 <= i < |members| :: members[i].node in results
              && results[members[i].node] == CachedResult(exec, spec.tool, batch, members, hits, members[i])
  {
    hide Ready, Honest, Faithful, BatchResult, Missed, FanOut, AllSucceed, CachedFanOut, HitsSucceed;
    if batch {
      ghost var found;
      results, found := DispatchBatch(cache, world, exec, spec, members);
      hits := Hits(found, map[]);
      return;
    }
    results, hits := map[], Hits({}, map[]);
    for k := 0 to |members|
      invariant Ready(cache, world, exec, spec) && hits.members == {}
      invariant forall n | n in hits.items :: exists i :: 0 <= i < k && members[i].node == n
      invariant forall i | 0 <= i < k :: members[i].items.Some? ==>
        HitsSucceed(exec, spec.tool, members[i], ItemHits(hits, members[i].node))
      invariant forall i | 0 <= i < k :: members[i].node in results
                  && results[members[i].node] == CachedResult(exec, spec.tool, batch, members, hits, members[i])
    {
      var result;
      ghost var found;
      result, found := DispatchAlone(cache, world, exec, spec, members[k]);
      results := results[members[k].node := result];
      hits := hits.(items := hits.items[members[k].node := found]);
    }
  }

  method DispatchAlone(cache: MemoryCache, ghost world: World, exec: Executor, spec: Spec, member: PreparedMember)
    returns (result: CallResult, ghost hits: set<nat>)
    requires Ready(cache, world, exec, spec) && WellFormed(member.input) && Honest(exec) && Faithful(exec)
    requires member.items.Some? ==> AllWellFormed(member.items.value)
    modifies cache
    ensures Ready(cache, world, exec, spec)
    ensures if member.items.Some?
            then result == CachedFanOut(exec, spec.tool, member, hits) && HitsSucceed(exec, spec.tool, member, hits)
            else result == exec.call(spec.tool, member.input)
  {
    hide Ready, Honest, Faithful, FanOut, CachedFanOut, HitsSucceed;
    hits := {};
    if member.items.Some? {
      ghost var sent;
      result, hits, sent := DispatchFanOut(cache, world, exec, spec, member);
    } else {
      var hit;
      result, hit := DispatchSingle(cache, world, exec, spec, member);
    }
  }
}
