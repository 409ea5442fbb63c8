/** What a dispatched unit computes without a cache, as a function of its
    prepared members: single calls, batch calls, and fan-out over items. */
module Calls {
  import opened Wrappers
  import opened Json
  import opened Plans
  import opened Resolve

  /** Tool errors by machine-readable code; messages are not modelled. */
  datatype ToolError = ToolError(code: Option<string>)

  datatype BatchInput = BatchInput(node: string, input: Json)
  datatype BatchOutput = BatchOutput(node: string, output: Json)

  type CallResult = Result<Json, ToolError>

  /** An adapter whose answers depend on the tool and the inputs alone. */
  datatype Executor = Executor(
    call: (ToolName, Json) -> CallResult,
    callBatch: (ToolName, seq<BatchInput>) -> Result<seq<BatchOutput>, ToolError>)

  /** One node ready to run. */
  datatype PreparedMember = PreparedMember(
    node: NodeId,
    input: Json,
    items: Option<seq<Json>>,
    batchable: bool,
    batchSize: Option<nat>)

  function Coded(code: string): ToolError {
    ToolError(Some(code))
  }

  // ------------------------------------------------------------- fan-out

  /** The inputs of the items, or the first item the template does not fit. */
  function ItemInputs(template: Json, items: seq<Json>): Result<seq<Json>, ToolError> {
    if items == [] then Ok([])
    else
      var first := SubstituteItem(template, items[0]);
      if first.Err? then Err(Coded("invalid_item"))
      else
        var rest :- ItemInputs(template, items[1..]);
        Ok([first.value] + rest)
  }

  function ItemError(error: ToolError): ToolError {
    if error.code.Some? then error else Coded("item_failed")
  }

  /** One call per input, in order, up to the first failure. */
  function CallEach(exec: Executor, tool: ToolName, inputs: seq<Json>, i: nat): Result<seq<Json>, ToolError>
    requires i <= |inputs|
    decreases |inputs| - i
  {
    if i == |inputs| then Ok([])
    else
      var first := exec.call(tool, inputs[i]);
      if first.Err? then Err(ItemError(first.error))
      else
        var rest :- CallEach(exec, tool, inputs, i + 1);
        Ok([first.value] + rest)
  }

  /** `usize::to_string`. */
  function IndexName(n: nat): string {
    if n < 10 then [('0' as int + n) as char] else IndexName(n / 10) + [('0' as int + n % 10) as char]
  }

  lemma {:induction false} IndexNameDigits(n: nat)
    ensures IndexName(n) != "" && forall i | 0 <= i < |IndexName(n)| :: '0' <= IndexName(n)[i] <= '9'
    ensures DigitsValue(IndexName(n)) == n
  {
    var s := IndexName(n);
    if n >= 10 {
      IndexNameDigits(n / 10);
      assert s[..|s| - 1] == IndexName(n / 10);
    } else {
      assert s[..|s| - 1] == "";
    }
  }

  lemma IndexNameParses(n: nat)
    ensures ParseIndex(IndexName(n)) == Some(n)
  {
    IndexNameDigits(n);
  }

  /** The inputs of items `lo` to `hi`, each named by its index. */
  function ChunkInputs(inputs: seq<Json>, lo: nat, hi: nat): seq<BatchInput>
    requires lo <= hi <= |inputs|
  {
    seq(hi - lo, i requires 0 <= i < hi - lo => BatchInput(IndexName(lo + i), inputs[lo + i]))
  }

  /** Outputs by the index they name; a later output replaces an earlier one. */
  function ByIndex(outputs: seq<BatchOutput>): map<nat, Json> {
    if outputs == [] then map[]
    else
      var last := outputs[|outputs| - 1];
      var index := ParseIndex(last.node);
      var init := ByIndex(outputs[..|outputs| - 1]);
      if index.Some? then init[index.value := last.output] else init
  }

  function PickRange(found: map<nat, Json>, lo: nat, hi: nat): Result<seq<Json>, ToolError>
    requires lo <= hi
    decreases hi - lo
  {
    if lo == hi then Ok([])
    else if lo !in found then Err(Coded("batch_missing_output"))
    else
      var rest :- PickRange(found, lo + 1, hi);
      Ok([found[lo]] + rest)
  }

  function CallChunk(exec: Executor, tool: ToolName, inputs: seq<Json>, lo: nat, hi: nat): Result<seq<Json>, ToolError>
    requires lo <= hi <= |inputs|
  {
    var outputs :- exec.callBatch(tool, ChunkInputs(inputs, lo, hi));
    PickRange(ByIndex(outputs), lo, hi)
  }

  function Min(a: nat, b: nat): nat {
    if a < b then a else b
  }

  /** One batch call per chunk, in order, up to the first failure. */
  function CallChunks(exec: Executor, tool: ToolName, inputs: seq<Json>, lo: nat, size: nat): Result<seq<Json>,
        ToolError>
    requires lo <= |inputs| && size > 0
    decreases |inputs| - lo
  {
    if lo == |inputs| then Ok([])
    else
      var hi := Min(lo + size, |inputs|);
      var first :- CallChunk(exec, tool, inputs, lo, hi);
      var rest :- CallChunks(exec, tool, inputs, hi, size);
      Ok(first + rest)
  }

  function ChunkSize(batchSize: Option<nat>, count: nat): (size: nat)
    ensures count > 0 ==> size > 0
  {
    match batchSize
    case Some(size) => if size > 1 then size else 1
    case None => count
  }

  function FanOut(exec: Executor, tool: ToolName, member: PreparedMember): CallResult
    requires member.items.Some?
  {
    var inputs :- ItemInputs(member.input, member.items.value);
    var outputs :- if member.batchable && |inputs| > 1
      then CallChunks(exec, tool, inputs, 0, ChunkSize(member.batchSize, |inputs|))
      else CallEach(exec, tool, inputs, 0);
    Ok(Arr(outputs))
  }

  function SingleResult(exec: Executor, tool: ToolName, member: PreparedMember): CallResult {
    if member.items.Some? then FanOut(exec, tool, member) else exec.call(tool, member.input)
  }

  // --------------------------------------------------------------- batch

  ghost predicate DistinctMembers(members: seq<PreparedMember>) {
    forall i, j | 0 <= i < j < |members| :: members[i].node != members[j].node
  }

  function MemberInputs(members: seq<PreparedMember>): (inputs: seq<BatchInput>)
    ensures |inputs| == |members|
    ensures forall i | 0 <= i < |members| :: inputs[i] == BatchInput(members[i].node, members[i].input)
  {
    seq(|members|, i requires 0 <= i < |members| => BatchInput(members[i].node, members[i].input))
  }

  function ByNode(outputs: seq<BatchOutput>): map<string, Json> {
    if outputs == [] then map[]
    else
      var last := outputs[|outputs| - 1];
      ByNode(outputs[..|outputs| - 1])[last.node := last.output]
  }

  /** A batch member's result: its own output, or the failure of the whole call. */
  function BatchResult(exec: Executor, tool: ToolName, members: seq<PreparedMember>, node: NodeId): CallResult {
    var result := exec.callBatch(tool, MemberInputs(members));
    if result.Err? then Err(result.error)
    else
      var found := ByNode(result.value);
      if node in found then Ok(found[node]) else Err(Coded("batch_missing_output"))
  }

  /** What dispatching `members` as one unit reports for `member`. */
  function UnitResult(exec: Executor, tool: ToolName, batch: bool, members: seq<PreparedMember>,
      member: PreparedMember): CallResult {
    if batch then BatchResult(exec, tool, members, member.node) else SingleResult(exec, tool, member)
  }

  // ------------------------------------------------ honest batch adapters

  /** `output` is what the call on one of the inputs gives, under its name. */
  ghost predicate Answers(exec: Executor, tool: ToolName, inputs: seq<BatchInput>, output: BatchOutput) {
    exists input :: input in inputs && input.node == output.node && exec.call(tool, input.input) == Ok(output.output)
  }

  ghost predicate Named(outputs: seq<BatchOutput>, node: string) {
    exists output :: output in outputs && output.node == node
  }

  /** Every output answers an input and every input has an output, in any order. */
  ghost predicate Keyed(exec: Executor, tool: ToolName, inputs: seq<BatchInput>, outputs: seq<BatchOutput>) {
    && (forall output | output in outputs :: Answers(exec, tool, inputs, output))
    && forall input | input in inputs :: Named(outputs, input.node)
  }

  /** The adapter contract for one batch: when every single call would succeed,
      the batch call returns each input's own output, under the input's name. */
  ghost predicate HonestBatch(exec: Executor, tool: ToolName, inputs: seq<BatchInput>) {
    (forall i | 0 <= i < |inputs| :: exec.call(tool, inputs[i].input).Ok?) ==>
      exec.callBatch(tool, inputs).Ok? && Keyed(exec, tool, inputs, exec.callBatch(tool, inputs).value)
  }

  ghost predicate Honest(exec: Executor) {
    forall tool, inputs :: HonestBatch(exec, tool, inputs)
  }

  lemma {:induction false} ByNodeFinds(outputs: seq<BatchOutput>, i: nat)
    requires i < |outputs|
      && forall j | 0 <= j < |outputs| && outputs[j].node == outputs[i].node :: outputs[j].output == outputs[i].output
    ensures outputs[i].node in ByNode(outputs) && ByNode(outputs)[outputs[i].node] == outputs[i].output
  {
    var init := outputs[..|outputs| - 1];
    if i < |init| {
      ByNodeFinds(init, i);
    }
  }

  /** A batch in which no call fails gives each member what its own call gives. */
  lemma BatchIsPointwise(exec: Executor, tool: ToolName, members: seq<PreparedMember>, i: nat)
    requires Honest(exec) && i < |members| && DistinctMembers(members)
    requires forall j | 0 <= j < |members| :: exec.call(tool, members[j].input).Ok?
    ensures BatchResult(exec, tool, members, members[i].node) == exec.call(tool, members[i].input)
  {
    var inputs := MemberInputs(members);
    assert HonestBatch(exec, tool, inputs);
    var outputs := exec.callBatch(tool, inputs).value;
    assert inputs[i] in inputs && Named(outputs, inputs[i].node);
    var k :| 0 <= k < |outputs| && outputs[k].node == inputs[i].node;
    forall j | 0 <= j < |outputs| && outputs[j].node == outputs[k].node
      ensures Ok(outputs[j].output) == exec.call(tool, members[i].input)
    {
      assert Answers(exec, tool, inputs, outputs[j]);
      var m :| 0 <= m < |inputs| && inputs[m].node == outputs[j].node
        && exec.call(tool, inputs[m].input) == Ok(outputs[j].output);
      assert m == i;
    }
    ByNodeFinds(outputs, k);
  }

  // ------------------------------------------------- the default batch adapter

  /** The default `call_batch`: one call after the other, stopping at the first failure. */
  function OneByOne(call: (ToolName, Json) -> CallResult, tool: ToolName,
      inputs: seq<BatchInput>): Result<seq<BatchOutput>, ToolError> {
    if inputs == [] then Ok([])
    else
      var first :- call(tool, inputs[0].input);
      var rest :- OneByOne(call, tool, inputs[1..]);
      Ok([BatchOutput(inputs[0].node, first)] + rest)
  }

  ghost predicate DefaultBatch(exec: Executor) {
    forall tool, inputs :: DefaultOn(exec, tool, inputs)
  }

  ghost predicate DefaultOn(exec: Executor, tool: ToolName, inputs: seq<BatchInput>) {
    exec.callBatch(tool, inputs) == OneByOne(exec.call, tool, inputs)
  }

  lemma {:induction false} OneByOneOutputs(call: (ToolName, Json) -> CallResult, tool: ToolName,
      inputs: seq<BatchInput>)
    ensures OneByOne(call, tool, inputs).Ok? <==> forall i | 0 <= i < |inputs| :: call(tool, inputs[i].input).Ok?
    ensures OneByOne(call, tool, inputs).Ok? ==> |OneByOne(call, tool, inputs).value| == |inputs|
    ensures OneByOne(call, tool, inputs).Ok? ==>
              forall i | 0 <= i < |inputs| ::
                OneByOne(call, tool, inputs).value[i] == BatchOutput(inputs[i].node, call(tool, inputs[i].input).value)
    ensures OneByOne(call, tool, inputs).Err? ==>
      exists i :: 0 <= i < |inputs| && call(tool, inputs[i].input) == Err(OneByOne(call, tool, inputs).error)
  {
    if inputs != [] {
      var rest := inputs[1..];
      OneByOneOutputs(call, tool, rest);
      assert forall i | 0 <= i < |rest| :: rest[i] == inputs[i + 1];
      if call(tool, inputs[0].input).Ok? && OneByOne(call, tool, rest).Err? {
        var i :| 0 <= i < |rest| && call(tool, rest[i].input) == Err(OneByOne(call, tool, rest).error);
        assert call(tool, inputs[i + 1].input) == Err(OneByOne(call, tool, inputs).error);
      }
    }
  }

  /** The default batch is honest. */
  lemma DefaultIsHonest(exec: Executor)
    requires DefaultBatch(exec)
    ensures Honest(exec)
  {
    forall tool: ToolName, inputs: seq<BatchInput>
      ensures HonestBatch(exec, tool, inputs)
    {
      assert DefaultOn(exec, tool, inputs);
      OneByOneOutputs(exec.call, tool, inputs);
      if forall i | 0 <= i < |inputs| :: exec.call(tool, inputs[i].input).Ok? {
        var outputs := OneByOne(exec.call, tool, inputs).value;
        forall k | 0 <= k < |outputs|
          ensures Answers(exec, tool, inputs, outputs[k]) && Named(outputs, inputs[k].node)
        {
          assert inputs[k] in inputs && outputs[k] in outputs;
        }
      }
    }
  }

  ghost predicate AllSucceed(exec: Executor, tool: ToolName, members: seq<PreparedMember>) {
    forall i | 0 <= i < |members| :: exec.call(tool, members[i].input).Ok?
  }

  ghost predicate AllFailAlike(exec: Executor, tool: ToolName, members: seq<PreparedMember>) {
    exists error :: forall i | 0 <= i < |members| :: exec.call(tool, members[i].input) == Err(error)
  }

  ghost predicate Pointwise(exec: Executor, tool: ToolName, members: seq<PreparedMember>) {
    forall i | 0 <= i < |members| ::
      BatchResult(exec, tool, members, members[i].node) == exec.call(tool, members[i].input)
  }

  /** One failing call fails its whole batch. So a batch reports for its members
      what their own calls would exactly when none of these calls fails, or all
      fail with the same error. */
  lemma BatchPoisons(exec: Executor, tool: ToolName, members: seq<PreparedMember>)
    requires DefaultBatch(exec) && DistinctMembers(members)
    ensures Pointwise(exec, tool, members) <==> AllSucceed(exec, tool, members) || AllFailAlike(exec, tool, members)
  {
    var inputs := MemberInputs(members);
    var result := exec.callBatch(tool, inputs);
    assert DefaultOn(exec, tool, inputs);
    OneByOneOutputs(exec.call, tool, inputs);
    if AllSucceed(exec, tool, members) {
      DefaultIsHonest(exec);
      forall i | 0 <= i < |members|
        ensures BatchResult(exec, tool, members, members[i].node) == exec.call(tool, members[i].input)
      {
        BatchIsPointwise(exec, tool, members, i);
      }
    } else {
      assert result.Err?;
      assert forall i | 0 <= i < |members| :: BatchResult(exec, tool, members, members[i].node) == Err(result.error);
      var k :| 0 <= k < |inputs| && exec.call(tool, inputs[k].input) == Err(result.error);
      if error :| forall i | 0 <= i < |members| :: exec.call(tool, members[i].input) == Err(error) {
        assert exec.call(tool, members[k].input) == Err(error);
      }
      if Pointwise(exec, tool, members) {
        assert forall i | 0 <= i < |members| :: exec.call(tool, members[i].input) == Err(result.error);
      }
    }
  }
}
