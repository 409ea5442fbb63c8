/** What dispatched calls answer, stated of the adapter's own answers: which call
    an output comes from and which failure is reported. */
module FanOuts {
  import opened Wrappers
  import opened Json
  import opened Plans
  import opened Resolve
  import opened Calls
  import opened Batching
  import opened Paths

  // ------------------------------------------------------------ one by one

  /** The failure keeps its code, or has none of its own and is `item_failed`. */
  ghost predicate FailsAs(error: ToolError, reported: ToolError) {
    reported.code == if error.code == None then Some("item_failed") else error.code
  }

  ghost predicate FirstFailing(exec: Executor, tool: ToolName, inputs: seq<Json>, i: nat, error: ToolError) {
    && i < |inputs| && exec.call(tool, inputs[i]) == Err(error)
    && forall k | 0 <= k < i :: exec.call(tool, inputs[k]).Ok?
  }

  ghost predicate CalledFor(exec: Executor, tool: ToolName, inputs: seq<Json>, outputs: seq<Json>) {
    |outputs| == |inputs| && forall i | 0 <= i < |inputs| :: exec.call(tool, inputs[i]) == Ok(outputs[i])
  }

  /** A member that is not batchable, or has one item, is called item by item:
      its output lists theirs, or it fails as the first item that fails. */
  lemma CalledOneByOne(exec: Executor, tool: ToolName, member: PreparedMember, inputs: seq<Json>)
    requires member.items.Some? && ItemInputs(member.input, member.items.value) == Ok(inputs)
    requires !member.batchable || |inputs| <= 1
    ensures match FanOut(exec, tool, member)
      case Ok(output) => output.Arr? && CalledFor(exec, tool, inputs, output.items)
      case Err(reported) => exists i, error :: FirstFailing(exec, tool, inputs, i, error) && FailsAs(error, reported)
  {
    EachFrom(exec, tool, inputs, 0);
  }

  lemma {:induction false} EachFrom(exec: Executor, tool: ToolName, inputs: seq<Json>, from: nat)
    requires from <= |inputs| && forall k | 0 <= k < from :: exec.call(tool, inputs[k]).Ok?
    ensures match CallEach(exec, tool, inputs, from)
      case Ok(outputs) => CalledFor(exec, tool, inputs[from..], outputs)
      case Err(reported) => exists i, error :: FirstFailing(exec, tool, inputs, i, error) && FailsAs(error, reported)
    decreases |inputs| - from
  {
    if from < |inputs| {
      if exec.call(tool, inputs[from]).Err? {
        assert FirstFailing(exec, tool, inputs, from, exec.call(tool, inputs[from]).error);
      } else {
        EachFrom(exec, tool, inputs, from + 1);
      }
    }
  }

  // -------------------------------------------------------------- in chunks

  /** The last output that names the item is `value`. */
  ghost predicate NamesItem(outputs: seq<BatchOutput>, item: nat, value: Json) {
    exists j: nat :: LastFor(outputs, item, j) && outputs[j].output == value
  }

  ghost predicate LastFor(outputs: seq<BatchOutput>, item: nat, j: nat) {
    && j < |outputs| && NamesIndex(outputs[j].node, item)
    && forall k | j < k < |outputs| :: !NamesIndex(outputs[k].node, item)
  }

  ghost predicate NoneNames(outputs: seq<BatchOutput>, item: nat) {
    forall k | 0 <= k < |outputs| :: !NamesIndex(outputs[k].node, item)
  }

  /** The outputs name the items from `lo` on, one by one. */
  ghost predicate NamesItems(outputs: seq<BatchOutput>, lo: nat, values: seq<Json>) {
    forall i | 0 <= i < |values| :: NamesItem(outputs, lo + i, values[i])
  }

  lemma {:induction false} ByIndexIs(outputs: seq<BatchOutput>, item: nat)
    ensures item in ByIndex(outputs) ==> NamesItem(outputs, item, ByIndex(outputs)[item])
    ensures item !in ByIndex(outputs) ==> NoneNames(outputs, item)
  {
    hide NamesIndex, ParseIndex;
    if outputs != [] {
      var init, last := outputs[..|outputs| - 1], outputs[|outputs| - 1];
      ByIndexIs(init, item);
      ParsedIsNamed(last.node, item);
      if NamesIndex(last.node, item) {
        assert LastFor(outputs, item, |outputs| - 1);
      } else if item in ByIndex(init) {
        var j: nat :| LastFor(init, item, j) && init[j].output == ByIndex(init)[item];
        assert LastFor(outputs, item, j);
      }
    }
  }

  /** The call for the items `lo` to `hi`. */
  ghost function ChunkCall(exec: Executor, tool: ToolName, inputs: seq<Json>, lo: nat,
      hi: nat): Result<seq<BatchOutput>, ToolError>
    requires lo <= hi <= |inputs|
  {
    exec.callBatch(tool, seq(hi - lo, i requires 0 <= i < hi - lo => BatchInput(IndexName(lo + i), inputs[lo + i])))
  }

  /** Chunks hold as many items as the tool's batch size allows, one at least, or
      everything; they start where the one before them ended. */
  ghost predicate ChunkAt(batchSize: Option<nat>, count: nat, lo: nat, hi: nat) {
    match batchSize
    case None => lo == 0 && hi == count
    case Some(size) =>
      var most := if size == 0 then 1 else size;
      lo < hi <= count && lo % most == 0 && hi - lo <= most && (hi < count ==> hi - lo == most)
  }

  /** The item has the output that names it in the answer to its chunk's call. */
  ghost predicate ItemAnswered(exec: Executor, tool: ToolName, inputs: seq<Json>, batchSize: Option<nat>, item: nat,
      value: Json) {
    exists lo: nat, hi: nat :: lo <= item < hi <= |inputs| && ChunkAt(batchSize, |inputs|, lo, hi)
      && ChunkCall(exec, tool, inputs, lo, hi).Ok?
      && NamesItem(ChunkCall(exec, tool, inputs, lo, hi).value, item, value)
  }

  ghost predicate ItemsAnswered(exec: Executor, tool: ToolName, inputs: seq<Json>, batchSize: Option<nat>, lo: nat,
      values: seq<Json>) {
    forall i | 0 <= i < |values| :: ItemAnswered(exec, tool, inputs, batchSize, lo + i, values[i])
  }

  /** A chunk's call fails, or answers without naming one of its items. */
  ghost predicate ChunkFails(exec: Executor, tool: ToolName, inputs: seq<Json>, lo: nat, hi: nat, error: ToolError) {
    && lo <= hi <= |inputs|
    && match ChunkCall(exec, tool, inputs, lo, hi)
       case Err(own) => error == own
       case Ok(outputs) =>
         error == Coded("batch_missing_output") && exists item | lo <= item < hi :: NoneNames(outputs, item)
  }

  ghost predicate FailsInChunk(exec: Executor, tool: ToolName, inputs: seq<Json>, batchSize: Option<nat>,
      error: ToolError) {
    exists lo: nat, hi: nat :: ChunkAt(batchSize, |inputs|, lo, hi) && ChunkFails(exec, tool, inputs, lo, hi, error)
      && exists before :: |before| == lo && ItemsAnswered(exec, tool, inputs, batchSize, 0, before)
  }

  lemma {:induction false} PickFrom(outputs: seq<BatchOutput>, lo: nat, hi: nat)
    requires lo <= hi
    ensures match PickRange(ByIndex(outputs), lo, hi)
      case Ok(values) => |values| == hi - lo && NamesItems(outputs, lo, values)
      case Err(error) => error == Coded("batch_missing_output") && exists i | lo <= i < hi :: NoneNames(outputs, i)
    decreases hi - lo
  {
    hide NamesItem, NoneNames, ByIndex;
    if lo < hi {
      ByIndexIs(outputs, lo);
      PickFrom(outputs, lo + 1, hi);
    }
  }

  lemma ChunkIs(exec: Executor, tool: ToolName, inputs: seq<Json>, lo: nat, hi: nat)
    requires lo <= hi <= |inputs|
    ensures match CallChunk(exec, tool, inputs, lo, hi)
      case Ok(values) => |values| == hi - lo && ChunkCall(exec, tool, inputs, lo, hi).Ok?
        && NamesItems(ChunkCall(exec, tool, inputs, lo, hi).value, lo, values)
      case Err(error) => ChunkFails(exec, tool, inputs, lo, hi, error)
  {
    hide NamesItem, NamesItems, NoneNames, ByIndex, PickRange;
    var named := seq(hi - lo, i requires 0 <= i < hi - lo => BatchInput(IndexName(lo + i), inputs[lo + i]));
    assert ChunkInputs(inputs, lo, hi) == named;
    if ChunkCall(exec, tool, inputs, lo, hi).Ok? {
      PickFrom(ChunkCall(exec, tool, inputs, lo, hi).value, lo, hi);
    }
  }

  lemma {:induction false} ChunksFrom(exec: Executor, tool: ToolName, inputs: seq<Json>, batchSize: Option<nat>,
      size: nat, before: seq<Json>)
    requires size > 0 && |before| <= |inputs| && |before| % size == 0 && (before == [] || batchSize.Some?)
    requires match batchSize case None => size == |inputs| case Some(most) => size == if most == 0 then 1 else most
    requires ItemsAnswered(exec, tool, inputs, batchSize, 0, before)
    ensures match CallChunks(exec, tool, inputs, |before|, size)
      case Ok(values) =>
        |before| + |values| == |inputs| && ItemsAnswered(exec, tool, inputs, batchSize, 0, before + values)
      case Err(error) => FailsInChunk(exec, tool, inputs, batchSize, error)
    decreases |inputs| - |before|
  {
    hide CallChunk, ChunkFails, ItemsAnswered, NamesItems;
    var lo := |before|;
    if lo < |inputs| {
      var hi := Min(lo + size, |inputs|);
      ChunkIs(exec, tool, inputs, lo, hi);
      assert ChunkAt(batchSize, |inputs|, lo, hi);
      var called := CallChunk(exec, tool, inputs, lo, hi);
      if called.Ok? {
        ChunkAnswers(exec, tool, inputs, batchSize, before, hi, called.value);
        if hi < |inputs| {
          NextStart(lo, size);
          ChunksFrom(exec, tool, inputs, batchSize, size, before + called.value);
          RestFollows(exec, tool, inputs, before, size, called.value);
        } else {
          NothingFollows(exec, tool, inputs, before, size, called.value);
        }
      }
    } else {
      assert before + [] == before;
    }
  }

  lemma ChunkAnswers(exec: Executor, tool: ToolName, inputs: seq<Json>, batchSize: Option<nat>, before: seq<Json>,
      hi: nat, values: seq<Json>)
    requires |before| + |values| == hi <= |inputs| && ChunkAt(batchSize, |inputs|, |before|, hi)
    requires ChunkCall(exec, tool, inputs, |before|, hi).Ok?
      && NamesItems(ChunkCall(exec, tool, inputs, |before|, hi).value, |before|, values)
    requires ItemsAnswered(exec, tool, inputs, batchSize, 0, before)
    ensures ItemsAnswered(exec, tool, inputs, batchSize, 0, before + values)
  {
    hide ChunkCall, ChunkAt, NamesItem, ItemAnswered;
    forall i | 0 <= i < |before + values|
      ensures ItemAnswered(exec, tool, inputs, batchSize, 0 + i, (before + values)[i])
    {
      if i < |before| {
        assert (before + values)[i] == before[i];
      } else {
        assert NamesItem(ChunkCall(exec, tool, inputs, |before|, hi).value, |before| + (i - |before|),
          values[i - |before|]);
        AnsweredBy(exec, tool, inputs, batchSize, |before|, hi, i, values[i - |before|]);
      }
    }
  }

  lemma AnsweredBy(exec: Executor, tool: ToolName, inputs: seq<Json>, batchSize: Option<nat>, lo: nat, hi: nat,
      item: nat, value: Json)
    requires lo <= item < hi <= |inputs| && ChunkAt(batchSize, |inputs|, lo, hi)
    requires ChunkCall(exec, tool, inputs, lo, hi).Ok?
      && NamesItem(ChunkCall(exec, tool, inputs, lo, hi).value, item, value)
    ensures ItemAnswered(exec, tool, inputs, batchSize, item, value)
  {
  }

  lemma RestFollows(exec: Executor, tool: ToolName, inputs: seq<Json>, before: seq<Json>, size: nat, values: seq<Json>)
    requires size > 0 && |before| + size < |inputs|
      && CallChunk(exec, tool, inputs, |before|, |before| + size) == Ok(values) && |values| == size
    ensures match CallChunks(exec, tool, inputs, |before + values|, size)
      case Ok(rest) =>
        CallChunks(exec, tool, inputs, |before|, size) == Ok(values + rest)
          && before + values + rest == before + (values + rest)
      case Err(error) => CallChunks(exec, tool, inputs, |before|, size) == Err(error)
  {
    hide CallChunk;
  }

  lemma NothingFollows(exec: Executor, tool: ToolName, inputs: seq<Json>, before: seq<Json>, size: nat,
      values: seq<Json>)
    requires size > 0 && |before| < |inputs| <= |before| + size
      && CallChunk(exec, tool, inputs, |before|, |inputs|) == Ok(values)
    ensures CallChunks(exec, tool, inputs, |before|, size) == Ok(values)
  {
    hide CallChunk;
    assert values + [] == values;
  }

  lemma NextStart(lo: nat, size: nat)
    requires size > 0 && lo % size == 0
    ensures (lo + size) % size == 0
  {
    var q := lo / size;
    assert lo == size * q;
    assert lo + size == size * (q + 1);
    MultipleOf(size, q + 1);
  }

  lemma MultipleOf(size: nat, q: nat)
    requires size > 0
    ensures (size * q) % size == 0
  {
    SameRemainder(size, q, 0, (size * q) / size, (size * q) % size);
  }

  /** A batchable member with several items is called in chunks: its output lists
      what the calls answered, or it fails as the first chunk that fails. */
  lemma CalledInChunks(exec: Executor, tool: ToolName, member: PreparedMember, inputs: seq<Json>)
    requires member.items.Some? && ItemInputs(member.input, member.items.value) == Ok(inputs)
    requires member.batchable && |inputs| > 1
    ensures match FanOut(exec, tool, member)
      case Ok(output) => output.Arr? && |output.items| == |inputs|
        && ItemsAnswered(exec, tool, inputs, member.batchSize, 0, output.items)
      case Err(error) => FailsInChunk(exec, tool, inputs, member.batchSize, error)
  {
    hide ItemAnswered, FailsInChunk, CallChunks;
    var size := ChunkSize(member.batchSize, |inputs|);
    assert ItemsAnswered(exec, tool, inputs, member.batchSize, 0, []);
    ChunksFrom(exec, tool, inputs, member.batchSize, size, []);
    assert forall values: seq<Json> :: [] + values == values;
  }

  // ---------------------------------------------------------------- batches

  ghost predicate LastNamed(outputs: seq<BatchOutput>, node: string, j: nat) {
    j < |outputs| && outputs[j].node == node && forall k | j < k < |outputs| :: outputs[k].node != node
  }

  /** A batch member has the last output under its name, fails with the whole
      call, or misses its output when nothing names it. */
  lemma BatchMemberIs(exec: Executor, tool: ToolName, members: seq<PreparedMember>, node: NodeId)
    ensures var inputs := seq(|members|, i requires 0 <= i < |members| =>
        BatchInput(members[i].node, members[i].input));
      var result := BatchResult(exec, tool, members, node);
      match exec.callBatch(tool, inputs)
      case Err(error) => result == Err(error)
      case Ok(outputs) =>
        if Named(outputs, node) then exists j: nat :: LastNamed(outputs, node, j) && result == Ok(outputs[j].output)
        else result == Err(Coded("batch_missing_output"))
  {
    hide ByNode;
    var inputs := seq(|members|, i requires 0 <= i < |members| => BatchInput(members[i].node, members[i].input));
    assert inputs == MemberInputs(members);
    if exec.callBatch(tool, inputs).Ok? {
      ByNodeIs(exec.callBatch(tool, inputs).value, node);
    }
  }

  lemma {:induction false} ByNodeIs(outputs: seq<BatchOutput>, node: string)
    ensures node in ByNode(outputs) <==> Named(outputs, node)
    ensures node in ByNode(outputs) ==>
      exists j: nat :: LastNamed(outputs, node, j) && ByNode(outputs)[node] == outputs[j].output
  {
    if outputs != [] {
      var init, last := outputs[..|outputs| - 1], outputs[|outputs| - 1];
      ByNodeIs(init, node);
      assert outputs == init + [last];
      if last.node == node {
        assert LastNamed(outputs, node, |outputs| - 1);
      } else if node in ByNode(init) {
        var j: nat :| LastNamed(init, node, j) && ByNode(init)[node] == init[j].output;
        assert LastNamed(outputs, node, j);
      }
    }
  }
}
