/** Resolving inputs against node outputs, and redirecting references through
    the aliases deduplication leaves behind. */
module Resolve {
  import opened Wrappers
  import opened Json
  import opened Strings
  import opened Refs

  const ITEM_KEY := "$item"

  /** Failures by machine-readable code; messages are not modelled. */
  datatype ResolveError = InvalidRef | MissingNodeOutput | MissingPath

  type Outputs = map<string, Json>

  // ----------------------------------------------------------- resolution

  predicate AllDigits(s: string) {
    forall i | 0 <= i < |s| :: '0' <= s[i] <= '9'
  }

  function DigitsValue(s: string): (value: nat)
    requires AllDigits(s)
  {
    if s == "" then 0
    else DigitsValue(s[..|s| - 1]) * 10 + (s[|s| - 1] as int - '0' as int)
  }

  /** `str::parse::<usize>`: digits, optionally after one '+'. */
  function ParseIndex(s: string): Option<nat> {
    var digits := if s != "" && s[0] == '+' then s[1..] else s;
    if digits != "" && AllDigits(digits) then Some(DigitsValue(digits)) else None
  }

  function StepInto(current: Json, segment: string): Option<Json> {
    match current
    case Obj(fields) => if segment in fields then Some(fields[segment]) else None
    case Arr(items) =>
      var index := ParseIndex(segment);
      if index.Some? && index.value < |items| then Some(items[index.value]) else None
    case _ => None
  }

  function Walk(current: Json, path: seq<string>): Option<Json> {
    if path == [] then Some(current)
    else
      var next := StepInto(current, path[0]);
      if next.None? then None else Walk(next.value, path[1..])
  }

  function ResolveRef(r: ValueRef, outputs: Outputs): Result<Json, ResolveError> {
    if r.node !in outputs then Err(MissingNodeOutput)
    else
      var found := Walk(outputs[r.node], r.path);
      if found.Some? then Ok(found.value) else Err(MissingPath)
  }

  /** `resolve_value_ref`: advances a cursor one segment at a time. */
  method ResolveValueRef(r: ValueRef, outputs: Outputs) returns (result: Result<Json, ResolveError>)
    ensures result == ResolveRef(r, outputs)
  {
    if r.node !in outputs {
      return Err(MissingNodeOutput);
    }
    var current := outputs[r.node];
    for i := 0 to |r.path|
      invariant Walk(current, r.path[i..]) == Walk(outputs[r.node], r.path)
    {
      var next := StepInto(current, r.path[i]);
      assert r.path[i..][1..] == r.path[i + 1..];
      if next.None? {
        return Err(MissingPath);
      }
      current := next.value;
    }
    result := Ok(current);
  }

  /** The declared outputs that resolve. */
  function Resolved(declared: map<string, ValueRef>, outputs: Outputs): map<string, Json> {
    map name | name in declared && ResolveRef(declared[name], outputs).Ok? :: ResolveRef(declared[name], outputs).value
  }

  predicate IsRef(j: Json) {
    j.Obj? && |j.fields| == 1 && REF_KEY in j.fields && j.fields[REF_KEY].Str?
  }

  function ResolveInput(j: Json, outputs: Outputs): Result<Json, ResolveError>
    decreases j, 1, 0
  {
    match j
    case Obj(fields) =>
      if IsLiteral(j) then Ok(fields[LITERAL_KEY])
      else if IsRef(j) then
        var r := Parse(fields[REF_KEY].s);
        if r.Err? then Err(InvalidRef) else ResolveRef(r.value, outputs)
      else
        var resolved :- ResolveFields(j, Sorted(fields.Keys), outputs);
        Ok(Obj(resolved))
    case Arr(items) =>
      var resolved :- ResolveItems(j, 0, outputs);
      Ok(Arr(resolved))
    case _ => Ok(j)
  }

  function ResolveFields(j: Json, keys: seq<string>, outputs: Outputs): Result<map<string, Json>, ResolveError>
    requires j.Obj? && forall k | k in keys :: k in j.fields
    decreases j, 0, |keys|
  {
    if keys == [] then Ok(map[])
    else
      var first :- ResolveInput(j.fields[keys[0]], outputs);
      var rest :- ResolveFields(j, keys[1..], outputs);
      Ok(rest[keys[0] := first])
  }

  function ResolveItems(j: Json, i: nat, outputs: Outputs): Result<seq<Json>, ResolveError>
    requires j.Arr? && i <= |j.items|
    decreases j, 0, |j.items| - i
  {
    if i == |j.items| then Ok([])
    else
      var first :- ResolveInput(j.items[i], outputs);
      var rest :- ResolveItems(j, i + 1, outputs);
      Ok([first] + rest)
  }

  // -------------------------------------------------------------- aliases

  type Aliases = map<string, string>

  /** An alias leads to a node that is not aliased itself. */
  ghost predicate Flat(aliases: Aliases) {
    forall k | k in aliases :: aliases[k] !in aliases
  }

  function Canonical(node: string, aliases: Aliases): string {
    if node in aliases then aliases[node] else node
  }

  /** `canonical_node`: follows the chain to its end. */
  method CanonicalNode(node: string, aliases: Aliases) returns (current: string)
    requires Flat(aliases)
    ensures current == Canonical(node, aliases)
  {
    current := node;
    while current in aliases
      invariant current == node || current == Canonical(node, aliases)
      decreases if current in aliases then 1 else 0
    {
      current := aliases[current];
    }
  }

  function RewriteRef(r: ValueRef, aliases: Aliases): ValueRef {
    ValueRef(Canonical(r.node, aliases), r.path)
  }

  /** `rewrite_refs_in_value`: literals stay, references move, the rest is searched. */
  function RewriteValue(j: Json, aliases: Aliases): Json
    decreases j
  {
    match j
    case Obj(fields) =>
      if IsLiteral(j) then j
      else if IsRef(j) && Parse(fields[REF_KEY].s).Ok? then
        Obj(fields[REF_KEY := Str(Print(RewriteRef(Parse(fields[REF_KEY].s).value, aliases)))])
      else Obj(map k | k in fields :: RewriteValue(fields[k], aliases))
    case Arr(items) => Arr(seq(|items|, i requires 0 <= i < |items| => RewriteValue(items[i], aliases)))
    case _ => j
  }

  ghost predicate ValidTargets(aliases: Aliases) {
    forall k | k in aliases :: ValidNodeId(aliases[k])
  }

  // ------------------------------------------------------------ footprint

  /** The two stores say the same about `left` and `right`, respectively. */
  ghost predicate SameAt(left: string, leftOutputs: Outputs, right: string, rightOutputs: Outputs) {
    && (left in leftOutputs <==> right in rightOutputs)
    && (left in leftOutputs ==> leftOutputs[left] == rightOutputs[right])
  }

  /** The redirected store answers for every referenced node what the original did. */
  ghost predicate Redirects(nodes: set<string>, outputs: Outputs, aliases: Aliases, outputs': Outputs) {
    forall n | n in nodes :: SameAt(n, outputs, Canonical(n, aliases), outputs')
  }

  ghost predicate Agree(nodes: set<string>, outputs: Outputs, outputs': Outputs) {
    forall n | n in nodes :: SameAt(n, outputs, n, outputs')
  }

  /** A collected value resolves by what its references name, and nothing else. */
  lemma {:induction false} ResolveFootprint(j: Json, outputs: Outputs, outputs': Outputs)
    requires CollectRefs(j).Ok? && Agree(RefNodes(CollectRefs(j).value), outputs, outputs')
    ensures ResolveInput(j, outputs) == ResolveInput(j, outputs')
    decreases j, 1, 0
  {
    match j
    case Obj(fields) =>
      if !IsLiteral(j) {
        if REF_KEY in fields {
          var r := Parse(fields[REF_KEY].s).value;
          assert r.node in RefNodes([r]);
        } else {
          ResolveFieldsFootprint(j, Sorted(fields.Keys), outputs, outputs');
        }
      }
    case Arr(_) => ResolveItemsFootprint(j, 0, outputs, outputs');
    case _ =>
  }

  lemma RefNodesConcat(a: seq<ValueRef>, b: seq<ValueRef>)
    ensures RefNodes(a + b) == RefNodes(a) + RefNodes(b)
  {
    assert forall r :: r in a + b <==> r in a || r in b;
  }

  lemma {:induction false} ResolveFieldsFootprint(j: Json, keys: seq<string>, outputs: Outputs, outputs': Outputs)
    requires j.Obj? && forall k | k in keys :: k in j.fields
    requires CollectFields(j, keys).Ok? && Agree(RefNodes(CollectFields(j, keys).value), outputs, outputs')
    ensures ResolveFields(j, keys, outputs) == ResolveFields(j, keys, outputs')
    decreases j, 0, |keys|
  {
    hide CollectRefs, ResolveInput;
    if keys != [] {
      RefNodesConcat(CollectRefs(j.fields[keys[0]]).value, CollectFields(j, keys[1..]).value);
      ResolveFootprint(j.fields[keys[0]], outputs, outputs');
      ResolveFieldsFootprint(j, keys[1..], outputs, outputs');
    }
  }

  lemma {:induction false} ResolveItemsFootprint(j: Json, i: nat, outputs: Outputs, outputs': Outputs)
    requires j.Arr? && i <= |j.items|
    requires CollectItems(j, i).Ok? && Agree(RefNodes(CollectItems(j, i).value), outputs, outputs')
    ensures ResolveItems(j, i, outputs) == ResolveItems(j, i, outputs')
    decreases j, 0, |j.items| - i
  {
    hide CollectRefs, ResolveInput;
    if i < |j.items| {
      RefNodesConcat(CollectRefs(j.items[i]).value, CollectItems(j, i + 1).value);
      ResolveFootprint(j.items[i], outputs, outputs');
      ResolveItemsFootprint(j, i + 1, outputs, outputs');
    }
  }

  // -------------------------------------------- rewriting preserves meaning

  function RewriteRefs(refs: seq<ValueRef>, aliases: Aliases): (r: seq<ValueRef>)
    ensures |r| == |refs| && forall i | 0 <= i < |r| :: r[i] == RewriteRef(refs[i], aliases)
  {
    seq(|refs|, i requires 0 <= i < |refs| => RewriteRef(refs[i], aliases))
  }

  lemma NoRefs(aliases: Aliases)
    ensures RewriteRefs([], aliases) == []
  {
  }

  lemma RewriteRefsConcat(a: seq<ValueRef>, b: seq<ValueRef>, aliases: Aliases)
    ensures RewriteRefs(a + b, aliases) == RewriteRefs(a, aliases) + RewriteRefs(b, aliases)
  {
  }

  /** A reference object stays one, and names the canonical node. */
  lemma RewriteRefObject(j: Json, aliases: Aliases)
    requires ValidTargets(aliases) && IsRef(j) && Parse(j.fields[REF_KEY].s).Ok?
    ensures var j' := RewriteValue(j, aliases);
      && IsRef(j') && !IsLiteral(j') && !IsLiteral(j)
      && Parse(j'.fields[REF_KEY].s) == Ok(RewriteRef(Parse(j.fields[REF_KEY].s).value, aliases))
  {
    var r := Parse(j.fields[REF_KEY].s).value;
    ParseRewritten(r, aliases, j.fields[REF_KEY].s);
    SingleKey(j.fields, REF_KEY);
    var text := Print(RewriteRef(r, aliases));
    var fields' := j.fields[REF_KEY := Str(text)];
    assert LITERAL_KEY !in j.fields;
    assert fields'.Keys == {REF_KEY};
    assert |fields'| == |fields'.Keys| == 1;
    assert RewriteValue(j, aliases) == Obj(fields');
  }

  lemma ParseRewritten(r: ValueRef, aliases: Aliases, s: string)
    requires ValidTargets(aliases) && Parse(s) == Ok(r)
    ensures Parse(Print(RewriteRef(r, aliases))) == Ok(RewriteRef(r, aliases))
  {
    ParsedIsValid(s);
    PrintThenParse(RewriteRef(r, aliases));
  }

  /** A rewritten value refers to the canonical nodes, in the same places. */
  lemma {:induction false} CollectRewritten(j: Json, aliases: Aliases)
    requires ValidTargets(aliases) && CollectRefs(j).Ok?
    ensures CollectRefs(RewriteValue(j, aliases)) == Ok(RewriteRefs(CollectRefs(j).value, aliases))
    decreases j, 1, 0
  {
    match j
    case Obj(fields) =>
      if IsLiteral(j) {
      } else if REF_KEY in fields {
        hide Parse, Print;
        RewriteRefObject(j, aliases);
        var r := Parse(fields[REF_KEY].s).value;
        assert RewriteRefs([r], aliases) == [RewriteRef(r, aliases)];
      } else {
        hide CollectFields, Sorted;
        var j' := RewriteValue(j, aliases);
        assert j'.fields.Keys == fields.Keys;
        KeysDecideLiteral(j, j');
        CollectFieldsRewritten(j, Sorted(fields.Keys), aliases);
      }
    case Arr(_) => CollectItemsRewritten(j, 0, aliases);
    case _ =>
  }

  lemma SingleKey(m: map<string, Json>, k: string)
    requires k in m && |m| == 1
    ensures m.Keys == {k}
  {
    assert |m.Keys - {k}| == 0;
  }

  lemma KeysDecideLiteral(j: Json, j': Json)
    requires j.Obj? && j'.Obj? && j.fields.Keys == j'.fields.Keys
    ensures IsLiteral(j) <==> IsLiteral(j')
    ensures |j.fields| == |j'.fields|
  {
    assert |j.fields| == |j.fields.Keys| && |j'.fields| == |j'.fields.Keys|;
  }

  lemma {:induction false} CollectFieldsRewritten(j: Json, keys: seq<string>, aliases: Aliases)
    requires ValidTargets(aliases)
    requires j.Obj? && !IsLiteral(j) && REF_KEY !in j.fields && forall k | k in keys :: k in j.fields
    requires CollectFields(j, keys).Ok?
    ensures RewriteValue(j, aliases).Obj? && RewriteValue(j, aliases).fields.Keys == j.fields.Keys
    ensures CollectFields(RewriteValue(j, aliases), keys) == Ok(RewriteRefs(CollectFields(j, keys).value, aliases))
    decreases j, 0, |keys|
  {
    hide CollectRefs, Parse, Print, RewriteRefs;
    if keys == [] {
      NoRefs(aliases);
    } else {
      CollectRewritten(j.fields[keys[0]], aliases);
      CollectFieldsRewritten(j, keys[1..], aliases);
      RewriteRefsConcat(CollectRefs(j.fields[keys[0]]).value, CollectFields(j, keys[1..]).value, aliases);
    }
  }

  lemma {:induction false} CollectItemsRewritten(j: Json, i: nat, aliases: Aliases)
    requires ValidTargets(aliases) && j.Arr? && i <= |j.items|
    requires CollectItems(j, i).Ok?
    ensures CollectItems(RewriteValue(j, aliases), i) == Ok(RewriteRefs(CollectItems(j, i).value, aliases))
    decreases j, 0, |j.items| - i
  {
    hide CollectRefs, RewriteRefs;
    if i == |j.items| {
      NoRefs(aliases);
    } else {
      CollectRewritten(j.items[i], aliases);
      CollectItemsRewritten(j, i + 1, aliases);
      RewriteRefsConcat(CollectRefs(j.items[i]).value, CollectItems(j, i + 1).value, aliases);
    }
  }

  /** Resolving the rewritten value reads what the original value read through
      the aliases. */
  lemma {:induction false} ResolveRewritten(j: Json, aliases: Aliases, outputs: Outputs, outputs': Outputs)
    requires ValidTargets(aliases) && CollectRefs(j).Ok?
    requires Redirects(RefNodes(CollectRefs(j).value), outputs, aliases, outputs')
    ensures ResolveInput(RewriteValue(j, aliases), outputs') == ResolveInput(j, outputs)
    decreases j, 1, 0
  {
    hide CollectFields, ResolveFields, Sorted, Parse, Print, ResolveRef, Redirects;
    match j
    case Obj(fields) =>
      if IsLiteral(j) {
      } else if REF_KEY in fields {
        hide RewriteValue, ResolveInput;
        ResolveRewrittenRef(j, aliases, outputs, outputs');
      } else {
        hide RewriteValue, ResolveInput;
        ResolveFieldsRewritten(j, Sorted(fields.Keys), aliases, outputs, outputs');
        ResolvePlainObject(j, RewriteValue(j, aliases), outputs, outputs');
      }
    case Arr(_) => ResolveItemsRewritten(j, 0, aliases, outputs, outputs');
    case _ =>
  }

  lemma ResolvePlainObject(j: Json, j': Json, outputs: Outputs, outputs': Outputs)
    requires j.Obj? && j'.Obj? && j.fields.Keys == j'.fields.Keys
    requires !IsLiteral(j) && REF_KEY !in j.fields
    requires ResolveFields(j', Sorted(j.fields.Keys), outputs') == ResolveFields(j, Sorted(j.fields.Keys), outputs)
    ensures ResolveInput(j', outputs') == ResolveInput(j, outputs)
  {
    hide ResolveFields, Sorted;
    KeysDecideLiteral(j, j');
  }

  lemma ResolveRewrittenRef(j: Json, aliases: Aliases, outputs: Outputs, outputs': Outputs)
    requires ValidTargets(aliases) && IsRef(j) && CollectRefs(j).Ok?
    requires Redirects(RefNodes(CollectRefs(j).value), outputs, aliases, outputs')
    ensures ResolveInput(RewriteValue(j, aliases), outputs') == ResolveInput(j, outputs)
  {
    hide Parse, Print, RewriteValue;
    SingleKey(j.fields, REF_KEY);
    assert !IsLiteral(j);
    var r := Parse(j.fields[REF_KEY].s).value;
    assert CollectRefs(j).value == [r];
    assert r.node in RefNodes([r]);
    RewriteRefObject(j, aliases);
  }

  lemma {:induction false} ResolveFieldsRewritten(j: Json, keys: seq<string>, aliases: Aliases, outputs: Outputs,
      outputs': Outputs)
    requires ValidTargets(aliases)
    requires j.Obj? && !IsLiteral(j) && REF_KEY !in j.fields && forall k | k in keys :: k in j.fields
    requires CollectFields(j, keys).Ok?
    requires Redirects(RefNodes(CollectFields(j, keys).value), outputs, aliases, outputs')
    ensures RewriteValue(j, aliases).Obj? && RewriteValue(j, aliases).fields.Keys == j.fields.Keys
    ensures ResolveFields(RewriteValue(j, aliases), keys, outputs') == ResolveFields(j, keys, outputs)
    decreases j, 0, |keys|
  {
    hide CollectRefs, ResolveInput, Parse, Print;
    if keys != [] {
      RefNodesConcat(CollectRefs(j.fields[keys[0]]).value, CollectFields(j, keys[1..]).value);
      ResolveRewritten(j.fields[keys[0]], aliases, outputs, outputs');
      ResolveFieldsRewritten(j, keys[1..], aliases, outputs, outputs');
    }
  }

  lemma {:induction false} ResolveItemsRewritten(j: Json, i: nat, aliases: Aliases, outputs: Outputs, outputs': Outputs)
    requires ValidTargets(aliases) && j.Arr? && i <= |j.items|
    requires CollectItems(j, i).Ok?
    requires Redirects(RefNodes(CollectItems(j, i).value), outputs, aliases, outputs')
    ensures ResolveItems(RewriteValue(j, aliases), i, outputs') == ResolveItems(j, i, outputs)
    decreases j, 0, |j.items| - i
  {
    hide CollectRefs, ResolveInput;
    if i < |j.items| {
      RefNodesConcat(CollectRefs(j.items[i]).value, CollectItems(j, i + 1).value);
      ResolveRewritten(j.items[i], aliases, outputs, outputs');
      ResolveItemsRewritten(j, i + 1, aliases, outputs, outputs');
    }
  }

  // ----------------------------------------------------------- fan-out items

  function WalkItem(item: Json, path: string): Option<Json> {
    if path == "" then Some(item) else Walk(item, Split(path))
  }

  /** `substitute_item`: fills the `$item` markers of a template. */
  function SubstituteItem(template: Json, item: Json): Result<Json, ResolveError>
    decreases template, 1, 0
  {
    match template
    case Obj(fields) =>
      if |fields| == 1 && ITEM_KEY in fields then
        if !fields[ITEM_KEY].Str? then Err(InvalidRef)
        else
          var found := WalkItem(item, fields[ITEM_KEY].s);
          if found.Some? then Ok(found.value) else Err(InvalidRef)
      else if IsLiteral(template) then Ok(template)
      else
        var resolved :- SubstituteFields(template, Sorted(fields.Keys), item);
        Ok(Obj(resolved))
    case Arr(items) =>
      var resolved :- SubstituteItems(template, 0, item);
      Ok(Arr(resolved))
    case _ => Ok(template)
  }

  function SubstituteFields(template: Json, keys: seq<string>, item: Json): Result<map<string, Json>, ResolveError>
    requires template.Obj? && forall k | k in keys :: k in template.fields
    decreases template, 0, |keys|
  {
    if keys == [] then Ok(map[])
    else
      var first :- SubstituteItem(template.fields[keys[0]], item);
      var rest :- SubstituteFields(template, keys[1..], item);
      Ok(rest[keys[0] := first])
  }

  function SubstituteItems(template: Json, i: nat, item: Json): Result<seq<Json>, ResolveError>
    requires template.Arr? && i <= |template.items|
    decreases template, 0, |template.items| - i
  {
    if i == |template.items| then Ok([])
    else
      var first :- SubstituteItem(template.items[i], item);
      var rest :- SubstituteItems(template, i + 1, item);
      Ok([first] + rest)
  }
}
