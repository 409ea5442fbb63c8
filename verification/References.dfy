/** Which references an input holds, by position: what validation collects, and
    what a node's dependencies are made of. */
module References {
  import opened Wrappers
  import opened Json
  import opened Strings
  import opened Refs
  import opened Plans
  import opened Semantics
  import opened Graphs

  ghost predicate LiteralObject(j: Json) {
    j.Obj? && |j.fields| == 1 && LITERAL_KEY in j.fields
  }

  /** `r` stands somewhere in the value, outside literals. */
  ghost predicate Holds(j: Json, r: ValueRef)
    decreases j
  {
    match j
    case Obj(fields) =>
      if LiteralObject(j) then false
      else if REF_KEY in fields then |fields| == 1 && fields[REF_KEY].Str? && Parse(fields[REF_KEY].s) == Ok(r)
      else exists k | k in fields :: Holds(fields[k], r)
    case Arr(items) => exists i | 0 <= i < |items| :: Holds(items[i], r)
    case _ => false
  }

  /** Every reference object outside literals holds nothing but a reference. */
  ghost predicate WellReferred(j: Json)
    decreases j
  {
    match j
    case Obj(fields) =>
      if LiteralObject(j) then true
      else if REF_KEY in fields then |fields| == 1 && fields[REF_KEY].Str? && Parse(fields[REF_KEY].s).Ok?
      else forall k | k in fields :: WellReferred(fields[k])
    case Arr(items) => forall i | 0 <= i < |items| :: WellReferred(items[i])
    case _ => true
  }

  /** Collecting succeeds exactly on such values, and finds exactly what they hold. */
  lemma {:induction false} CollectsHeld(j: Json)
    ensures CollectRefs(j).Ok? <==> WellReferred(j)
    ensures CollectRefs(j).Ok? ==> forall r :: r in CollectRefs(j).value <==> Holds(j, r)
    decreases j, 1, 0
  {
    match j
    case Obj(fields) =>
      if !LiteralObject(j) && REF_KEY !in fields {
        hide CollectFields, Sorted;
        FieldsHeld(j, Sorted(fields.Keys));
      } else if REF_KEY in fields {
        assert |fields| > 0;
        hide Parse;
      }
    case Arr(items) =>
      hide CollectItems;
      ItemsHeld(j, 0);
    case _ =>
  }

  ghost predicate FieldHolds(j: Json, keys: seq<string>, r: ValueRef)
    requires j.Obj? && forall k | k in keys :: k in j.fields
  {
    exists k | k in keys :: Holds(j.fields[k], r)
  }

  ghost predicate ItemHolds(j: Json, i: nat, r: ValueRef)
    requires j.Arr?
  {
    exists k | i <= k < |j.items| :: Holds(j.items[k], r)
  }

  lemma {:induction false} FieldsHeld(j: Json, keys: seq<string>)
    requires j.Obj? && forall k | k in keys :: k in j.fields
    ensures CollectFields(j, keys).Ok? <==> forall k | k in keys :: WellReferred(j.fields[k])
    ensures CollectFields(j, keys).Ok? ==> forall r :: r in CollectFields(j, keys).value <==> FieldHolds(j, keys, r)
    decreases j, 0, |keys|
  {
    hide CollectRefs, Holds, WellReferred;
    if keys != [] {
      CollectsHeld(j.fields[keys[0]]);
      FieldsHeld(j, keys[1..]);
      assert forall k | k in keys :: k == keys[0] || k in keys[1..];
      forall r
        ensures FieldHolds(j, keys, r) <==> Holds(j.fields[keys[0]], r) || FieldHolds(j, keys[1..], r)
      {
        if Holds(j.fields[keys[0]], r) {
          assert keys[0] in keys;
        }
      }
    }
  }

  lemma {:induction false} ItemsHeld(j: Json, i: nat)
    requires j.Arr? && i <= |j.items|
    ensures CollectItems(j, i).Ok? <==> forall k | i <= k < |j.items| :: WellReferred(j.items[k])
    ensures CollectItems(j, i).Ok? ==> forall r :: r in CollectItems(j, i).value <==> ItemHolds(j, i, r)
    decreases j, 0, |j.items| - i
  {
    hide CollectRefs, Holds, WellReferred;
    if i < |j.items| {
      CollectsHeld(j.items[i]);
      ItemsHeld(j, i + 1);
    }
  }

  /** The node's input, items or condition refer to `d`. */
  ghost predicate RefersTo(node: Node, d: NodeId) {
    || (exists r: ValueRef :: Holds(node.input, r) && r.node == d)
    || (node.forEach.Some? && node.forEach.value.node == d)
    || (node.condition.Some? && node.condition.value.target.node == d)
  }

  /** Data dependencies are what the node refers to. Explicit ordering edges are
      not among them: what comes after a failed node still runs. */
  lemma DataDepsAre(node: Node, d: NodeId)
    requires WellReferred(node.input)
    ensures d in DataDeps(node) <==> RefersTo(node, d)
  {
    CollectsHeld(node.input);
    hide CollectRefs, Holds, WellReferred;
    var refs := CollectRefs(node.input).value;
    if d in RefNodes(refs) {
      var r :| r in refs && r.node == d;
      assert Holds(node.input, r);
    }
    if r: ValueRef :| Holds(node.input, r) && r.node == d {
      assert r in refs;
    }
  }

  /** All dependencies are those and the explicit edges. */
  lemma DependenciesAre(node: Node, d: NodeId)
    requires WellReferred(node.input)
    ensures d in NodeDeps(node) <==> d in node.dependsOn || RefersTo(node, d)
  {
    DataDepsAre(node, d);
    hide DataDeps, RefersTo;
  }
}
