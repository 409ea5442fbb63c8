/** The string deduplication really compares: the parts of a key joined by NUL.
    It determines its parts as long as tool names hold no NUL. */
module KeyTexts {
  import opened Wrappers
  import opened Json
  import opened Refs
  import opened Plans
  import opened Strings
  import opened Optimizers

  const NUL: char := '\U{0000}'

  /** How `for_each` and `when` are printed for debugging. */
  datatype Rendering = Rendering(items: Option<ValueRef> -> string, condition: Option<When> -> string)

  ghost predicate Plain(s: string) {
    NUL !in s
  }

  /** Debug output escapes NUL, and different values print differently. */
  ghost predicate RenderingOk(r: Rendering) {
    && (forall x :: Plain(r.items(x)))
    && (forall x :: Plain(r.condition(x)))
    && (forall x, y | r.items(x) == r.items(y) :: x == y)
    && forall x, y | r.condition(x) == r.condition(y) :: x == y
  }

  /** `dedup_key`. */
  function KeyText(r: Rendering, plan: Plan, node: Node): Option<string> {
    var effects := EffectsOf(plan, node.tool);
    if effects.None? || !(effects.value.pure || effects.value.cacheable) then None
    else Some(Sealed(node.tool, Sealed(Texts.Canonical(node.input), Sealed(r.items(node.forEach),
                if effects.value.pure then r.condition(node.condition)
                else Sealed(r.condition(node.condition), Join(node.dependsOn))))))
  }

  function Sealed(part: string, rest: string): string {
    part + ([NUL] + rest)
  }

  lemma {:induction false} SealedDetermines(a: string, x: string, b: string, y: string)
    requires Plain(a) && Plain(b) && Sealed(a, x) == Sealed(b, y)
    ensures a == b && x == y
  {
    var s, t := Sealed(a, x), Sealed(b, y);
    if a == "" {
      assert s[0] == NUL;
      assert t[0] == (b + [NUL])[0];
      assert s[1..] == x && t[1..] == y;
    } else {
      assert s[0] == a[0] && b != "" && t[0] == b[0];
      assert s[1..] == Sealed(a[1..], x) && t[1..] == Sealed(b[1..], y);
      SealedDetermines(a[1..], x, b[1..], y);
      assert a == [a[0]] + a[1..] && b == [b[0]] + b[1..];
    }
  }

  // ------------------------------------------------------- canonical JSON

  lemma {:induction false} EscapePlain(s: string)
    ensures Plain(Texts.EscapeText(s))
  {
    if s != "" {
      EscapePlain(s[1..]);
    }
  }

  lemma {:induction false} CanonicalPlain(j: Json)
    requires WellFormed(j)
    ensures Plain(Texts.Canonical(j))
    decreases j, 1, 0
  {
    match j
    case Str(s) => EscapePlain(s);
    case Arr(items) => ItemsPlain(j, 0);
    case Obj(fields) => FieldsPlain(j, Sorted(fields.Keys), 0);
    case _ =>
  }

  lemma {:induction false} ItemsPlain(j: Json, i: nat)
    requires j.Arr? && WellFormed(j) && i <= |j.items|
    ensures Plain(Texts.ItemsFrom(j, i))
    decreases j, 0, |j.items| - i
  {
    if i < |j.items| {
      CanonicalPlain(j.items[i]);
      ItemsPlain(j, i + 1);
    }
  }

  lemma {:induction false} FieldsPlain(j: Json, keys: seq<string>, i: nat)
    requires j.Obj? && WellFormed(j) && i <= |keys| && forall k | k in keys :: k in j.fields
    ensures Plain(Texts.FieldsFrom(j, keys, i))
    decreases j, 0, |keys| - i
  {
    if i < |keys| {
      EscapePlain(keys[i]);
      CanonicalPlain(j.fields[keys[i]]);
      FieldsPlain(j, keys, i + 1);
    }
  }

  // ------------------------------------------------------------------ keys

  /** Tools named without NUL: the texts are equal exactly when the keys are. */
  lemma KeyTextIsKey(r: Rendering, plan: Plan, a: Node, b: Node)
    requires RenderingOk(r) && WellFormed(a.input) && WellFormed(b.input) && Plain(a.tool) && Plain(b.tool)
    ensures KeyText(r, plan, a).Some? <==> DedupKey(plan, a).Some?
    ensures KeyText(r, plan, a) == KeyText(r, plan, b) <==> DedupKey(plan, a) == DedupKey(plan, b)
  {
    CanonicalPlain(a.input);
    CanonicalPlain(b.input);
    var x, y := KeyText(r, plan, a), KeyText(r, plan, b);
    if x.Some? && x == y {
      hide Sealed, Texts.Canonical, Join;
      SplitKey(r, plan, a, b);
    }
  }

  lemma SplitKey(r: Rendering, plan: Plan, a: Node, b: Node)
    requires RenderingOk(r) && Plain(a.tool) && Plain(b.tool)
    requires Plain(Texts.Canonical(a.input)) && Plain(Texts.Canonical(b.input))
    requires KeyText(r, plan, a).Some? && KeyText(r, plan, a) == KeyText(r, plan, b)
    ensures DedupKey(plan, a) == DedupKey(plan, b)
  {
    hide Sealed, Texts.Canonical, Join;
    var pure := EffectsOf(plan, a.tool).value.pure;
    var endA := if pure then r.condition(a.condition) else Sealed(r.condition(a.condition), Join(a.dependsOn));
    var p, q := Sealed(r.items(a.forEach), endA), Texts.Canonical(a.input);
    var effects := EffectsOf(plan, b.tool).value;
    var endB := if effects.pure then r.condition(b.condition) else Sealed(r.condition(b.condition), Join(b.dependsOn));
    var s, t := Sealed(r.items(b.forEach), endB), Texts.Canonical(b.input);
    SealedDetermines(a.tool, Sealed(q, p), b.tool, Sealed(t, s));
    SealedDetermines(q, p, t, s);
    SealedDetermines(r.items(a.forEach), endA, r.items(b.forEach), endB);
    if !pure {
      SealedDetermines(r.condition(a.condition), Join(a.dependsOn), r.condition(b.condition), Join(b.dependsOn));
    }
  }

  // -------------------------------------------------------- tools with NUL

  /** A cacheable call whose one dependency is named like the rest of a pure call. */
  function Ordered(r: Rendering): Node {
    Node("a", "t", Null, [Sealed("x", Tail(r))], None, None)
  }

  /** A pure call of a tool named like the start of that key. */
  function Renamed(r: Rendering): Node {
    Node("b", Sealed("t", Sealed("null", Sealed(r.items(None), Sealed(r.condition(None), "x")))), Null, [], None, None)
  }

  function Tail(r: Rendering): string {
    Sealed("null", Sealed(r.items(None), r.condition(None)))
  }

  function Spec(pure: bool): ToolSpec {
    ToolSpec("adapter", Some(Effects(pure, {}, {}, true, false, false)), None, None, None, None)
  }

  /** With a NUL in a tool's name, different calls can have one text. */
  lemma NulToolsCollide(r: Rendering)
    ensures var plan := Plan(CURRENT_VERSION, map[Ordered(r).tool := Spec(false), Renamed(r).tool := Spec(true)],
                             [Ordered(r), Renamed(r)], map[]);
      && KeyText(r, plan, Ordered(r)).Some? && KeyText(r, plan, Ordered(r)) == KeyText(r, plan, Renamed(r))
      && DedupKey(plan, Ordered(r)) != DedupKey(plan, Renamed(r))
  {
    assert |Renamed(r).tool| > |Ordered(r).tool|;
    var items, condition := r.items(None), r.condition(None);
    SealedTwice("t", Sealed("null", Sealed(items, Sealed(condition, "x"))), Tail(r));
    SealedTwice("null", Sealed(items, Sealed(condition, "x")), Tail(r));
    SealedTwice(items, Sealed(condition, "x"), Tail(r));
    SealedTwice(condition, "x", Tail(r));
  }

  lemma SealedTwice(a: string, b: string, c: string)
    ensures Sealed(Sealed(a, b), c) == Sealed(a, Sealed(b, c))
  {
    assert (a + ([NUL] + b)) + ([NUL] + c) == a + ([NUL] + (b + ([NUL] + c)));
  }
}
