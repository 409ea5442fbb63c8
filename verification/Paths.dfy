/** What references and inputs resolve to, stated of the values alone: members
    of objects, elements of arrays, and paths step by step. */
module Paths {
  import opened Wrappers
  import opened Json
  import opened Strings
  import opened Refs
  import opened Resolve
  import opened Calls

  // ------------------------------------------------------------- indices

  function Zeros(k: nat): string {
    if k == 0 then "" else "0" + Zeros(k - 1)
  }

  /** The segments that name an array element: its decimal index, perhaps after
      zeros, perhaps after a '+'. */
  ghost predicate NamesIndex(s: string, n: nat) {
    exists k: nat :: s == Zeros(k) + IndexName(n) || s == "+" + (Zeros(k) + IndexName(n))
  }

  lemma {:induction false} PaddedValue(k: nat, n: nat)
    ensures var s := Zeros(k) + IndexName(n);
      s != "" && AllDigits(s) && DigitsValue(s) == n
  {
    IndexNameDigits(n);
    hide IndexName, DigitsValue;
    if k > 0 {
      PaddedValue(k - 1, n);
      var rest := Zeros(k - 1) + IndexName(n);
      assert Zeros(k) + IndexName(n) == "0" + rest;
      LeadingZero(rest);
    } else {
      assert Zeros(k) + IndexName(n) == IndexName(n);
    }
  }

  lemma {:induction false} LeadingZero(s: string)
    requires AllDigits(s)
    ensures AllDigits("0" + s) && DigitsValue("0" + s) == DigitsValue(s)
  {
    if s == "" {
      assert "0" + s == "0" && "0"[..0] == "";
    } else {
      LeadingZero(s[..|s| - 1]);
      assert ("0" + s)[..|s|] == "0" + s[..|s| - 1];
    }
  }

  lemma AppendDigit(value: nat, c: char)
    requires '0' <= c <= '9'
    ensures value > 0 ==> IndexName(value * 10 + (c as int - '0' as int)) == IndexName(value) + [c]
    ensures IndexName(c as int - '0' as int) == [c] && IndexName(0) == "0"
  {
    var digit := c as int - '0' as int;
    assert ('0' as int + digit) as char == c;
    if value > 0 {
      var n := value * 10 + digit;
      assert n / 10 == value && n % 10 == digit;
    }
  }

  lemma {:induction false} DigitsArePadded(s: string) returns (k: nat)
    requires s != "" && AllDigits(s)
    ensures s == Zeros(k) + IndexName(DigitsValue(s))
  {
    var init, last := s[..|s| - 1], s[|s| - 1];
    assert s == init + [last];
    AppendDigit(DigitsValue(init), last);
    if init == "" {
      k := 0;
    } else {
      k := DigitsArePadded(init);
      hide IndexName;
      if DigitsValue(init) == 0 {
        ZerosEnd(k);
        k := k + 1;
      } else {
        assert Zeros(k) + (IndexName(DigitsValue(init)) + [last]) == (Zeros(k) + IndexName(DigitsValue(init))) + [last];
      }
    }
  }

  lemma {:induction false} ZerosEnd(k: nat)
    ensures Zeros(k) + "0" == Zeros(k + 1)
  {
    if k > 0 {
      ZerosEnd(k - 1);
      assert Zeros(k) + "0" == "0" + (Zeros(k - 1) + "0");
    }
  }

  lemma ParsedIsNamed(s: string, n: nat)
    ensures ParseIndex(s) == Some(n) <==> NamesIndex(s, n)
  {
    hide ParseIndex, Zeros, IndexName;
    if k: nat :| s == Zeros(k) + IndexName(n) || s == "+" + (Zeros(k) + IndexName(n)) {
      PaddedParses(k, n);
    }
    if ParseIndex(s) == Some(n) {
      ParsedIsPadded(s, n);
    }
  }

  lemma PaddedParses(k: nat, n: nat)
    ensures ParseIndex(Zeros(k) + IndexName(n)) == Some(n) && ParseIndex("+" + (Zeros(k) + IndexName(n))) == Some(n)
  {
    PaddedValue(k, n);
    hide Zeros, IndexName, DigitsValue;
    var digits := Zeros(k) + IndexName(n);
    assert digits[0] != '+';
    assert ("+" + digits)[1..] == digits;
  }

  lemma ParsedIsPadded(s: string, n: nat)
    requires ParseIndex(s) == Some(n)
    ensures NamesIndex(s, n)
  {
    hide Zeros, IndexName;
    var digits := if s[0] == '+' then s[1..] else s;
    assert digits != "" && AllDigits(digits);
    var k := DigitsArePadded(digits);
    assert s[0] == '+' ==> s == "+" + digits;
  }

  // --------------------------------------------------------- single steps

  function At(value: Json, path: seq<string>): Result<Json, ResolveError> {
    ResolveRef(ValueRef("", path), map["" := value])
  }

  /** A reference reads from its node's output, if there is one. */
  lemma ReadsItsNode(r: ValueRef, outputs: Outputs)
    ensures ResolveRef(r, outputs) == if r.node in outputs then At(outputs[r.node], r.path) else Err(MissingNodeOutput)
  {
  }

  lemma WholeValue(value: Json)
    ensures At(value, []) == Ok(value)
  {
  }

  lemma IntoObject(fields: map<string, Json>, k: string)
    ensures At(Obj(fields), [k]) == if k in fields then Ok(fields[k]) else Err(MissingPath)
  {
    WholeStep(Obj(fields), k);
  }

  /** A segment that names an index reads that element. */
  lemma IntoArray(items: seq<Json>, s: string, i: nat)
    requires NamesIndex(s, i)
    ensures At(Arr(items), [s]) == if i < |items| then Ok(items[i]) else Err(MissingPath)
  {
    ParsedIsNamed(s, i);
    WholeStep(Arr(items), s);
  }

  /** Any other segment reads nothing. */
  lemma NoSuchElement(items: seq<Json>, s: string)
    requires forall i: nat :: !NamesIndex(s, i)
    ensures At(Arr(items), [s]) == Err(MissingPath)
  {
    if ParseIndex(s).Some? {
      ParsedIsNamed(s, ParseIndex(s).value);
    }
    WholeStep(Arr(items), s);
  }

  lemma PlainIndex(i: nat)
    ensures NamesIndex(IndexName(i), i)
  {
    assert IndexName(i) == Zeros(0) + IndexName(i);
  }

  lemma IntoLeaf(value: Json, s: string)
    requires !value.Obj? && !value.Arr?
    ensures At(value, [s]) == Err(MissingPath)
  {
  }

  lemma WholeStep(value: Json, s: string)
    ensures At(value, [s]) == if StepInto(value, s).Some? then Ok(StepInto(value, s).value) else Err(MissingPath)
  {
    var path := [s];
    assert path[1..] == [];
    var next := StepInto(value, s);
    assert next.Some? ==> Walk(next.value, path[1..]) == Some(next.value);
  }

  /** A longer path goes on from where the shorter one leads. */
  lemma {:induction false} PathConcat(value: Json, p: seq<string>, q: seq<string>)
    ensures At(value, p + q) == if At(value, p).Ok? then At(At(value, p).value, q) else Err(MissingPath)
    decreases |p|
  {
    if p == [] {
      assert p + q == q;
    } else {
      var next := StepInto(value, p[0]);
      assert (p + q)[0] == p[0] && (p + q)[1..] == p[1..] + q;
      if next.Some? {
        PathConcat(next.value, p[1..], q);
      }
    }
  }

  // ------------------------------------------------------------- inputs

  lemma LiteralInput(value: Json, outputs: Outputs)
    ensures ResolveInput(Obj(map[LITERAL_KEY := value]), outputs) == Ok(value)
  {
  }

  /** A reference object stands for what its reference reads. */
  lemma RefInput(r: ValueRef, outputs: Outputs)
    requires ValidRef(r)
    ensures ResolveInput(Obj(map[REF_KEY := Str(Print(r))]), outputs) == ResolveRef(r, outputs)
  {
    RoundTrip(r);
    hide Parse, Print, ResolveRef;
    var fields := map[REF_KEY := Str(Print(r))];
    assert REF_KEY in fields && |fields| == 1 && LITERAL_KEY !in fields;
  }

  lemma LeafInput(value: Json, outputs: Outputs)
    requires !value.Obj? && !value.Arr?
    ensures ResolveInput(value, outputs) == Ok(value)
  {
  }

  /** Arrays keep their length, and each element is resolved. */
  lemma ArrayInput(items: seq<Json>, outputs: Outputs)
    ensures var result := ResolveInput(Arr(items), outputs);
      && (result.Ok? <==> forall i | 0 <= i < |items| :: ResolveInput(items[i], outputs).Ok?)
      && (result.Ok? ==>
            result.value.Arr? && |result.value.items| == |items|
            && forall i | 0 <= i < |items| :: ResolveInput(items[i], outputs) == Ok(result.value.items[i]))
  {
    hide ResolveFields, ResolveItems, ResolveRef, Parse;
    ItemsFromInput(Arr(items), 0, outputs);
  }

  lemma {:induction false} ItemsFromInput(j: Json, i: nat, outputs: Outputs)
    requires j.Arr? && i <= |j.items|
    ensures var result := ResolveItems(j, i, outputs);
      && (result.Ok? <==> forall k | i <= k < |j.items| :: ResolveInput(j.items[k], outputs).Ok?)
      && (result.Ok? ==>
            |result.value| == |j.items| - i
            && forall k | i <= k < |j.items| :: ResolveInput(j.items[k], outputs) == Ok(result.value[k - i]))
    decreases |j.items| - i
  {
    hide ResolveInput;
    if i < |j.items| {
      ItemsFromInput(j, i + 1, outputs);
    }
  }

  /** Other objects keep their keys, and each member is resolved. */
  lemma ObjectInput(fields: map<string, Json>, outputs: Outputs)
    requires |fields| != 1 || (LITERAL_KEY !in fields && !(REF_KEY in fields && fields[REF_KEY].Str?))
    ensures var result := ResolveInput(Obj(fields), outputs);
      && (result.Ok? <==> forall k | k in fields :: ResolveInput(fields[k], outputs).Ok?)
      && (result.Ok? ==>
            result.value.Obj? && result.value.fields.Keys == fields.Keys
            && forall k | k in fields :: ResolveInput(fields[k], outputs) == Ok(result.value.fields[k]))
  {
    hide ResolveFields, ResolveItems, ResolveRef, Parse, Sorted;
    FieldsFromInput(Obj(fields), Sorted(fields.Keys), outputs);
  }

  lemma {:induction false} FieldsFromInput(j: Json, keys: seq<string>, outputs: Outputs)
    requires j.Obj? && forall k | k in keys :: k in j.fields
    ensures var result := ResolveFields(j, keys, outputs);
      && (result.Ok? <==> forall k | k in keys :: ResolveInput(j.fields[k], outputs).Ok?)
      && (result.Ok? ==>
            (forall k :: k in result.value <==> k in keys)
            && forall k | k in keys :: ResolveInput(j.fields[k], outputs) == Ok(result.value[k]))
    decreases |keys|
  {
    hide ResolveInput;
    if keys != [] {
      FieldsFromInput(j, keys[1..], outputs);
      assert forall k | k in keys :: k == keys[0] || k in keys[1..];
    }
  }
}
