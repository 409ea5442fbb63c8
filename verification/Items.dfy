/** What a fan-out sends for an item, stated of the template and the item alone:
    markers are replaced by what their path reads from the item, and everything
    else stays as it is. */
module Items {
  import opened Wrappers
  import opened Json
  import opened Strings
  import opened Refs
  import opened Resolve
  import opened Calls
  import opened Paths

  function Marker(path: string): Json {
    Obj(map[ITEM_KEY := Str(path)])
  }

  lemma MarkerReads(path: string, item: Json)
    ensures SubstituteItem(Marker(path), item) ==
      if WalkItem(item, path).Some? then Ok(WalkItem(item, path).value) else Err(InvalidRef)
  {
    hide WalkItem;
    var fields := map[ITEM_KEY := Str(path)];
    assert ITEM_KEY in fields && |fields| == 1;
  }

  // ------------------------------------------------------------- markers

  function Dotted(parts: seq<string>): string
    requires |parts| > 0
  {
    if |parts| == 1 then parts[0] else parts[0] + "." + Dotted(parts[1..])
  }

  lemma {:induction false} SplitDotted(parts: seq<string>)
    requires |parts| > 0 && forall i | 0 <= i < |parts| :: '.' !in parts[i]
    ensures Split(Dotted(parts)) == parts
  {
    if |parts| == 1 {
      SplitAtDot(parts[0], "");
      assert parts == [parts[0]];
    } else {
      SplitDotted(parts[1..]);
      SplitAtDot(parts[0], Dotted(parts[1..]));
      assert parts[0] + "." + Dotted(parts[1..]) == parts[0] + ("." + Dotted(parts[1..]));
      assert parts == [parts[0]] + parts[1..];
    }
  }

  /** The empty marker is the whole item. */
  lemma EmptyMarker(item: Json)
    ensures SubstituteItem(Marker(""), item) == Ok(item)
  {
    MarkerReads("", item);
  }

  /** Any other marker reads its path from the item, segment by segment. */
  lemma PathMarker(parts: seq<string>, item: Json)
    requires |parts| > 0 && (forall i | 0 <= i < |parts| :: '.' !in parts[i]) && Dotted(parts) != ""
    ensures SubstituteItem(Marker(Dotted(parts)), item) ==
      if At(item, parts).Ok? then Ok(At(item, parts).value) else Err(InvalidRef)
  {
    MarkerReads(Dotted(parts), item);
    SplitDotted(parts);
    hide SubstituteItem, Walk, Dotted;
  }

  /** A key reads that member of an object. */
  lemma KeyMarker(fields: map<string, Json>, k: string)
    requires k != "" && '.' !in k
    ensures SubstituteItem(Marker(k), Obj(fields)) == if k in fields then Ok(fields[k]) else Err(InvalidRef)
  {
    OnePart(k, Obj(fields));
    IntoObject(fields, k);
  }

  lemma OnePart(k: string, item: Json)
    requires k != "" && '.' !in k
    ensures SubstituteItem(Marker(k), item) == if At(item, [k]).Ok? then Ok(At(item, [k]).value) else Err(InvalidRef)
  {
    var parts := [k];
    assert Dotted(parts) == k;
    PathMarker(parts, item);
  }

  lemma IndexHasNoDot(s: string, i: nat)
    requires NamesIndex(s, i)
    ensures s != "" && '.' !in s
  {
    ParsedIsNamed(s, i);
    hide DigitsValue, NamesIndex;
    var digits := if s[0] == '+' then s[1..] else s;
    assert AllDigits(digits);
    assert s[0] == '+' ==> s == ['+'] + digits;
  }

  /** An index reads that element of an array. */
  lemma IndexMarker(items: seq<Json>, s: string, i: nat)
    requires NamesIndex(s, i)
    ensures SubstituteItem(Marker(s), Arr(items)) == if i < |items| then Ok(items[i]) else Err(InvalidRef)
  {
    IndexHasNoDot(s, i);
    OnePart(s, Arr(items));
    IntoArray(items, s, i);
  }

  /** A longer path reads what its rest reads from what its first key reads. */
  lemma DotMarker(k: string, path: string, item: Json)
    requires k != "" && '.' !in k && path != ""
    ensures SubstituteItem(Marker(k + "." + path), item) ==
      var first := SubstituteItem(Marker(k), item);
      if first.Ok? then SubstituteItem(Marker(path), first.value) else Err(InvalidRef)
  {
    var rest := Split(path);
    DottedSplit(path);
    var parts := [k] + rest;
    assert parts[1..] == rest;
    assert forall i | 0 <= i < |rest| :: rest[i] in rest;
    assert Dotted(parts) == k + "." + path;
    OnePart(k, item);
    PathMarker(parts, item);
    PathConcat(item, [k], rest);
    hide SubstituteItem, Dotted, Split;
    if At(item, [k]).Ok? {
      PathMarker(rest, At(item, [k]).value);
    }
  }

  lemma {:induction false} DottedSplit(s: string)
    ensures Dotted(Split(s)) == s
  {
    if s != "" {
      DottedSplit(s[1..]);
      var parts := Split(s[1..]);
      assert s == [s[0]] + s[1..];
      if s[0] == '.' {
        assert ([""] + parts)[1..] == parts;
      } else if |parts| > 1 {
        assert ([[s[0]] + parts[0]] + parts[1..])[1..] == parts[1..];
      }
    }
  }

  lemma BadMarker(marker: Json, item: Json)
    requires !marker.Str?
    ensures SubstituteItem(Obj(map[ITEM_KEY := marker]), item) == Err(InvalidRef)
  {
    var fields := map[ITEM_KEY := marker];
    assert ITEM_KEY in fields && |fields| == 1;
  }

  // ----------------------------------------------------------- templates

  lemma LeafTemplate(template: Json, item: Json)
    requires !template.Obj? && !template.Arr?
    ensures SubstituteItem(template, item) == Ok(template)
  {
  }

  /** Literals are not looked into. */
  lemma LiteralTemplate(value: Json, item: Json)
    ensures SubstituteItem(Obj(map[LITERAL_KEY := value]), item) == Ok(Obj(map[LITERAL_KEY := value]))
  {
    var fields := map[LITERAL_KEY := value];
    assert LITERAL_KEY in fields && |fields| == 1 && ITEM_KEY !in fields;
  }

  /** Arrays keep their length, and each element is filled. */
  lemma ArrayTemplate(items: seq<Json>, item: Json)
    ensures var result := SubstituteItem(Arr(items), item);
      && (result.Ok? <==> forall i | 0 <= i < |items| :: SubstituteItem(items[i], item).Ok?)
      && (result.Ok? ==>
            result.value.Arr? && |result.value.items| == |items|
            && forall i | 0 <= i < |items| :: SubstituteItem(items[i], item) == Ok(result.value.items[i]))
  {
    hide SubstituteFields, SubstituteItems, WalkItem;
    ItemsOfTemplate(Arr(items), 0, item);
  }

  lemma {:induction false} ItemsOfTemplate(j: Json, i: nat, item: Json)
    requires j.Arr? && i <= |j.items|
    ensures var result := SubstituteItems(j, i, item);
      && (result.Ok? <==> forall k | i <= k < |j.items| :: SubstituteItem(j.items[k], item).Ok?)
      && (result.Ok? ==>
            |result.value| == |j.items| - i
            && forall k | i <= k < |j.items| :: SubstituteItem(j.items[k], item) == Ok(result.value[k - i]))
    decreases |j.items| - i
  {
    hide SubstituteItem;
    if i < |j.items| {
      ItemsOfTemplate(j, i + 1, item);
    }
  }

  /** Other objects keep their keys, and each member is filled. */
  lemma ObjectTemplate(fields: map<string, Json>, item: Json)
    requires |fields| != 1 || (ITEM_KEY !in fields && LITERAL_KEY !in fields)
    ensures var result := SubstituteItem(Obj(fields), item);
      && (result.Ok? <==> forall k | k in fields :: SubstituteItem(fields[k], item).Ok?)
      && (result.Ok? ==>
            result.value.Obj? && result.value.fields.Keys == fields.Keys
            && forall k | k in fields :: SubstituteItem(fields[k], item) == Ok(result.value.fields[k]))
  {
    hide SubstituteFields, SubstituteItems, WalkItem, Sorted;
    FieldsOfTemplate(Obj(fields), Sorted(fields.Keys), item);
  }

  lemma {:induction false} FieldsOfTemplate(j: Json, keys: seq<string>, item: Json)
    requires j.Obj? && forall k | k in keys :: k in j.fields
    ensures var result := SubstituteFields(j, keys, item);
      && (result.Ok? <==> forall k | k in keys :: SubstituteItem(j.fields[k], item).Ok?)
      && (result.Ok? ==>
            (forall k :: k in result.value <==> k in keys)
            && forall k | k in keys :: SubstituteItem(j.fields[k], item) == Ok(result.value[k]))
    decreases |keys|
  {
    hide SubstituteItem;
    if keys != [] {
      FieldsOfTemplate(j, keys[1..], item);
      assert forall k | k in keys :: k == keys[0] || k in keys[1..];
    }
  }

  /** No marker anywhere outside literals. */
  ghost predicate MarkerFree(template: Json)
    decreases template
  {
    match template
    case Obj(fields) =>
      !(|fields| == 1 && ITEM_KEY in fields)
      && (IsLiteral(template) || forall k | k in fields :: MarkerFree(fields[k]))
    case Arr(items) => forall i | 0 <= i < |items| :: MarkerFree(items[i])
    case _ => true
  }

  /** A template without markers is sent as it is. */
  lemma {:induction false} MarkerFreeStays(template: Json, item: Json)
    requires MarkerFree(template)
    ensures SubstituteItem(template, item) == Ok(template)
    decreases template
  {
    hide SubstituteItem;
    match template
    case Obj(fields) =>
      if IsLiteral(template) {
        OnlyKey(fields, LITERAL_KEY);
        LiteralTemplate(fields[LITERAL_KEY], item);
      } else {
        forall k | k in fields
          ensures SubstituteItem(fields[k], item) == Ok(fields[k])
        {
          MarkerFreeStays(fields[k], item);
        }
        assert LITERAL_KEY in fields ==> |fields| != 1;
        ObjectTemplate(fields, item);
        assert SubstituteItem(template, item).value.fields == fields;
      }
    case Arr(items) =>
      forall i | 0 <= i < |items|
        ensures SubstituteItem(items[i], item) == Ok(items[i])
      {
        MarkerFreeStays(items[i], item);
      }
      ArrayTemplate(items, item);
      assert SubstituteItem(template, item).value.items == items;
    case _ => LeafTemplate(template, item);
  }

  lemma OnlyKey(fields: map<string, Json>, key: string)
    requires |fields| == 1 && key in fields
    ensures fields == map[key := fields[key]]
  {
    var others := fields.Keys - {key};
    assert |fields| == |fields.Keys| && fields.Keys == others + {key};
    assert others == {};
  }

  // ---------------------------------------------------------------- items

  /** The inputs of a fan-out are its items' own, in order; it is refused exactly
      when some item does not fit. */
  lemma {:induction false} ItemInputsAre(template: Json, items: seq<Json>)
    ensures var inputs := ItemInputs(template, items);
      && (inputs.Ok? <==> forall i | 0 <= i < |items| :: SubstituteItem(template, items[i]).Ok?)
      && (inputs.Ok? ==>
            |inputs.value| == |items|
            && forall i | 0 <= i < |items| :: SubstituteItem(template, items[i]) == Ok(inputs.value[i]))
      && (inputs.Err? ==> inputs.error == Coded("invalid_item"))
  {
    hide SubstituteItem;
    if items != [] {
      ItemInputsAre(template, items[1..]);
      assert forall i | 0 < i < |items| :: items[i] == items[1..][i - 1];
    }
  }
}
