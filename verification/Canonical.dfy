/** Canonical JSON text, the input part of deduplication and cache keys.

    `Canonical` is the text as a function; `Buffer` holds the writers that push
    it character by character. `Injective` is what the keys rely on: equal text
    means equal values, whatever order the object keys were inserted in. */
module Canonical {
  import opened Json
  import opened Strings

  // ---------------------------------------------------------------- text

  function HexDigit(n: nat): char
    requires n < 16
  {
    "0123456789abcdef"[n]
  }

  function EscapeChar(c: char): string {
    match c
    case '\"' => "\\\""
    case '\\' => "\\\\"
    case '\U{0008}' => "\\b"
    case '\U{000C}' => "\\f"
    case '\n' => "\\n"
    case '\r' => "\\r"
    case '\t' => "\\t"
    case _ => if c < ' ' then "\\u00" + [HexDigit(c as int / 16), HexDigit(c as int % 16)] else [c]
  }

  function EscapeText(s: string): string {
    if s == "" then "" else EscapeChar(s[0]) + EscapeText(s[1..])
  }

  function Quote(s: string): string {
    "\"" + EscapeText(s) + "\""
  }

  function Canonical(j: Json): string
    decreases j, 1, 0
  {
    match j
    case Null => "null"
    case Bool(b) => if b then "true" else "false"
    case Num(text) => text
    case Str(s) => Quote(s)
    case Arr(items) => "[" + ItemsFrom(j, 0) + "]"
    case Obj(fields) => "{" + FieldsFrom(j, Sorted(fields.Keys), 0) + "}"
  }

  function ItemsFrom(j: Json, i: nat): string
    requires j.Arr? && i <= |j.items|
    decreases j, 0, |j.items| - i
  {
    if i == |j.items| then ""
    else (if i > 0 then "," else "") + Canonical(j.items[i]) + ItemsFrom(j, i + 1)
  }

  function FieldsFrom(j: Json, keys: seq<string>, i: nat): string
    requires j.Obj? && i <= |keys| && forall k | k in keys :: k in j.fields
    decreases j, 0, |keys| - i
  {
    if i == |keys| then ""
    else (if i > 0 then "," else "") + Quote(keys[i]) + ":" + Canonical(j.fields[keys[i]]) + FieldsFrom(j, keys, i + 1)
  }

  // ------------------------------------------------------------- writers

  /** The output buffer the writers push to. */
  class Buffer {
    var text: string

    constructor ()
      ensures text == ""
    {
      text := "";
    }

    method Push(s: string)
      modifies this
      ensures text == old(text) + s
    {
      text := text + s;
    }

    method WriteJsonString(s: string)
      modifies this
      ensures text == old(text) + Quote(s)
    {
      hide EscapeChar;
      Push("\"");
      for i := 0 to |s|
        invariant text + (EscapeText(s[i..]) + "\"") == old(text) + Quote(s)
      {
        Push(EscapeChar(s[i]));
        assert s[i..][1..] == s[i + 1..];
      }
      Push("\"");
    }

    method WriteObject(j: Json)
      requires j.Obj?
      modifies this
      ensures text == old(text) + Canonical(j)
      decreases j, 0
    {
      hide Quote, Canonical, FieldsFrom;
      var keys := Sorted(j.fields.Keys);
      ghost var whole := text + ("{" + (FieldsFrom(j, keys, 0) + ("}" + "")));
      Push("{");
      for i := 0 to |keys|
        invariant text + (FieldsFrom(j, keys, i) + "}") == whole
      {
        ghost var before, rest := text, FieldsFrom(j, keys, i + 1) + "}";
        FieldsStep(j, keys, i, "}");
        if i > 0 {
          Push(",");
        }
        assert text == before + Comma(i);
        hide Sorted, Comma;
        WriteJsonString(keys[i]);
        assert text == before + Comma(i) + Quote(keys[i]);
        Push(":");
        WriteCanonical(j.fields[keys[i]]);
        assert text == before + Comma(i) + Quote(keys[i]) + ":" + Canonical(j.fields[keys[i]]);
        Regroup(before, Comma(i), Quote(keys[i]), Canonical(j.fields[keys[i]]), rest);
      }
      Push("}");
      ObjText(j, "");
      NoFields(j, keys);
      assert old(text) + Canonical(j) == old(text) + (Canonical(j) + "");
    }

    method WriteArray(j: Json)
      requires j.Arr?
      modifies this
      ensures text == old(text) + Canonical(j)
      decreases j, 0
    {
      hide Canonical, ItemsFrom;
      ghost var whole := text + ("[" + (ItemsFrom(j, 0) + ("]" + "")));
      Push("[");
      for i := 0 to |j.items|
        invariant text + (ItemsFrom(j, i) + "]") == whole
      {
        ghost var before, rest := text, ItemsFrom(j, i + 1) + "]";
        ItemsStep(j, i, "]");
        if i > 0 {
          Push(",");
        }
        WriteCanonical(j.items[i]);
        assert text + rest == before + (Comma(i) + (Canonical(j.items[i]) + rest));
      }
      Push("]");
      ArrText(j, "");
      NoItems(j);
      assert old(text) + Canonical(j) == old(text) + (Canonical(j) + "");
    }

    method WriteCanonical(j: Json)
      modifies this
      ensures text == old(text) + Canonical(j)
      decreases j, 1
    {
      match j
      case Obj(_) => WriteObject(j);
      case Arr(_) => WriteArray(j);
      case Str(s) => WriteJsonString(s);
      case Null => Push("null");
      case Bool(b) => Push(if b then "true" else "false");
      case Num(t) => Push(t);
    }
  }

  /** `canonical_json_string`. */
  method CanonicalJsonString(j: Json) returns (text: string)
    ensures text == Canonical(j)
  {
    var out := new Buffer();
    out.WriteCanonical(j);
    text := out.text;
  }

  // ------------------------------------------------------- string reading

  function HexValue(c: char): nat {
    if '0' <= c <= '9' then c as int - '0' as int
    else if 'a' <= c <= 'f' then c as int - 'a' as int + 10
    else 0
  }

  datatype CharRead = CharRead(c: char, rest: string) | EndOfText

  /** Reads one character back, following the escapes of section 7 of RFC 8259. */
  function ReadChar(s: string): CharRead {
    if s == "" || s[0] == '\"' then EndOfText
    else if s[0] != '\\' then CharRead(s[0], s[1..])
    else if |s| == 1 then EndOfText
    else match s[1]
      case '\"' => CharRead('\"', s[2..])
      case '\\' => CharRead('\\', s[2..])
      case 'b' => CharRead('\U{0008}', s[2..])
      case 'f' => CharRead('\U{000C}', s[2..])
      case 'n' => CharRead('\n', s[2..])
      case 'r' => CharRead('\r', s[2..])
      case 't' => CharRead('\t', s[2..])
      case 'u' => if |s| < 6 then EndOfText
                  else CharRead((HexValue(s[4]) % 16 * 16 + HexValue(s[5]) % 16) as char, s[6..])
      case _ => EndOfText
  }

  lemma ReadsEscaped(c: char, rest: string)
    ensures ReadChar(EscapeChar(c) + rest) == CharRead(c, rest)
  {
    var text := EscapeChar(c) + rest;
    assert text[|EscapeChar(c)|..] == rest;
    if c < ' ' && EscapeChar(c)[1] == 'u' {
      assert HexValue(text[4]) == c as int / 16 && HexValue(text[5]) == c as int % 16;
    }
  }

  lemma CancelPrefix(x: string, p: string, q: string)
    requires x + p == x + q
    ensures p == q
  {
    assert p == (x + p)[|x|..] && q == (x + q)[|x|..];
  }

  lemma AtQuote(s: string)
    requires |s| > 0 && s[0] == '\"'
    ensures ReadChar(s) == EndOfText
  {
  }

  lemma ReadsText(a: string, s: string)
    requires |s| > 0 && s[0] == '\"'
    ensures ReadChar(EscapeText(a) + s) == if a == "" then EndOfText else CharRead(a[0], EscapeText(a[1..]) + s)
  {
    hide EscapeChar, ReadChar;
    if a == "" {
      AtQuote(s);
      assert EscapeText(a) + s == s;
    } else {
      assert EscapeText(a) + s == EscapeChar(a[0]) + (EscapeText(a[1..]) + s);
      ReadsEscaped(a[0], EscapeText(a[1..]) + s);
    }
  }

  /** A quoted string ends where its text says it does. */
  lemma {:induction false} TextUnambiguous(a: string, b: string, s: string, t: string)
    requires |s| > 0 && s[0] == '\"' && |t| > 0 && t[0] == '\"'
    requires EscapeText(a) + s == EscapeText(b) + t
    ensures a == b && s == t
    decreases |a|
  {
    hide EscapeChar, ReadChar;
    ReadsText(a, s);
    ReadsText(b, t);
    if a != "" {
      TextUnambiguous(a[1..], b[1..], s, t);
      assert a == [a[0]] + a[1..] && b == [b[0]] + b[1..];
    } else {
      assert EscapeText(a) + s == s && EscapeText(b) + t == t;
    }
  }

  lemma QuoteUnambiguous(a: string, b: string, s: string, t: string)
    requires Quote(a) + s == Quote(b) + t
    ensures a == b && s == t
  {
    hide EscapeText;
    assert Quote(a) + s == "\"" + (EscapeText(a) + ("\"" + s));
    assert Quote(b) + t == "\"" + (EscapeText(b) + ("\"" + t));
    CancelPrefix("\"", EscapeText(a) + ("\"" + s), EscapeText(b) + ("\"" + t));
    TextUnambiguous(a, b, "\"" + s, "\"" + t);
    CancelPrefix("\"", s, t);
  }

  // -------------------------------------------------------- unambiguity

  /** What can follow a value: the end of the text or JSON punctuation. */
  predicate Stops(s: string) {
    s == "" || s[0] == ',' || s[0] == ']' || s[0] == '}'
  }

  lemma Overhang(a: string, b: string, s: string, t: string)
    requires a + s == b + t
    ensures |a| < |b| ==> |s| > 0 && s[0] in b
  {
    assert s == (b + t)[|a|..];
    assert |a| < |b| ==> s[0] == (b + t)[|a|] == b[|a|];
  }

  lemma NumberUnambiguous(a: string, b: string, s: string, t: string)
    requires (forall c | c in a :: IsNumberChar(c)) && (forall c | c in b :: IsNumberChar(c))
    requires a + s == b + t && Stops(s) && Stops(t)
    ensures a == b && s == t
  {
    Overhang(a, b, s, t);
    Overhang(b, a, t, s);
    assert |a| == |b|;
    assert a == (a + s)[..|a|] && b == (b + t)[..|b|];
    CancelPrefix(a, s, t);
  }

  /** The first character tells the kind of value. */
  function Kind(c: char): nat {
    match c
    case 'n' => 0
    case 't' => 1
    case 'f' => 1
    case '\"' => 3
    case '[' => 4
    case '{' => 5
    case _ => 2
  }

  function KindOf(j: Json): nat {
    match j
    case Null => 0
    case Bool(_) => 1
    case Num(_) => 2
    case Str(_) => 3
    case Arr(_) => 4
    case Obj(_) => 5
  }

  lemma FirstChar(j: Json, s: string)
    requires WellFormed(j)
    ensures |Canonical(j)| > 0 && (Canonical(j) + s)[0] == Canonical(j)[0]
    ensures Kind(Canonical(j)[0]) == KindOf(j)
    ensures !Stops(Canonical(j) + s)
  {
    assert (Canonical(j) + s)[0] == Canonical(j)[0];
  }

  function Comma(i: nat): string {
    if i > 0 then "," else ""
  }

  lemma ItemsStep(j: Json, i: nat, s: string)
    requires j.Arr? && i < |j.items|
    ensures ItemsFrom(j, i) + s == Comma(i) + (Canonical(j.items[i]) + (ItemsFrom(j, i + 1) + s))
  {
  }

  lemma FieldsStep(j: Json, keys: seq<string>, i: nat, s: string)
    requires j.Obj? && i < |keys| && forall k | k in keys :: k in j.fields
    ensures FieldsFrom(j, keys, i) + s
         == Comma(i) + (Quote(keys[i]) + (":" + (Canonical(j.fields[keys[i]]) + (FieldsFrom(j, keys, i + 1) + s))))
  {
  }

  lemma Regroup(before: string, comma: string, key: string, value: string, rest: string)
    ensures before + comma + key + ":" + value + rest == before + (comma + (key + (":" + (value + rest))))
  {
  }

  lemma NoItems(j: Json)
    requires j.Arr?
    ensures ItemsFrom(j, |j.items|) == ""
  {
  }

  lemma NoFields(j: Json, keys: seq<string>)
    requires j.Obj? && forall k | k in keys :: k in j.fields
    ensures FieldsFrom(j, keys, |keys|) == ""
  {
  }

  lemma ArrText(j: Json, s: string)
    requires j.Arr?
    ensures Canonical(j) + s == "[" + (ItemsFrom(j, 0) + ("]" + s))
  {
  }

  lemma ObjText(j: Json, s: string)
    requires j.Obj?
    ensures Canonical(j) + s == "{" + (FieldsFrom(j, Sorted(j.fields.Keys), 0) + ("}" + s))
  {
  }

  /** No canonical text is a proper prefix of another where a value may end. */
  lemma {:induction false} Unambiguous(a: Json, b: Json, s: string, t: string)
    requires WellFormed(a) && WellFormed(b)
    requires Canonical(a) + s == Canonical(b) + t && Stops(s) && Stops(t)
    ensures a == b && s == t
    decreases a, 1, 0
  {
    FirstChar(a, s);
    FirstChar(b, t);
    match a
    case Null => CancelPrefix("null", s, t);
    case Bool(x) =>
      assert (if x then 't' else 'f') == (if b.b then 't' else 'f');
      CancelPrefix(Canonical(a), s, t);
    case Num(x) => NumberUnambiguous(x, b.text, s, t);
    case Str(x) => QuoteUnambiguous(x, b.s, s, t);
    case Arr(_) =>
      ArrText(a, s);
      ArrText(b, t);
      CancelPrefix("[", ItemsFrom(a, 0) + ("]" + s), ItemsFrom(b, 0) + ("]" + t));
      ItemsUnambiguous(a, b, 0, "]" + s, "]" + t);
      CancelPrefix("]", s, t);
    case Obj(_) =>
      ObjText(a, s);
      ObjText(b, t);
      ObjectUnambiguous(a, b, s, t);
  }

  lemma {:induction false} ObjectUnambiguous(a: Json, b: Json, s: string, t: string)
    requires a.Obj? && b.Obj? && WellFormed(a) && WellFormed(b)
    requires "{" + (FieldsFrom(a, Sorted(a.fields.Keys), 0) + ("}" + s)) ==
      "{" + (FieldsFrom(b, Sorted(b.fields.Keys), 0) + ("}" + t))
    ensures a == b && s == t
    decreases a, 0, |a.fields| + 1
  {
    hide Canonical, FieldsFrom, Sorted;
    var ks, ls := Sorted(a.fields.Keys), Sorted(b.fields.Keys);
    CancelPrefix("{", FieldsFrom(a, ks, 0) + ("}" + s), FieldsFrom(b, ls, 0) + ("}" + t));
    FieldsUnambiguous(a, b, ks, ls, 0, "}" + s, "}" + t);
    CancelPrefix("}", s, t);
    assert a.fields.Keys == b.fields.Keys by {
      assert forall k :: k in a.fields.Keys <==> k in ks;
      assert forall k :: k in b.fields.Keys <==> k in ls;
    }
  }

  /** Where the items end, ']' stands; where they go on, ',' or a value. */
  lemma ItemsHead(j: Json, i: nat, s: string)
    requires j.Arr? && i <= |j.items| && WellFormed(j)
    requires |s| > 0 && s[0] == ']'
    ensures |ItemsFrom(j, i) + s| > 0
    ensures (ItemsFrom(j, i) + s)[0] == ']' <==> i == |j.items|
  {
    if i < |j.items| {
      ItemsStep(j, i, s);
      FirstChar(j.items[i], ItemsFrom(j, i + 1) + s);
    }
  }

  lemma {:induction false} ItemsUnambiguous(a: Json, b: Json, i: nat, s: string, t: string)
    requires a.Arr? && b.Arr? && WellFormed(a) && WellFormed(b)
    requires i <= |a.items| && i <= |b.items| && a.items[..i] == b.items[..i]
    requires |s| > 0 && s[0] == ']' && |t| > 0 && t[0] == ']'
    requires ItemsFrom(a, i) + s == ItemsFrom(b, i) + t
    ensures a == b && s == t
    decreases a, 0, |a.items| - i
  {
    hide Canonical;
    ItemsHead(a, i, s);
    ItemsHead(b, i, t);
    if i < |a.items| {
      ItemsAlign(a, b, i, s, t);
      Unambiguous(a.items[i], b.items[i], ItemsFrom(a, i + 1) + s, ItemsFrom(b, i + 1) + t);
      assert a.items[..i + 1] == a.items[..i] + [a.items[i]];
      assert b.items[..i + 1] == b.items[..i] + [b.items[i]];
      ItemsUnambiguous(a, b, i + 1, s, t);
    } else {
      assert a.items == a.items[..i] == b.items;
      assert ItemsFrom(a, i) + s == s && ItemsFrom(b, i) + t == t;
    }
  }

  lemma ItemsAlign(a: Json, b: Json, i: nat, s: string, t: string)
    requires a.Arr? && b.Arr? && i < |a.items| && i < |b.items|
    requires |s| > 0 && s[0] == ']' && |t| > 0 && t[0] == ']'
    requires ItemsFrom(a, i) + s == ItemsFrom(b, i) + t
    ensures Canonical(a.items[i]) + (ItemsFrom(a, i + 1) + s) == Canonical(b.items[i]) + (ItemsFrom(b, i + 1) + t)
    ensures Stops(ItemsFrom(a, i + 1) + s) && Stops(ItemsFrom(b, i + 1) + t)
  {
    ItemsStep(a, i, s);
    ItemsStep(b, i, t);
    CancelPrefix(Comma(i), Canonical(a.items[i]) + (ItemsFrom(a, i + 1) + s),
      Canonical(b.items[i]) + (ItemsFrom(b, i + 1) + t));
    ItemsStop(a, i + 1, s);
    ItemsStop(b, i + 1, t);
  }

  lemma ItemsStop(j: Json, i: nat, s: string)
    requires j.Arr? && 0 < i <= |j.items| && |s| > 0 && s[0] == ']'
    ensures Stops(ItemsFrom(j, i) + s)
  {
    if i < |j.items| {
      ItemsStep(j, i, s);
    }
  }

  lemma FieldsStop(j: Json, keys: seq<string>, i: nat, s: string)
    requires j.Obj? && 0 < i <= |keys| && forall k | k in keys :: k in j.fields
    requires |s| > 0 && s[0] == '}'
    ensures Stops(FieldsFrom(j, keys, i) + s)
  {
    if i < |keys| {
      FieldsStep(j, keys, i, s);
    }
  }

  lemma FieldsAlign(a: Json, b: Json, ks: seq<string>, ls: seq<string>, i: nat, s: string, t: string)
    requires a.Obj? && b.Obj? && i < |ks| && i < |ls|
    requires (forall k | k in ks :: k in a.fields) && (forall k | k in ls :: k in b.fields)
    requires |s| > 0 && s[0] == '}' && |t| > 0 && t[0] == '}'
    requires FieldsFrom(a, ks, i) + s == FieldsFrom(b, ls, i) + t
    ensures ks[i] == ls[i]
    ensures Canonical(a.fields[ks[i]]) + (FieldsFrom(a, ks, i + 1) + s) ==
      Canonical(b.fields[ls[i]]) + (FieldsFrom(b, ls, i + 1) + t)
    ensures Stops(FieldsFrom(a, ks, i + 1) + s) && Stops(FieldsFrom(b, ls, i + 1) + t)
  {
    var valueA, valueB := Canonical(a.fields[ks[i]]) + (FieldsFrom(a, ks, i + 1) + s),
      Canonical(b.fields[ls[i]]) + (FieldsFrom(b, ls, i + 1) + t);
    FieldsStep(a, ks, i, s);
    FieldsStep(b, ls, i, t);
    CancelPrefix(Comma(i), Quote(ks[i]) + (":" + valueA), Quote(ls[i]) + (":" + valueB));
    QuoteUnambiguous(ks[i], ls[i], ":" + valueA, ":" + valueB);
    CancelPrefix(":", valueA, valueB);
    FieldsStop(a, ks, i + 1, s);
    FieldsStop(b, ls, i + 1, t);
  }

  /** Where the fields end, '}' stands; where they go on, ',' or a quote. */
  lemma FieldsHead(j: Json, keys: seq<string>, i: nat, s: string)
    requires j.Obj? && i <= |keys| && forall k | k in keys :: k in j.fields
    requires |s| > 0 && s[0] == '}'
    ensures |FieldsFrom(j, keys, i) + s| > 0
    ensures (FieldsFrom(j, keys, i) + s)[0] == '}' <==> i == |keys|
  {
    if i < |keys| {
      FieldsStep(j, keys, i, s);
    }
  }

  lemma {:induction false} FieldsUnambiguous(a: Json, b: Json, ks: seq<string>, ls: seq<string>, i: nat, s: string,
      t: string)
    requires a.Obj? && b.Obj? && WellFormed(a) && WellFormed(b)
    requires (forall k | k in ks :: k in a.fields) && (forall k | k in ls :: k in b.fields)
    requires i <= |ks| && i <= |ls| && ks[..i] == ls[..i]
    requires forall n | 0 <= n < i :: a.fields[ks[n]] == b.fields[ls[n]]
    requires |s| > 0 && s[0] == '}' && |t| > 0 && t[0] == '}'
    requires FieldsFrom(a, ks, i) + s == FieldsFrom(b, ls, i) + t
    ensures ks == ls && (forall n | 0 <= n < |ks| :: a.fields[ks[n]] == b.fields[ks[n]]) && s == t
    decreases a, 0, |ks| - i
  {
    hide Canonical, Quote;
    FieldsHead(a, ks, i, s);
    FieldsHead(b, ls, i, t);
    if i < |ks| {
      FieldsAlign(a, b, ks, ls, i, s, t);
      Unambiguous(a.fields[ks[i]], b.fields[ls[i]], FieldsFrom(a, ks, i + 1) + s, FieldsFrom(b, ls, i + 1) + t);
      assert ks[..i + 1] == ks[..i] + [ks[i]];
      assert ls[..i + 1] == ls[..i] + [ls[i]];
      FieldsUnambiguous(a, b, ks, ls, i + 1, s, t);
    } else {
      assert ks == ks[..i] == ls[..i] == ls;
      assert FieldsFrom(a, ks, i) + s == s && FieldsFrom(b, ls, i) + t == t;
    }
  }

  /** Two values share a canonical text exactly when they are equal. */
  lemma Injective(a: Json, b: Json)
    requires WellFormed(a) && WellFormed(b)
    ensures Canonical(a) == Canonical(b) <==> a == b
  {
    if Canonical(a) == Canonical(b) {
      assert Canonical(a) + "" == Canonical(a) && Canonical(b) + "" == Canonical(b);
      Unambiguous(a, b, "", "");
    }
  }

  // -------------------------------------------------------------- grammar

  /** Values, array elements or object members, with commas between them. */
  ghost function Separated(parts: seq<string>): string {
    if parts == [] then ""
    else if |parts| == 1 then parts[0]
    else parts[0] + "," + Separated(parts[1..])
  }

  /** `text` is the characters of `s`, some escaped, and the closing quotation mark. */
  ghost predicate Characters(text: string, s: string)
    decreases |s|
  {
    if s == "" then text == "\""
    else
      && text != "" && text[0] >= ' '
      && ReadChar(text).CharRead? && ReadChar(text).c == s[0] && Characters(ReadChar(text).rest, s[1..])
  }

  ghost predicate StringText(text: string, s: string) {
    text != "" && text[0] == '\"' && Characters(text[1..], s)
  }

  /** `text` is a member of an object: its name, a colon and its value. */
  ghost predicate MemberText(text: string, key: string, value: Json)
    decreases value, 4
  {
    exists name, rest :: text == name + ":" + rest && StringText(name, key) && Denotes(rest, value)
  }

  ghost predicate Denotes(text: string, j: Json)
    decreases j, 3
  {
    match j
    case Null => text == "null"
    case Bool(b) => (b && text == "true") || (!b && text == "false")
    case Num(digits) => text == digits
    case Str(s) => StringText(text, s)
    case Arr(items) =>
      exists parts: seq<string> :: text == "[" + Separated(parts) + "]" && |parts| == |items|
        && forall i | 0 <= i < |items| :: Denotes(parts[i], items[i])
    case Obj(fields) =>
      exists parts: seq<string>, keys: seq<string> ::
        text == "{" + Separated(parts) + "}" && MembersText(parts, keys, j)
  }

  /** Every member of the object once, in the order of their names. */
  ghost predicate MembersText(parts: seq<string>, keys: seq<string>, j: Json)
    requires j.Obj?
    decreases j, 2
  {
    && |parts| == |keys| && Increasing(keys) && (forall k :: k in keys <==> k in j.fields)
    && forall i | 0 <= i < |keys| :: MemberText(parts[i], keys[i], j.fields[keys[i]])
  }

  lemma EscapedIsLegal(c: char)
    ensures EscapeChar(c) != "" && forall i | 0 <= i < |EscapeChar(c)| :: EscapeChar(c)[i] >= ' '
  {
  }

  lemma {:induction false} EscapedReads(s: string)
    ensures Characters(EscapeText(s) + "\"", s)
  {
    hide EscapeChar, ReadChar;
    if s == "" {
      assert EscapeText(s) + "\"" == "\"";
    } else {
      var rest := EscapeText(s[1..]) + "\"";
      assert EscapeText(s) + "\"" == EscapeChar(s[0]) + rest;
      EscapedIsLegal(s[0]);
      ReadsEscaped(s[0], rest);
      EscapedReads(s[1..]);
    }
  }

  lemma QuoteIsString(s: string)
    ensures StringText(Quote(s), s)
  {
    hide EscapeText;
    EscapedReads(s);
    assert Quote(s)[1..] == EscapeText(s) + "\"";
  }

  ghost function ItemTexts(j: Json): (parts: seq<string>)
    requires j.Arr?
    ensures |parts| == |j.items| && forall i | 0 <= i < |parts| :: parts[i] == Canonical(j.items[i])
  {
    seq(|j.items|, i requires 0 <= i < |j.items| => Canonical(j.items[i]))
  }

  lemma {:induction false} ItemsSeparated(j: Json, i: nat)
    requires j.Arr? && i <= |j.items|
    ensures ItemsFrom(j, i) == (if 0 < i < |j.items| then "," else "") + Separated(ItemTexts(j)[i..])
    decreases |j.items| - i
  {
    hide Canonical;
    if i < |j.items| {
      var rest := ItemTexts(j)[i..];
      ItemsSeparated(j, i + 1);
      assert rest[1..] == ItemTexts(j)[i + 1..];
    }
  }

  ghost function MemberOf(j: Json, key: string): string
    requires j.Obj? && key in j.fields
  {
    Quote(key) + ":" + Canonical(j.fields[key])
  }

  ghost function MemberTexts(j: Json, keys: seq<string>): (parts: seq<string>)
    requires j.Obj? && forall k | k in keys :: k in j.fields
    ensures |parts| == |keys| && forall i | 0 <= i < |parts| :: parts[i] == MemberOf(j, keys[i])
  {
    seq(|keys|, i requires 0 <= i < |keys| => MemberOf(j, keys[i]))
  }

  lemma FieldThen(j: Json, keys: seq<string>, i: nat)
    requires j.Obj? && i < |keys| && forall k | k in keys :: k in j.fields
    ensures FieldsFrom(j, keys, i) == (if i > 0 then "," else "") + MemberOf(j, keys[i]) + FieldsFrom(j, keys, i + 1)
  {
    hide Canonical, Quote;
  }

  lemma {:induction false} FieldsSeparated(j: Json, keys: seq<string>, i: nat)
    requires j.Obj? && i <= |keys| && forall k | k in keys :: k in j.fields
    ensures FieldsFrom(j, keys, i) == (if 0 < i < |keys| then "," else "") + Separated(MemberTexts(j, keys)[i..])
    decreases |keys| - i
  {
    hide Canonical, Quote, MemberOf;
    if i < |keys| {
      FieldThen(j, keys, i);
      var rest := MemberTexts(j, keys)[i..];
      FieldsSeparated(j, keys, i + 1);
      assert rest[1..] == MemberTexts(j, keys)[i + 1..];
    }
  }

  lemma MemberDenotes(j: Json, key: string)
    requires j.Obj? && key in j.fields && Denotes(Canonical(j.fields[key]), j.fields[key])
    ensures MemberText(MemberOf(j, key), key, j.fields[key])
  {
    hide Denotes, Canonical, Quote, StringText;
    QuoteIsString(key);
  }

  lemma ArrDenotes(j: Json)
    requires j.Arr? && forall i | 0 <= i < |j.items| :: Denotes(Canonical(j.items[i]), j.items[i])
    ensures Denotes(Canonical(j), j)
  {
    hide ItemsFrom, Separated;
    var parts := ItemTexts(j);
    ItemsSeparated(j, 0);
    assert parts[0..] == parts;
    assert Canonical(j) == "[" + Separated(parts) + "]";
    hide Canonical;
  }

  lemma ObjectSeparated(j: Json)
    requires j.Obj?
    ensures Canonical(j) == "{" + Separated(MemberTexts(j, Sorted(j.fields.Keys))) + "}"
  {
    hide FieldsFrom, Separated, Sorted, MemberTexts;
    var parts := MemberTexts(j, Sorted(j.fields.Keys));
    FieldsSeparated(j, Sorted(j.fields.Keys), 0);
    assert parts[0..] == parts;
  }

  lemma MembersDenote(j: Json, keys: seq<string>)
    requires j.Obj? && Increasing(keys) && forall k :: k in keys <==> k in j.fields
    requires forall k | k in j.fields :: Denotes(Canonical(j.fields[k]), j.fields[k])
    ensures MembersText(MemberTexts(j, keys), keys, j)
  {
    hide MemberText, Denotes, Canonical, MemberOf, Increasing;
    forall i | 0 <= i < |keys|
      ensures MemberText(MemberTexts(j, keys)[i], keys[i], j.fields[keys[i]])
    {
      MemberDenotes(j, keys[i]);
    }
  }

  lemma ObjectDenotes(text: string, j: Json, parts: seq<string>, keys: seq<string>)
    requires j.Obj? && text == "{" + Separated(parts) + "}" && MembersText(parts, keys, j)
    ensures Denotes(text, j)
  {
    hide MembersText, Separated;
  }

  lemma ObjDenotes(j: Json)
    requires j.Obj? && forall k | k in j.fields :: Denotes(Canonical(j.fields[k]), j.fields[k])
    ensures Denotes(Canonical(j), j)
  {
    ObjectSeparated(j);
    hide MembersText, Canonical, Separated, Denotes, Sorted;
    var keys := Sorted(j.fields.Keys);
    MembersDenote(j, keys);
    ObjectDenotes(Canonical(j), j, MemberTexts(j, keys), keys);
  }

  /** The canonical text of a value denotes it. */
  lemma {:induction false} CanonicalDenotes(j: Json)
    ensures Denotes(Canonical(j), j)
    decreases j
  {
    match j
    case Arr(items) =>
      hide Canonical, Denotes;
      forall i | 0 <= i < |items|
        ensures Denotes(Canonical(items[i]), items[i])
      {
        CanonicalDenotes(items[i]);
      }
      ArrDenotes(j);
    case Obj(fields) =>
      hide Canonical, Denotes;
      forall k | k in fields
        ensures Denotes(Canonical(fields[k]), fields[k])
      {
        CanonicalDenotes(fields[k]);
      }
      ObjDenotes(j);
    case Str(s) =>
      hide StringText, Quote;
      QuoteIsString(s);
    case _ =>
  }
}
