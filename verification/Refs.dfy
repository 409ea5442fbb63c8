/** References to node outputs: printing, parsing, and collecting them from an
    input value. */
module Refs {
  import opened Wrappers
  import opened Json
  import opened Strings

  const REF_KEY := "$ref"
  const LITERAL_KEY := "$literal"

  datatype ValueRef = ValueRef(node: string, path: seq<string>)

  datatype RefError =
    | Invalid
    | EmptySegment
    | NonStringRef
    | RefWithExtraKeys

  predicate ValidNodeId(id: string) {
    id != "" && '.' !in id
  }

  predicate ValidRef(r: ValueRef) {
    ValidNodeId(r.node) && "" !in r.path
  }

  // ------------------------------------------------------------ escaping

  /** `str::replace` of one character by two. */
  function ReplaceChar(s: string, c: char, with: string): string {
    if s == "" then "" else (if s[0] == c then with else [s[0]]) + ReplaceChar(s[1..], c, with)
  }

  /** `str::replace` of a two-character pattern by one character, scanning left to right. */
  function ReplacePair(s: string, a: char, b: char, with: char): string {
    if |s| >= 2 && s[0] == a && s[1] == b then [with] + ReplacePair(s[2..], a, b, with)
    else if s == "" then ""
    else [s[0]] + ReplacePair(s[1..], a, b, with)
  }

  function EscapeSegment(s: string): string {
    ReplaceChar(ReplaceChar(s, '~', "~0"), '.', "~1")
  }

  function UnescapeSegment(s: string): string {
    ReplacePair(ReplacePair(s, '~', '1', '.'), '~', '0', '~')
  }

  lemma {:induction false} ReplaceCharConcat(s: string, t: string, c: char, with: string)
    ensures ReplaceChar(s + t, c, with) == ReplaceChar(s, c, with) + ReplaceChar(t, c, with)
  {
    if s == "" {
      assert s + t == t;
    } else {
      ReplaceCharConcat(s[1..], t, c, with);
      assert (s + t)[1..] == s[1..] + t && (s + t)[0] == s[0];
      var head, middle, tail := if s[0] == c then with else [s[0]], ReplaceChar(s[1..], c, with),
        ReplaceChar(t, c, with);
      assert head + (middle + tail) == (head + middle) + tail;
    }
  }

  /** Both escaping passes at once. */
  function EscapeOne(c: char): string {
    if c == '~' then "~0" else if c == '.' then "~1" else [c]
  }

  lemma EscapeStep(s: string)
    requires s != ""
    ensures EscapeSegment(s) == EscapeOne(s[0]) + EscapeSegment(s[1..])
  {
    var head := if s[0] == '~' then "~0" else [s[0]];
    assert ReplaceChar(s, '~', "~0") == head + ReplaceChar(s[1..], '~', "~0");
    ReplaceCharConcat(head, ReplaceChar(s[1..], '~', "~0"), '.', "~1");
    assert ReplaceChar(head, '.', "~1") == EscapeOne(s[0]) by {
      if |head| == 2 {
        assert head[1..] == "0";
      }
    }
  }

  /** The first unescaping pass undoes the second escaping pass. */
  lemma {:induction false} UndoDots(s: string)
    ensures ReplacePair(EscapeSegment(s), '~', '1', '.') == ReplaceChar(s, '~', "~0")
  {
    if s != "" {
      EscapeStep(s);
      UndoDots(s[1..]);
      var rest := EscapeSegment(s[1..]);
      if s[0] == '~' {
        assert EscapeSegment(s)[1..] == "0" + rest;
        assert ("0" + rest)[1..] == rest;
      } else if s[0] == '.' {
        assert EscapeSegment(s)[2..] == rest;
      } else {
        assert EscapeSegment(s)[1..] == rest;
      }
    }
  }

  lemma {:induction false} UndoTildes(s: string)
    ensures ReplacePair(ReplaceChar(s, '~', "~0"), '~', '0', '~') == s
  {
    if s != "" {
      UndoTildes(s[1..]);
      var rest := ReplaceChar(s[1..], '~', "~0");
      if s[0] == '~' {
        assert ReplaceChar(s, '~', "~0")[2..] == rest;
      } else {
        assert ReplaceChar(s, '~', "~0")[1..] == rest;
      }
    }
  }

  /** Two-pass unescaping inverts escaping, for every segment. */
  lemma UnescapeEscape(s: string)
    ensures UnescapeSegment(EscapeSegment(s)) == s
  {
    UndoDots(s);
    UndoTildes(s);
  }

  lemma {:induction false} EscapedHasNoDot(s: string)
    ensures '.' !in EscapeSegment(s)
    ensures s != "" ==> EscapeSegment(s) != ""
  {
    if s != "" {
      EscapeStep(s);
      EscapedHasNoDot(s[1..]);
    }
  }

  // ---------------------------------------------------- printing, parsing

  function PrintPath(path: seq<string>): string {
    if path == [] then "" else "." + EscapeSegment(path[0]) + PrintPath(path[1..])
  }

  function Print(r: ValueRef): string {
    r.node + ".output" + PrintPath(r.path)
  }

  /** `str::split('.')`: never empty. */
  function Split(s: string): (parts: seq<string>)
    ensures |parts| > 0
    ensures forall p | p in parts :: '.' !in p
  {
    if s == "" then [""]
    else
      var parts := Split(s[1..]);
      if s[0] == '.' then [""] + parts else [[s[0]] + parts[0]] + parts[1..]
  }

  function UnescapeAll(parts: seq<string>): (path: seq<string>)
    ensures |path| == |parts|
  {
    if parts == [] then [] else [UnescapeSegment(parts[0])] + UnescapeAll(parts[1..])
  }

  function Parse(s: string): Result<ValueRef, RefError> {
    var parts := Split(s);
    if parts[0] == "" || |parts| < 2 || parts[1] != "output" then Err(Invalid)
    else if "" in parts[2..] then Err(EmptySegment)
    else Ok(ValueRef(parts[0], UnescapeAll(parts[2..])))
  }

  /** `from_str`: pushes one unescaped segment at a time. */
  method FromStr(value: string) returns (r: Result<ValueRef, RefError>)
    ensures r == Parse(value)
  {
    var parts := Split(value);
    if parts[0] == "" || |parts| < 2 || parts[1] != "output" {
      return Err(Invalid);
    }
    var path := [];
    for i := 2 to |parts|
      invariant path + UnescapeAll(parts[i..]) == UnescapeAll(parts[2..])
      invariant "" !in parts[2..i]
    {
      if parts[i] == "" {
        assert parts[2..][i - 2] == "";
        return Err(EmptySegment);
      }
      path := path + [UnescapeSegment(parts[i])];
      assert parts[i..][1..] == parts[i + 1..];
      assert parts[2..i + 1] == parts[2..i] + [parts[i]];
    }
    assert parts[2..|parts|] == parts[2..];
    assert path + UnescapeAll(parts[|parts|..]) == path;
    r := Ok(ValueRef(parts[0], path));
  }

  lemma {:induction false} SplitAtDot(a: string, b: string)
    requires '.' !in a
    ensures Split(a) == [a]
    ensures Split(a + "." + b) == [a] + Split(b)
  {
    if a == "" {
      assert (a + "." + b)[1..] == b;
    } else {
      SplitAtDot(a[1..], b);
      assert (a + "." + b)[1..] == a[1..] + "." + b;
      assert a == [a[0]] + a[1..];
    }
  }

  function EscapeAll(path: seq<string>): (parts: seq<string>)
    ensures |parts| == |path|
  {
    if path == [] then [] else [EscapeSegment(path[0])] + EscapeAll(path[1..])
  }

  lemma {:induction false} SplitPath(a: string, path: seq<string>)
    requires '.' !in a
    ensures Split(a + PrintPath(path)) == [a] + EscapeAll(path)
    decreases |path|
  {
    if path == [] {
      SplitAtDot(a, "");
      assert a + PrintPath(path) == a;
    } else {
      EscapedHasNoDot(path[0]);
      SplitPath(EscapeSegment(path[0]), path[1..]);
      SplitAtDot(a, EscapeSegment(path[0]) + PrintPath(path[1..]));
      assert a + PrintPath(path) == a + "." + (EscapeSegment(path[0]) + PrintPath(path[1..]));
    }
  }

  lemma {:induction false} UnescapeEscapeAll(path: seq<string>)
    ensures UnescapeAll(EscapeAll(path)) == path
    ensures "" in EscapeAll(path) ==> "" in path
  {
    if path != [] {
      UnescapeEscape(path[0]);
      EscapedHasNoDot(path[0]);
      UnescapeEscapeAll(path[1..]);
      assert EscapeAll(path)[1..] == EscapeAll(path[1..]);
      assert path == [path[0]] + path[1..];
    }
  }

  lemma PrintThenParse(r: ValueRef)
    requires ValidRef(r)
    ensures Parse(Print(r)) == Ok(r)
  {
    hide EscapeSegment, UnescapeSegment, Split, EscapeAll, UnescapeAll, PrintPath;
    SplitPath("output", r.path);
    SplitAtDot(r.node, "output" + PrintPath(r.path));
    assert Print(r) == r.node + "." + ("output" + PrintPath(r.path));
    var parts := Split(Print(r));
    assert parts == [r.node] + (["output"] + EscapeAll(r.path));
    assert parts[2..] == EscapeAll(r.path);
    UnescapeEscapeAll(r.path);
  }

  lemma {:induction false} UnescapedNotEmpty(s: string)
    ensures s != "" ==> UnescapeSegment(s) != ""
  {
  }

  lemma {:induction false} UnescapeAllNotEmpty(parts: seq<string>)
    requires "" !in parts
    ensures "" !in UnescapeAll(parts)
  {
    if parts != [] {
      UnescapedNotEmpty(parts[0]);
      UnescapeAllNotEmpty(parts[1..]);
    }
  }

  lemma ParsedIsValid(s: string)
    ensures Parse(s).Ok? ==> ValidRef(Parse(s).value)
  {
    if Parse(s).Ok? {
      UnescapeAllNotEmpty(Split(s)[2..]);
    }
  }

  /** A reference survives printing and parsing exactly when its node id and
      segments are ones the parser could have produced. */
  lemma RoundTrip(r: ValueRef)
    ensures Parse(Print(r)) == Ok(r) <==> ValidRef(r)
  {
    ParsedIsValid(Print(r));
    if ValidRef(r) {
      PrintThenParse(r);
    }
  }

  // ----------------------------------------------------------- collecting

  predicate IsLiteral(j: Json) {
    j.Obj? && |j.fields| == 1 && LITERAL_KEY in j.fields
  }

  /** Every reference inside a value, in visiting order; malformed ones are errors. */
  function CollectRefs(j: Json): Result<seq<ValueRef>, RefError>
    decreases j, 1, 0
  {
    match j
    case Obj(fields) =>
      if IsLiteral(j) then Ok([])
      else if REF_KEY in fields then
        if |fields| > 1 then Err(RefWithExtraKeys)
        else if !fields[REF_KEY].Str? then Err(NonStringRef)
        else
          var r :- Parse(fields[REF_KEY].s);
          Ok([r])
      else CollectFields(j, Sorted(fields.Keys))
    case Arr(items) => CollectItems(j, 0)
    case _ => Ok([])
  }

  function CollectFields(j: Json, keys: seq<string>): Result<seq<ValueRef>, RefError>
    requires j.Obj? && forall k | k in keys :: k in j.fields
    decreases j, 0, |keys|
  {
    if keys == [] then Ok([])
    else
      var first :- CollectRefs(j.fields[keys[0]]);
      var rest :- CollectFields(j, keys[1..]);
      Ok(first + rest)
  }

  function CollectItems(j: Json, i: nat): Result<seq<ValueRef>, RefError>
    requires j.Arr? && i <= |j.items|
    decreases j, 0, |j.items| - i
  {
    if i == |j.items| then Ok([])
    else
      var first :- CollectRefs(j.items[i]);
      var rest :- CollectItems(j, i + 1);
      Ok(first + rest)
  }

  /** The nodes a value refers to. */
  function RefNodes(refs: seq<ValueRef>): set<string> {
    set r | r in refs :: r.node
  }
}
