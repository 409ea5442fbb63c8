/** JSON values: what tool inputs and outputs are made of. */
module Json {

  /** A number is its rendering: an opaque token without JSON punctuation. */
  datatype Json =
    | Null
    | Bool(b: bool)
    | Num(text: string)
    | Str(s: string)
    | Arr(items: seq<Json>)
    | Obj(fields: map<string, Json>)

  predicate IsNumberChar(c: char) {
    '0' <= c <= '9' || c in "+-.eE"
  }

  /** The token starts as a number does, so it is not mistaken for another leaf. */
  predicate IsNumber(text: string) {
    |text| > 0 && (text[0] == '-' || '0' <= text[0] <= '9') && forall c | c in text :: IsNumberChar(c)
  }

  /** Every number in the value is a number token. */
  predicate WellFormed(j: Json)
    decreases j
  {
    match j
    case Num(text) => IsNumber(text)
    case Arr(items) => forall i | 0 <= i < |items| :: WellFormed(items[i])
    case Obj(fields) => forall k | k in fields :: WellFormed(fields[k])
    case _ => true
  }
}
