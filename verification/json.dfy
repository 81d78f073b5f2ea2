/** Decoded JSON values as Go's `encoding/json` hands them to the client (`any`). */
module JsonValue {

  /** A JSON number is kept as the bit pattern of the float64 Go decodes it to;
      the client never does arithmetic on it. */
  datatype Json =
    | Null
    | Bool(b: bool)
    | Num(bits: bv64)
    | Str(s: string)
    | Arr(items: seq<Json>)
    | Obj(fields: map<string, Json>)

  /** Go's `m[k]` on a decoded `map[string]any`: an absent key and a JSON null both read as nil. */
  function Field(m: map<string, Json>, k: string): Json
  {
    if k in m then m[k] else Null
  }

  predicate HasStr(m: map<string, Json>, k: string)
  {
    Field(m, k).Str?
  }

  predicate HasBool(m: map<string, Json>, k: string)
  {
    Field(m, k).Bool?
  }

  predicate HasNum(m: map<string, Json>, k: string)
  {
    Field(m, k).Num?
  }

  predicate HasObj(m: map<string, Json>, k: string)
  {
    Field(m, k).Obj?
  }

  /** The word Go's decoder uses for a value's kind in an UnmarshalTypeError. */
  function KindName(j: Json): string
  {
    match j
    case Null => "null"
    case Bool(_) => "bool"
    case Num(_) => "number"
    case Str(_) => "string"
    case Arr(_) => "array"
    case Obj(_) => "object"
  }
}
