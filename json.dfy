/**
 * The JSON values the client builds and reads (nlohmann::json in the source),
 * reduced to what the protocol core looks at.
 */
module Json {

  /**
   * A C++ `double`, kept as its IEEE-754 bit pattern. Prices and amounts are
   * only ever copied into request envelopes, never computed with.
   */
  datatype Double = Double(bits: bv64)

  datatype Json =
    | Null
    | Bool(b: bool)
    | Int(i: int)
    | Num(d: Double)
    | Str(s: string)
    | Arr(items: seq<Json>)
    | Obj(fields: map<string, Json>)

  /** `j.contains(key)`: holds only for an object that has that key. */
  predicate Contains(j: Json, key: string) {
    j.Obj? && key in j.fields
  }

  /** `j[key]` on an object known to hold the key. */
  function Member(j: Json, key: string): Json
    requires Contains(j, key)
  {
    j.fields[key]
  }
}
