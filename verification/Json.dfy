/** Decoded JSON. Objects are maps: the stored column (jsonb) keeps no key order. */
module Json {
  import opened Wrappers

  datatype Json =
    | Null
    | Bool(b: bool)
    | Number(n: real)
    | Str(s: string)
    | Array(items: seq<Json>)
    | Object(fields: map<string, Json>)

  /** Reading a field: an absent field is JavaScript's `undefined`. */
  function Field(fields: map<string, Json>, key: string): Option<Json> {
    if key in fields then Some(fields[key]) else None
  }

  /** JavaScript's `typeof v === "object" && v !== null`, which arrays meet too. */
  predicate IsObjectLike(v: Json) {
    v.Array? || v.Object?
  }
}
