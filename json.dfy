/** Parsed JSON values as the route and the history page see them, with
    JavaScript's truthiness and property access. */
module Json {
  import opened Seqs
  import Records

  /** A value produced by `JSON.parse`. Numbers are integers here; an object's
      entries are in source order with distinct keys. */
  datatype Json =
    | JNull
    | JBool(b: bool)
    | JNum(n: int)
    | JStr(s: string)
    | JArr(items: seq<Json>)
    | JObj(fields: Records.Record<Json>)

  /** The value in an `if (...)` or `&&`: `null`, `false`, `0` and `""` are falsy;
      arrays and objects, even empty ones, are truthy. */
  predicate Truthy(j: Json)
  {
    match j
    case JNull => false
    case JBool(b) => b
    case JNum(n) => n != 0
    case JStr(s) => s != ""
    case JArr(_) => true
    case JObj(_) => true
  }

  /** `j.key` on a non-null value: an object's own entry, and `undefined`
      (`None`) for every other kind of value. */
  function Member(j: Json, key: string): (v: Option<Json>)
    requires !j.JNull?
    ensures v.Some? ==> j.JObj? && (key, v.value) in j.fields
    ensures j.JObj? && key in Records.Keys(j.fields) ==> v.Some?
  {
    if j.JObj? then Records.Get(j.fields, key) else None
  }

  /** Truthiness of `j.key`, where an absent member is `undefined` (falsy). */
  predicate MemberTruthy(j: Json, key: string)
    requires !j.JNull?
  {
    var v := Member(j, key);
    v.Some? && Truthy(v.value)
  }
}
