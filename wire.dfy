/** The JSON values the converter hands to the document store: Python dicts, lists, strings and booleans. */
module Wire {
  import opened Wrappers

  /** A JSON value. Objects are maps: the order of a dict's keys is not significant on the wire. */
  datatype Json =
    | JNull
    | JBool(b: bool)
    | JStr(s: string)
    | JArr(items: seq<Json>)
    | JObj(fields: map<string, Json>)

  /**
   * Adds field `k` only when its value is present, as `model_dump(exclude_none=True)`
   * does for an optional field.
   */
  function Put(m: map<string, Json>, k: string, v: Option<Json>): map<string, Json> {
    if v.Some? then m[k := v.value] else m
  }

  /** `Put` adds exactly key `k`, with the given value, and leaves the other keys as they were. */
  lemma PutShape(m: map<string, Json>, k: string, v: Option<Json>)
    ensures Put(m, k, v).Keys == if v.Some? then m.Keys + {k} else m.Keys
    ensures v.Some? ==> Put(m, k, v)[k] == v.value
    ensures forall j :: j in m && j != k ==> Put(m, k, v)[j] == m[j]
  {
  }
}
