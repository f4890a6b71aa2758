/** JSON documents as the backend builds, reads and writes them.  Serialising
    (`json.dumps`) and parsing (`json.loads`) are not modelled: where the source
    parses text, the model takes the decoder as a parameter. */
module JsonValue {
  import opened Wrappers

  /** A decoded JSON value; `JNull` is also Python's `None`.  Numbers are integers. */
  datatype Json =
    | JNull
    | JBool(b: bool)
    | JInt(i: int)
    | JStr(s: string)
    | JArr(items: seq<Json>)
    | JObj(fields: map<string, Json>)

  /** `doc[key]` on a value that may be missing: None where Python would raise. */
  function At(doc: Option<Json>, key: string): (r: Option<Json>)
    ensures r.Some? <==> doc.Some? && doc.value.JObj? && key in doc.value.fields
    ensures r.Some? ==> r.value == doc.value.fields[key]
  {
    if doc.Some? && doc.value.JObj? && key in doc.value.fields then Some(doc.value.fields[key]) else None
  }

  /** `doc[i]` on a value that may be missing: None where Python would raise. */
  function AtIndex(doc: Option<Json>, i: nat): (r: Option<Json>)
    ensures r.Some? <==> doc.Some? && doc.value.JArr? && i < |doc.value.items|
    ensures r.Some? ==> r.value == doc.value.items[i]
  {
    if doc.Some? && doc.value.JArr? && i < |doc.value.items| then Some(doc.value.items[i]) else None
  }
}
