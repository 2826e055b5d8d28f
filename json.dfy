/** The JSON text that crosses the socket, seen as the object it encodes. Both
    ends write and read flat objects whose fields are strings, numbers or
    null; an absent key is how JavaScript's `JSON.stringify` drops an
    `undefined` field. */
module Json {
  import opened Wrappers

  datatype Json = JString(s: string) | JNumber(n: real) | JBool(b: bool) | JNull

  type JsonObject = map<string, Json>

  /** A string field: present and a JSON string. */
  function GetString(o: JsonObject, key: string): (r: Option<string>)
    ensures r.Some? <==> key in o && o[key].JString?
    ensures r.Some? ==> o[key] == JString(r.value)
  {
    if key in o && o[key].JString? then Some(o[key].s) else None
  }

  /** A number field: present and a JSON number. */
  function GetNumber(o: JsonObject, key: string): (r: Option<real>)
    ensures r.Some? <==> key in o && o[key].JNumber?
    ensures r.Some? ==> o[key] == JNumber(r.value)
  {
    if key in o && o[key].JNumber? then Some(o[key].n) else None
  }

  /** `undefined` fields are left out of the object. */
  function PutString(o: JsonObject, key: string, v: Option<string>): (r: JsonObject)
    ensures v.Some? ==> r == o[key := JString(v.value)]
    ensures v.None? ==> r == o
  {
    if v.Some? then o[key := JString(v.value)] else o
  }
}
