/** Values shared by the admin REST controllers: optional values, the
    outcome of a request, and the JSON/YAML documents the controllers read
    and write. */
module Values {

  datatype Option<+T> = None | Some(value: T)

  /** HTTP errors the controllers raise instead of answering with a body. */
  datatype HttpError =
    | LengthRequired   // status 411: missing or unparsable request body
    | NotFound         // cherrypy.NotFound
    | ServerError      // an uncaught Python exception (status 500)

  datatype Result<+T> = Ok(value: T) | Err(error: HttpError)

  /** A parsed JSON or YAML document. `JNull` is Python's `None`. */
  datatype Json =
    | JNull
    | JBool(b: bool)
    | JNum(n: int)
    | JStr(s: string)
    | JList(items: seq<Json>)
    | JObject(fields: map<string, Json>)

  /** The empty mapping `{}`. */
  const EmptyObject: Json := JObject(map[])

  /** `d.get(key, default)` on a value that is a dict: the stored value, or
      `default` when the key is absent. */
  function GetOr(fields: map<string, Json>, key: string, default: Json): (r: Json)
    ensures key in fields ==> r == fields[key]
    ensures key !in fields ==> r == default
  {
    if key in fields then fields[key] else default
  }

  /** `d[key]` on an arbitrary value: defined only when the value is a dict
      holding the key; every other case raises in Python. */
  function Subscript(j: Json, key: string): (r: Option<Json>)
    ensures r.Some? <==> j.JObject? && key in j.fields
    ensures r.Some? ==> r.value == j.fields[key]
  {
    if j.JObject? && key in j.fields then Some(j.fields[key]) else None
  }

  /** `d[k1][k2]`, raising (None) as soon as one step fails. */
  function Subscript2(j: Json, k1: string, k2: string): (r: Option<Json>)
    ensures r.Some? <==> Subscript(j, k1).Some? && Subscript(j, k1).value.JObject?
                         && k2 in Subscript(j, k1).value.fields
    ensures r.Some? ==> r.value == j.fields[k1].fields[k2]
  {
    match Subscript(j, k1)
    case None => None
    case Some(inner) => Subscript(inner, k2)
  }

  /** `{'de': '', 'en': ''}`, the description used when none can be found. */
  const EmptyDescription: Json := JObject(map["de" := JStr(""), "en" := JStr("")])
}
