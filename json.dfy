/**
 * Parsed JSON values as the JavaScript code sees them, with the two pieces of
 * JavaScript semantics the source relies on: truthiness (`if (!osm)`,
 * `f.properties && f.properties.building`) and property access (`osm.elements`).
 */
module Json {
  import opened Wrappers

  /** A value produced by `JSON.parse`. JSON text has no NaN or infinities, so numbers are reals. */
  datatype Json =
    | JNull
    | JBool(b: bool)
    | JNum(n: real)
    | JStr(s: string)
    | JArr(items: seq<Json>)
    | JObj(fields: map<string, Json>)

  /**
   * JavaScript truthiness: `null`, `false`, `0` and `""` are falsy, everything else is
   * truthy; in particular every array and every object is, even an empty one.
   */
  predicate Truthy(j: Json)
    ensures (j.JArr? || j.JObj?) ==> Truthy(j)
    ensures j.JNull? || j == JBool(false) || j == JNum(0.0) || j == JStr("") ==> !Truthy(j)
  {
    match j
    case JNull => false
    case JBool(b) => b
    case JNum(n) => n != 0.0
    case JStr(s) => s != ""
    case JArr(_) => true
    case JObj(_) => true
  }

  /**
   * `j.key` on a value that is not `null`: only an object can hold the keys the
   * source reads ("elements", "building"); `None` stands for `undefined`.
   */
  function Member(j: Json, key: string): (r: Option<Json>)
    ensures r.Some? <==> j.JObj? && key in j.fields
    ensures r.Some? ==> r.value == j.fields[key]
  {
    if j.JObj? && key in j.fields then Some(j.fields[key]) else None
  }

  /** `j.key` is truthy (`undefined` is falsy): only an object holding a truthy field passes. */
  predicate TruthyMember(j: Json, key: string)
    ensures TruthyMember(j, key) <==> j.JObj? && key in j.fields && Truthy(j.fields[key])
  {
    match Member(j, key)
    case None => false
    case Some(v) => Truthy(v)
  }

  /** The Overpass-shaped empty document `{elements: []}`. */
  const EmptyElements: Json := JObj(map["elements" := JArr([])])

  /** The `{error: msg}` body of an error response. */
  function ErrorBody(msg: string): Json {
    JObj(map["error" := JStr(msg)])
  }

  lemma {:induction false} EmptyElementsTruthy()
    ensures Truthy(EmptyElements) && TruthyMember(EmptyElements, "elements")
    ensures Member(EmptyElements, "elements") == Some(JArr([]))
  {
    assert "elements" in EmptyElements.fields;
  }
}

/** The parts of a route handler's answer that the model keeps. */
module Http {
  import opened Json

  /** A response: its HTTP status and its JSON body. */
  datatype Response = Response(status: int, body: Json)

  /** `NextResponse.json(body)` without an explicit status answers 200. */
  function JsonResponse(body: Json): (r: Response)
    ensures r.status == 200 && r.body == body
  {
    Response(200, body)
  }
}
