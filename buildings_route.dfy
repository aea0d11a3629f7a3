/**
 * The `/api/buildings` route: it checks `bbox`, builds the Overpass query and posts it
 * to three Overpass endpoints in turn until one answers ok.
 */
module BuildingsRoute {
  import opened Wrappers
  import opened Json
  import opened Http

  /** The Overpass endpoints, in the order they are tried. */
  const Endpoints: seq<string> := [
    "https://overpass-api.de/api/interpreter",
    "https://overpass.openstreetmap.ru/api/interpreter",
    "https://overpass.kumi.systems/api/interpreter"
  ]

  /** The Overpass QL text around the two copies of the bbox. */
  const QueryHead: string := "[out:json][timeout:25];(way[\"building\"]("
  const QueryMiddle: string := ");relation[\"building\"]("
  const QueryTail: string := "););out body;>;out skel qt;"

  /** The query for ways and relations tagged `building` within `bbox`. */
  function OverpassQuery(bbox: string): (q: string)
    ensures |q| == |QueryHead| + |QueryMiddle| + |QueryTail| + 2 * |bbox|
    ensures q[..|QueryHead|] == QueryHead
    ensures q[|QueryHead|..|QueryHead| + |bbox|] == bbox
    ensures q[|QueryHead| + |bbox|..|QueryHead| + |bbox| + |QueryMiddle|] == QueryMiddle
    ensures q[|QueryHead| + |bbox| + |QueryMiddle|..|QueryHead| + 2 * |bbox| + |QueryMiddle|] == bbox
    ensures q[|q| - |QueryTail|..] == QueryTail
  {
    QueryHead + bbox + QueryMiddle + bbox + QueryTail
  }

  /** The form-encoded POST `data=<query>` sent to one endpoint. */
  datatype Post = Post(endpoint: string, data: string)

  /**
   * One endpoint's outcome: the fetch throws, or it answers with an ok flag and a body
   * (`None` when `res.json()` throws).
   */
  datatype Attempt = Threw | Answered(ok: bool, body: Option<Json>)

  /**
   * An attempt that ends the loop: an ok answer whose body parsed. A thrown fetch, a
   * non-ok status and a body that fails to parse are all caught and move on.
   */
  predicate Usable(a: Attempt)
    ensures a.Threw? ==> !Usable(a)
    ensures a.Answered? && !a.ok ==> !Usable(a)
    ensures a.Answered? && a.body.None? ==> !Usable(a)
    ensures Usable(a) ==> a.body.Some?
  {
    a.Answered? && a.ok && a.body.Some?
  }

  /** The first usable attempt, if any: every attempt before it was not usable. */
  function FirstUsable(attempts: seq<Attempt>): (r: Option<nat>)
    ensures r.Some? ==> r.value < |attempts| && Usable(attempts[r.value])
    ensures r.Some? ==> forall j :: 0 <= j < r.value ==> !Usable(attempts[j])
    ensures r.None? <==> forall j :: 0 <= j < |attempts| ==> !Usable(attempts[j])
  {
    if attempts == [] then None
    else if Usable(attempts[0]) then Some(0)
    else match FirstUsable(attempts[1..])
      case Some(k) => Some(k + 1)
      case None => None
  }

  /** What each endpoint would answer to the query. */
  function Attempts(query: string, network: Post -> Attempt): (r: seq<Attempt>)
    ensures |r| == |Endpoints|
    ensures forall i :: 0 <= i < |r| ==> r[i] == network(Post(Endpoints[i], query))
  {
    seq(|Endpoints|, i requires 0 <= i < |Endpoints| => network(Post(Endpoints[i], query)))
  }

  /** `!bbox`: the parameter is absent (`null`) or a falsy string, which is the empty one. */
  predicate MissingBox(bbox: Option<string>)
    ensures MissingBox(bbox) <==> bbox.None? || !Truthy(JStr(bbox.value))
  {
    bbox.None? || bbox.value == ""
  }

  /**
   * `GET /api/buildings`: a missing bbox answers 400 and contacts nobody. Otherwise the
   * endpoints are contacted in list order up to and including the first usable one,
   * whose body is answered with status 200; when none is usable all three were tried
   * and the answer is `{elements: []}` with status 200.
   */
  method Get(bbox: Option<string>, network: Post -> Attempt) returns (resp: Response, contacted: seq<string>)
    ensures resp.status == 400 <==> MissingBox(bbox)
    ensures MissingBox(bbox) ==> resp == Response(400, ErrorBody("bbox required")) && contacted == []
    ensures !MissingBox(bbox) ==> resp.status == 200
    ensures !MissingBox(bbox) ==>
      var attempts := Attempts(OverpassQuery(bbox.value), network);
      match FirstUsable(attempts)
      case Some(i) => contacted == Endpoints[..i + 1] && resp.body == attempts[i].body.value
      case None => contacted == Endpoints && resp.body == EmptyElements
    ensures |contacted| <= |Endpoints|
  {
    if bbox.None? || bbox.value == "" {
      return Response(400, ErrorBody("bbox required")), [];
    }
    var query := OverpassQuery(bbox.value);
    ghost var attempts := Attempts(query, network);
    contacted := [];
    for i := 0 to |Endpoints|
      invariant contacted == Endpoints[..i]
      invariant forall j :: 0 <= j < i ==> !Usable(attempts[j])
    {
      var endpoint := Endpoints[i];
      contacted := contacted + [endpoint];
      var res := network(Post(endpoint, query));
      if res.Answered? && res.ok && res.body.Some? {
        assert Usable(attempts[i]);
        FirstUsableIs(attempts, i);
        return JsonResponse(res.body.value), contacted;
      }
    }
    resp := Response(200, EmptyElements);
  }

  /** An index that is usable with nothing usable before it is the first usable one. */
  lemma FirstUsableIs(attempts: seq<Attempt>, i: nat)
    requires i < |attempts| && Usable(attempts[i])
    requires forall j :: 0 <= j < i ==> !Usable(attempts[j])
    ensures FirstUsable(attempts) == Some(i)
  {
  }
}
