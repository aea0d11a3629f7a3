/**
 * The `/api/geocode` route: it validates `q`, asks Nominatim with a fixed parameter set
 * and maps the upstream status.
 */
module GeocodeRoute {
  import opened Wrappers
  import opened Json
  import opened Http
  import opened Text

  /** Nominatim's search endpoint. */
  const NominatimSearch: string := "https://nominatim.openstreetmap.org/search"

  /** A query-string parameter, name and value. */
  type Param = (string, string)

  /** The headers sent upstream. */
  const UpstreamHeaders: seq<Param> := [("Accept-Language", "en"), ("User-Agent", "lawn-estimator/1.0")]

  /** How many parameters are called `name`. */
  function Count(ps: seq<Param>, name: string): nat {
    if ps == [] then 0 else (if ps[0].0 == name then 1 else 0) + Count(ps[1..], name)
  }

  /** `searchParams.get(name)`: the value of the first parameter called `name`. */
  function ValueOf(ps: seq<Param>, name: string): (v: Option<string>)
    ensures v.None? <==> Count(ps, name) == 0
  {
    if ps == [] then None else if ps[0].0 == name then Some(ps[0].1) else ValueOf(ps[1..], name)
  }

  /** The parameters not called `name`, in order. */
  function Without(ps: seq<Param>, name: string): (r: seq<Param>)
    ensures Count(r, name) == 0
    ensures Count(ps, name) == 0 ==> r == ps
  {
    if ps == [] then []
    else if ps[0].0 == name then Without(ps[1..], name)
    else [ps[0]] + Without(ps[1..], name)
  }

  /**
   * `searchParams.set(name, value)`: the first parameter called `name` takes the new
   * value and any others called `name` go; without one, the pair is appended. Either
   * way exactly one parameter is called `name`, it has `value`, and every other
   * parameter is kept in its order.
   */
  function SetParam(ps: seq<Param>, name: string, value: string): (r: seq<Param>)
    ensures Count(r, name) == 1
    ensures ValueOf(r, name) == Some(value)
    ensures Without(r, name) == Without(ps, name)
    ensures Count(ps, name) == 0 ==> r == ps + [(name, value)]
  {
    if ps == [] then [(name, value)]
    else if ps[0].0 == name then [(name, value)] + Without(ps[1..], name)
    else [ps[0]] + SetParam(ps[1..], name, value)
  }

  /** The request sent to Nominatim. */
  datatype Upstream = Upstream(url: string, params: seq<Param>, headers: seq<Param>)

  /** What the upstream fetch gives: it throws, or answers with an ok flag and a body (`None` when it does not parse). */
  datatype UpstreamReply = UpstreamThrew | UpstreamAnswered(ok: bool, body: Option<Json>)

  /** How the handler ends: it responds, or an exception escapes it. */
  datatype Outcome = Responded(response: Response) | Crashed

  /** The validation step: 400 for a missing `q` or one that trims to fewer than three code units. */
  function Refusal(q: Option<string>): (r: Option<Response>)
    ensures r.Some? <==> q.None? || QueryTooShort(q.value)
    ensures r.Some? ==> r.value.status == 400 && r.value.body == ErrorBody("query required")
  {
    if q.None? || q.value == "" || Utf16Length(Trim(q.value)) < 3 then
      Some(Response(400, ErrorBody("query required")))
    else None
  }

  /** Every address the page sends passes the route's own check. */
  lemma PageQueriesAccepted(address: string)
    requires !QueryTooShort(address)
    ensures Refusal(Some(address)).None?
  {
  }

  /** A name that no parameter has yet counts zero times. */
  lemma {:induction false} CountAbsent(ps: seq<Param>, name: string)
    requires forall p :: p in ps ==> p.0 != name
    ensures Count(ps, name) == 0
  {
    if ps != [] {
      assert forall p :: p in ps[1..] ==> p in ps;
      CountAbsent(ps[1..], name);
    }
  }

  /** The upstream parameters, in the order the five `set` calls leave them. */
  function NominatimParams(q: string): (ps: seq<Param>)
    ensures ValueOf(ps, "format") == Some("json") && ValueOf(ps, "q") == Some(q)
    ensures ValueOf(ps, "limit") == Some("1") && ValueOf(ps, "countrycodes") == Some("us")
    ensures ValueOf(ps, "addressdetails") == Some("0")
  {
    var p4: seq<Param> := [("addressdetails", "0")];
    var p3 := [("countrycodes", "us")] + p4;
    var p2 := [("limit", "1")] + p3;
    var p1 := [("q", q)] + p2;
    var ps := [("format", "json")] + p1;
    assert ps[1..] == p1 && p1[1..] == p2 && p2[1..] == p3 && p3[1..] == p4;
    assert ValueOf(p3, "addressdetails") == Some("0");
    assert ValueOf(p2, "addressdetails") == Some("0") && ValueOf(p2, "countrycodes") == Some("us");
    assert ValueOf(p1, "addressdetails") == Some("0") && ValueOf(p1, "countrycodes") == Some("us");
    assert ValueOf(p1, "limit") == Some("1");
    ps
  }

  /**
   * `GET /api/geocode`: a refused query answers 400 with no upstream call. Otherwise
   * Nominatim is asked with the untrimmed `q` and the fixed parameters; a non-ok answer
   * maps to 502 and an ok one is passed through with status 200.
   */
  method Get(q: Option<string>, fetch: Upstream -> UpstreamReply) returns (outcome: Outcome, call: Option<Upstream>)
    ensures Refusal(q).Some? ==> outcome == Responded(Refusal(q).value) && call == None
    ensures Refusal(q).None? ==>
      call == Some(Upstream(NominatimSearch, NominatimParams(q.value), UpstreamHeaders))
    ensures Refusal(q).None? ==>
      match fetch(call.value)
      case UpstreamThrew => outcome == Crashed
      case UpstreamAnswered(ok, body) =>
        (!ok ==> outcome == Responded(Response(502, ErrorBody("geocode failed"))))
        && (ok && body.None? ==> outcome == Crashed)
        && (ok && body.Some? ==> outcome == Responded(Response(200, body.value)))
  {
    if q.None? || q.value == "" || Utf16Length(Trim(q.value)) < 3 {
      return Responded(Response(400, ErrorBody("query required"))), None;
    }
    var params: seq<Param> := [];
    params := SetParam(params, "format", "json");
    assert params == [("format", "json")];
    CountAbsent(params, "q");
    params := SetParam(params, "q", q.value);
    assert params == [("format", "json"), ("q", q.value)];
    CountAbsent(params, "limit");
    params := SetParam(params, "limit", "1");
    assert params == [("format", "json"), ("q", q.value), ("limit", "1")];
    CountAbsent(params, "countrycodes");
    params := SetParam(params, "countrycodes", "us");
    assert params == [("format", "json"), ("q", q.value), ("limit", "1"), ("countrycodes", "us")];
    CountAbsent(params, "addressdetails");
    params := SetParam(params, "addressdetails", "0");
    assert params == NominatimParams(q.value);
    var request := Upstream(NominatimSearch, params, UpstreamHeaders);
    call := Some(request);
    var res := fetch(request);
    if res.UpstreamThrew? {
      return Crashed, call;
    }
    if !res.ok {
      return Responded(Response(502, ErrorBody("geocode failed"))), call;
    }
    if res.body.None? {
      return Crashed, call;
    }
    outcome := Responded(JsonResponse(res.body.value));
  }
}
