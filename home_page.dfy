/**
 * The home page's state and its two handlers, `geocode` and `estimate`. Network replies
 * are inputs; each handler runs to completion on the reply it is given.
 */
module HomePageModel {
  import opened Wrappers
  import opened Json
  import opened Text
  import opened Geometry
  import opened Estimate
  import LawnMapModel

  /** The two `alert` messages: address not found, and lookup unavailable. */
  datatype Alert = AddressNotFound | LookupUnavailable

  /** A request the page sends to its own API routes. */
  datatype Request =
    | GeocodeRequest(address: string)
    | BuildingsRequest(south: real, west: real, north: real, east: real)

  /** One geocoding candidate, its `lat` and `lon` as `parseFloat` reads them. */
  datatype Candidate = Candidate(lat: real, lon: real)

  /** The parsed geocode body: an array of candidates, or anything else. */
  datatype GeocodeBody = NotAnArray | Candidates(items: seq<Candidate>)

  /**
   * What the geocode `fetch` gives: it throws, answers non-ok, or answers ok with a body
   * that parsed (`None` when `res.json()` threw).
   */
  datatype GeocodeReply = GeocodeFetchThrew | GeocodeNotOk | GeocodeOk(body: Option<GeocodeBody>)

  /** What the buildings `fetch` gives: it throws, or answers with a body that parsed (`None` when it did not). */
  datatype BuildingsReply = BuildingsFetchThrew | BuildingsResponse(body: Option<Json>)

  /**
   * The buildings route's total-failure answer `{elements: []}` is a usable document,
   * so the page's own fallback passes it on unchanged.
   */
  lemma RouteFallbackUsedAsIs()
    ensures UsableDocument(Some(EmptyElements))
    ensures UsableOsm(Some(EmptyElements)) == EmptyElements
  {
    EmptyElementsTruthy();
  }

  /** How `geocode` reads a reply. */
  datatype Lookup = Located(lat: real, lon: real) | NotFound | Failed

  /**
   * The geocode decision: located at the first candidate exactly when an ok reply holds a
   * non-empty array; not found when an ok reply holds an empty array or a non-array;
   * failed on a thrown fetch, a non-ok status or an unparseable body.
   */
  function Interpret(reply: GeocodeReply): (r: Lookup)
    ensures r.Located? <==>
      (reply.GeocodeOk? && reply.body.Some? && reply.body.value.Candidates? && |reply.body.value.items| > 0)
    ensures r.Located? ==> r == Located(reply.body.value.items[0].lat, reply.body.value.items[0].lon)
    ensures r.NotFound? <==>
      (reply.GeocodeOk? && reply.body.Some? && (reply.body.value.NotAnArray? || reply.body.value.items == []))
    ensures r.Failed? <==> reply.GeocodeFetchThrew? || reply.GeocodeNotOk? || (reply.GeocodeOk? && reply.body.None?)
  {
    match reply
    case GeocodeFetchThrew => Failed
    case GeocodeNotOk => Failed
    case GeocodeOk(body) =>
      if body.None? then Failed
      else if body.value.Candidates? && |body.value.items| > 0 then
        Located(body.value.items[0].lat, body.value.items[0].lon)
      else NotFound
  }

  /** Only the first candidate counts: whatever follows it, the page goes to it. */
  lemma FirstCandidateOnly(c: Candidate, rest: seq<Candidate>)
    ensures Interpret(GeocodeOk(Some(Candidates([c] + rest)))) == Located(c.lat, c.lon)
  {
  }

  /** The alert raised for a lookup: none when located. */
  function AlertFor(r: Lookup): (a: Option<Alert>)
    ensures a.None? <==> r.Located?
    ensures a == Some(AddressNotFound) <==> r.NotFound?
  {
    match r
    case Located(_, _) => None
    case NotFound => Some(AddressNotFound)
    case Failed => Some(LookupUnavailable)
  }

  /** What the page shows for the estimate: square feet and minutes. */
  datatype Readout = Readout(squareFeet: int, minutes: int)

  /**
   * `squareFeet ? … : ''`: nothing for a missing or zero estimate; otherwise the square
   * feet and the least number of minutes at 250 square feet a minute that covers them.
   */
  function Display(squareFeet: Option<int>): (r: Option<Readout>)
    ensures r.Some? <==> squareFeet.Some? && squareFeet.value != 0
    ensures r.Some? ==> r.value.squareFeet == squareFeet.value
    ensures r.Some? ==> r.value.minutes * 250 >= r.value.squareFeet > (r.value.minutes - 1) * 250
  {
    match squareFeet
    case Some(sqft) => if sqft != 0 then Some(Readout(sqft, Minutes(sqft))) else None
    case None => None
  }

  /** The page's React state, with the requests it sent and the alerts it raised. */
  class HomePage {
    var center: (real, real)
    var polygon: Option<Feature>
    var exclusion: Option<Feature>
    var squareFeet: Option<int>
    var loading: bool
    var locating: bool
    var address: string
    var alerts: seq<Alert>
    var requests: seq<Request>

    constructor ()
      ensures center == (40.0, -89.0) && polygon == None && exclusion == None && squareFeet == None
      ensures !loading && !locating && address == "" && alerts == [] && requests == []
    {
      center := (40.0, -89.0);
      polygon := None;
      exclusion := None;
      squareFeet := None;
      loading := false;
      locating := false;
      address := "";
      alerts := [];
      requests := [];
    }

    /** The map's effects pass its shapes to the page (`onPolygonChange`, `onExclusionChange`). */
    method ReceiveShapes(lawnMap: LawnMapModel.LawnMap)
      modifies this
      ensures polygon == lawnMap.polygon && exclusion == lawnMap.exclusion
      ensures center == old(center) && squareFeet == old(squareFeet) && loading == old(loading)
      ensures locating == old(locating) && address == old(address)
      ensures alerts == old(alerts) && requests == old(requests)
    {
      polygon := lawnMap.polygon;
      exclusion := lawnMap.exclusion;
    }

    /**
     * `geocode(query)`: a query that trims to fewer than three code units does nothing.
     * Otherwise one request is sent, the centre moves only to a located first candidate,
     * every other outcome raises its alert, and `locating` ends false.
     */
    method Geocode(query: string, reply: GeocodeReply)
      modifies this
      ensures QueryTooShort(query) ==>
        center == old(center) && locating == old(locating) && alerts == old(alerts) && requests == old(requests)
      ensures !QueryTooShort(query) ==> !locating && requests == old(requests) + [GeocodeRequest(query)]
      ensures !QueryTooShort(query) ==>
        center == (match Interpret(reply) case Located(lat, lon) => (lat, lon) case _ => old(center))
      ensures !QueryTooShort(query) ==>
        alerts == old(alerts) + (match AlertFor(Interpret(reply)) case Some(a) => [a] case None => [])
      ensures polygon == old(polygon) && exclusion == old(exclusion) && squareFeet == old(squareFeet)
      ensures loading == old(loading) && address == old(address)
    {
      if query == "" || Utf16Length(Trim(query)) < 3 {
        return;
      }
      locating := true;
      requests := requests + [GeocodeRequest(query)];
      match reply {
        case GeocodeFetchThrew =>
          alerts := alerts + [LookupUnavailable];
        case GeocodeNotOk =>
          alerts := alerts + [LookupUnavailable];
        case GeocodeOk(body) =>
          if body.None? {
            alerts := alerts + [LookupUnavailable];
          } else if body.value.Candidates? && |body.value.items| > 0 {
            center := (body.value.items[0].lat, body.value.items[0].lon);
          } else {
            alerts := alerts + [AddressNotFound];
          }
      }
      locating := false;
    }

    /**
     * `estimate()`: without a polygon nothing happens. Otherwise one buildings request is
     * sent for the reordered bbox; a thrown fetch leaves `squareFeet` as it was, any
     * answer sets it to the estimate for that answer; `loading` ends false either way.
     */
    method Estimate(libs: Libraries, reply: BuildingsReply)
      modifies this
      ensures old(polygon).None? ==>
        loading == old(loading) && squareFeet == old(squareFeet) && requests == old(requests)
      ensures old(polygon).Some? ==> !loading
      ensures old(polygon).Some? ==>
        var q := QueryOrder(libs.bbox(old(polygon).value));
        requests == old(requests) + [BuildingsRequest(q[0], q[1], q[2], q[3])]
      ensures old(polygon).Some? && reply.BuildingsFetchThrew? ==> squareFeet == old(squareFeet)
      ensures old(polygon).Some? && reply.BuildingsResponse? ==>
        squareFeet == Some(EstimateSquareFeet(libs, old(polygon).value, old(exclusion), reply.body))
      ensures polygon == old(polygon) && exclusion == old(exclusion) && center == old(center)
      ensures locating == old(locating) && address == old(address) && alerts == old(alerts)
    {
      if polygon.None? {
        return;
      }
      var lawn := polygon.value;
      loading := true;
      var bbox := libs.bbox(lawn);
      var south, west, north, east := bbox[1], bbox[0], bbox[3], bbox[2];
      requests := requests + [BuildingsRequest(south, west, north, east)];
      if reply.BuildingsFetchThrew? {
        loading := false;
        return;
      }
      var osm := UsableOsm(reply.body);
      var features := libs.osmToGeoJson(osm);
      var buildings := CollectBuildings(features);
      var result := Subtract(libs, lawn, exclusion, buildings);
      var areaSqMeters := libs.area(result);
      squareFeet := Some(SquareFeet(areaSqMeters));
      loading := false;
    }
  }
}
