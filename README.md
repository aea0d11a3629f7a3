# Lawn estimator: a Dafny model of its decision and bookkeeping code

The lawn estimator is a small Next.js application. A user locates an address, draws the
lawn on a satellite map, optionally draws one exclusion (house, patio), and asks for an
estimate. The page then fetches the OpenStreetMap buildings inside the lawn's bounding
box. It subtracts the exclusion and every building footprint from the lawn polygon and
reports the remaining area in square feet, with a mowing time at 250 square feet a minute.

The geometry is done by foreign floating-point libraries (turf, osmtogeojson). This model
covers the code around those calls:

- `Estimate` (estimate.dfy) is the pipeline of the page's `estimate` callback. It covers
  the bbox reorder, the fallback for an unusable buildings response, the building filter,
  the best-effort subtraction fold, and the square-feet and minutes conversions.
- `HomePageModel` (home_page.dfy) is the page's state as a class. Its methods are the
  `geocode` and `estimate` handlers. It also holds the geocode decision and the result readout.
- `LawnMapModel` (lawn_map.dfy) is the map component. It has the `polygon` / `exclusion`
  / `drawingMode` class with the create, edit and delete handlers, ring closing, and the
  recentre zoom clamp.
- `BuildingsRoute` (buildings_route.dfy) is `GET /api/buildings`: the bbox check, the
  Overpass query, and the ordered fallback over three endpoints.
- `GeocodeRoute` (geocode_route.dfy) is `GET /api/geocode`: query validation, the
  Nominatim parameter set built by successive `set` calls, and the status mapping.
- `Text` (text.dfy) holds JavaScript's `trim` and UTF-16 `.length`. `Json` and `Http`
  (json.dfy) hold parsed JSON with JavaScript truthiness and property access, plus
  responses. `Geometry` (geometry.dfy) holds GeoJSON features and the foreign calls.
  `Wrappers` holds `Option`.

Foreign calls are parameters. `turf.bbox`, `turf.difference`, `turf.area` and
`osmtogeojson` are the fields of a `Libraries` value that the estimate is given, and
nothing is assumed about them. `difference` returns a feature, `null`, or throws.
Network replies are inputs too: the page handlers take the reply they receive, and the
routes take the network as a function from request to outcome. The buildings route also
returns the endpoint URLs it contacted, and the geocode route returns the upstream request
it made, if any, so "no upstream call" can be stated.

## Model

| member | source | states |
|---|---|---|
| Text.TrimStart | src/app/page.tsx:59 | removes exactly the leading whitespace: the result is a suffix, everything removed is whitespace, and the result does not start with whitespace |
| Text.TrimEnd | src/app/page.tsx:59 | removes exactly the trailing whitespace: the result is a prefix, everything removed is whitespace, and the result does not end with whitespace |
| Text.Trim | src/app/page.tsx:59 | `trim()` result is no longer than the input and neither starts nor ends with whitespace |
| Text.TrimSlice | src/app/api/geocode/route.ts:5 | the trimmed string is one contiguous slice of the input, with only whitespace before and after it |
| Text.TrimIdempotent | src/app/page.tsx:59 | trimming twice equals trimming once |
| Text.TrimAllWhitespace | src/app/page.tsx:59 | an all-whitespace string trims to the empty string |
| Text.Utf16Length | src/app/page.tsx:59 | `.length` counts UTF-16 code units: at least the number of characters and at most twice that; exactly that when no character lies above U+FFFF |
| Text.IsWhitespace | src/app/page.tsx:59 | the characters `trim` removes: space, tab, line feed and carriage return among them, and never an ASCII letter or digit |
| Text.QueryTooShort | src/app/page.tsx:59 | the rule "`!q`, or `q.trim().length < 3`" refuses exactly the strings whose trimmed UTF-16 length is below 3: the emptiness test adds nothing |
| Text.ShortQueriesRefused | src/app/api/geocode/route.ts:5 | strings of at most one character, and whitespace-only strings, are refused |
| Text.ThreeCharactersAccepted | src/app/api/geocode/route.ts:5 | three characters whose ends are not whitespace are accepted |
| Json.Truthy | src/app/page.tsx:97 | every array and every object is truthy, even an empty one; `null`, `false`, `0` and `""` are falsy |
| Json.TruthyMember | src/app/page.tsx:106 | `j.key` is truthy exactly when `j` is an object holding `key` with a truthy value |
| Json.Member | src/app/page.tsx:97 | `j.key` is defined exactly when `j` is an object holding the key, and then it is that field |
| Json.EmptyElementsTruthy | src/app/api/buildings/route.ts:34 | `{elements: []}` is truthy and its `elements` is a truthy empty array |
| Http.JsonResponse | src/app/api/buildings/route.ts:28 | `NextResponse.json(data)` answers status 200 with the data as body |
| Geometry.PolygonFeature | src/components/LawnMap.tsx:82 | `turf.polygon([ring])` is a Polygon feature whose only ring is the given one |
| Geometry.MakePolygon | src/components/LawnMap.tsx:82 | `turf.polygon` succeeds exactly for rings of at least four positions with first equal to last |
| LawnMapModel.ToPositions | src/components/LawnMap.tsx:80 | each Leaflet vertex becomes `[lng, lat]`, positions and order kept |
| LawnMapModel.CloseRing | src/components/LawnMap.tsx:81 | the result is closed (first equals last), has the input as prefix, and is one position longer at most; it equals the input exactly when the input was closed, and otherwise is the input plus its first point |
| LawnMapModel.CloseRingIdempotent | src/components/LawnMap.tsx:107 | closing a closed ring returns it unchanged |
| LawnMapModel.Shape | src/components/LawnMap.tsx:79-82 | a handler gets a polygon exactly when the ring is non-empty and its closed form has at least four positions; the polygon is built from the closed ring |
| LawnMapModel.ShapeNeedsThreeVertices | src/components/LawnMap.tsx:80-82 | four or more vertices always give a polygon, fewer than three never do, and three do exactly when first and last differ |
| LawnMapModel.TargetZoom | src/components/LawnMap.tsx:42 | `min(max(zoom ?? 18, 18), 19)` lies in [18, 19]; it keeps a zoom already in range, gives 18 when there is no zoom or it is at most 18, and 19 at or above 19 |
| LawnMapModel.RecenterZoom | src/components/LawnMap.tsx:38-44 | the map flies only when mounted, and then to exactly the clamped zoom, which lies within [18, 19] |
| LawnMapModel.LawnMap.constructor | src/components/LawnMap.tsx:21-23 | no lawn, no exclusion, drawing mode lawn |
| LawnMapModel.LawnMap.OnCreated | src/components/LawnMap.tsx:78-94 | in lawn mode the new polygon becomes the lawn and the mode switches to exclusion, exclusion untouched; in exclusion mode it replaces the exclusion, lawn and mode untouched; when the handler throws nothing changes |
| LawnMapModel.LawnMap.OnEdited | src/components/LawnMap.tsx:95-115 | with no layers the current mode's shape is cleared; otherwise it becomes the closed polygon of the first layer; the other shape and the mode never change |
| LawnMapModel.LawnMap.OnDeleted | src/components/LawnMap.tsx:116-122 | the current mode's shape becomes null; the other shape and the mode are unchanged |
| Estimate.QueryOrder | src/app/page.tsx:84-88 | south, west, north, east are turf's indices 1, 0, 3, 2 |
| Estimate.UsableOsm | src/app/page.tsx:93-100 | the document passed on is always truthy with truthy `elements`; a usable response is passed unchanged; an unparseable one, a falsy one, or one without truthy `elements` becomes `{elements: []}` |
| Estimate.UsableDocument | src/app/page.tsx:97 | the test "`!osm`, or `!osm.elements`" fails exactly for a parsed object holding a truthy `elements`: the `!osm` test adds nothing |
| Estimate.IsBuilding | src/app/page.tsx:106-107 | a feature passes exactly when its `properties` is an object holding a truthy `building` and its geometry is a Polygon or a MultiPolygon: the `f.properties &&` test adds nothing |
| Estimate.Buildings | src/app/page.tsx:104-111 | every kept feature is a feature of the input with a truthy `properties`, a truthy `building`, and Polygon or MultiPolygon geometry |
| Estimate.BuildingsSingleton | src/app/page.tsx:106-108 | a single feature is kept exactly when it passes both tests |
| Estimate.BuildingsAppend | src/app/page.tsx:105-111 | filtering a concatenation concatenates the filtered parts, so input order is kept |
| Estimate.BuildingsCount | src/app/page.tsx:104-111 | each building occurs in the output exactly as often as in the input, each non-building never: no deduplication |
| Estimate.BuildingsKeepsAll | src/app/page.tsx:104-111 | an all-building input is returned whole, MultiPolygons unsplit |
| Estimate.CollectBuildings | src/app/page.tsx:104-111 | the push loop returns exactly the filtered list |
| Estimate.SubtractOnce | src/app/page.tsx:128-131 | a returned feature replaces the running shape; `null` or an exception leaves it unchanged |
| Estimate.SubtractAll | src/app/page.tsx:127-132 | the fold's result is the starting shape or a feature that `difference` returned for one of the cuts |
| Estimate.SubtractAllAppend | src/app/page.tsx:127-132 | subtracting a list in two parts equals subtracting it whole, in order |
| Estimate.SubtractAllCons | src/app/page.tsx:127-132 | the first item of the list is subtracted first, from the starting shape |
| Estimate.SubtractAllSkipsFailures | src/app/page.tsx:127-132 | when every subtraction returns `null` or throws, the shape comes through unchanged: a bad footprint never aborts the estimate |
| Estimate.StartShape | src/app/page.tsx:115-124 | the exclusion step is the same best-effort fold over one cut, the exclusion, or over none |
| Estimate.NetShape | src/app/page.tsx:115-132 | the net shape is one fold from the lawn over the exclusion (when present) and then every building in order |
| Estimate.NoBuildingsExclusionOnly | src/app/page.tsx:115-132 | with no buildings the net shape is the exclusion-only shape |
| Estimate.Subtract | src/app/page.tsx:115-132 | `let result = polygon`, the exclusion step and the loop compute exactly the net shape |
| Estimate.Round | src/app/page.tsx:166 | `Math.round` gives the integer within half a unit below or strictly less than half above |
| Estimate.RoundUnique | src/app/page.tsx:166 | that integer is unique |
| Estimate.SquareFeet | src/app/page.tsx:135-136 | the reported square feet are within half a unit of area times 10.7639, and never negative for a non-negative area |
| Estimate.SquareFeetMonotone | src/app/page.tsx:136 | a larger area never reports fewer square feet |
| Estimate.Minutes | src/app/page.tsx:238 | `ceil(sqft / 250)` is the least m with m * 250 >= sqft |
| Estimate.MinutesLeast | src/app/page.tsx:238 | every k with k * 250 >= sqft is at least the reported minutes |
| Estimate.MinutesExample | src/app/page.tsx:238 | 107639 square feet give 431 minutes; 0, 250 and 251 give 0, 1 and 2 |
| Estimate.EstimateSquareFeet | src/app/page.tsx:103-136 | the reported figure is within half a unit of 10.7639 times the area of the lawn folded over the exclusion and the buildings of the usable document, and not negative when that area is not |
| Estimate.UnusableResponseAsEmpty | src/app/page.tsx:93-100 | every unusable response gives the same estimate as `{elements: []}` |
| Estimate.NoBuildingsEstimate | src/app/page.tsx:103-136 | when the document yields no buildings the estimate is the area of the exclusion-only shape |
| Estimate.NothingSubtractedEstimate | src/app/page.tsx:115-136 | when no subtraction succeeds against the lawn, the estimate is the lawn's own area |
| HomePageModel.Interpret | src/app/page.tsx:63-77 | located at the first candidate exactly for an ok reply with a non-empty array; not found exactly for an ok reply with an empty array or a non-array; failed exactly for a thrown fetch, a non-ok status or an unparseable body |
| HomePageModel.FirstCandidateOnly | src/app/page.tsx:67-71 | whatever follows the first candidate, the page goes to the first |
| HomePageModel.AlertFor | src/app/page.tsx:73-76 | no alert exactly when located; the not-found alert exactly when not found |
| HomePageModel.Display | src/app/page.tsx:232-238 | nothing is shown for a missing or zero estimate; otherwise the square feet and the least minutes covering them at 250 a minute |
| HomePageModel.HomePage.constructor | src/app/page.tsx:12-18 | centre (40.0, -89.0), no shapes, no estimate, not loading, not locating |
| HomePageModel.HomePage.ReceiveShapes | src/components/LawnMap.tsx:30-36 | the page's lawn and exclusion become the map's, nothing else changes |
| HomePageModel.HomePage.Geocode | src/app/page.tsx:58-78 | a too-short query changes nothing and sends nothing; otherwise one request is sent, the centre moves only to the first candidate, the other outcomes raise their alert and keep the centre, and `locating` ends false |
| HomePageModel.HomePage.Estimate | src/app/page.tsx:80-171 | without a lawn nothing changes; otherwise one buildings request for the reordered bbox, `squareFeet` set to the estimate of the answer (kept when the fetch throws), and `loading` ends false |
| BuildingsRoute.MissingBox | src/app/api/buildings/route.ts:7 | `!bbox` holds exactly for an absent parameter or a falsy, that is empty, string |
| BuildingsRoute.OverpassQuery | src/app/api/buildings/route.ts:11 | the query starts with the fixed head, the bbox appears verbatim in the `way["building"]` slot and in the `relation["building"]` slot, and it ends with the fixed tail |
| BuildingsRoute.Usable | src/app/api/buildings/route.ts:20-30 | a thrown fetch, a non-ok status and a body that fails to parse all move on to the next endpoint; an attempt that ends the loop has a parsed body |
| BuildingsRoute.FirstUsable | src/app/api/buildings/route.ts:19-31 | the index found is usable (ok and parsed) and every earlier attempt is not; none is found exactly when no attempt is usable |
| BuildingsRoute.Attempts | src/app/api/buildings/route.ts:13-25 | one attempt per endpoint, in list order, each posting the same query |
| BuildingsRoute.FirstUsableIs | src/app/api/buildings/route.ts:26-29 | a usable attempt with none usable before it is the first usable one |
| BuildingsRoute.Get | src/app/api/buildings/route.ts:4-35 | status 400 exactly for a missing bbox, which contacts no endpoint; otherwise always 200, endpoints contacted in order up to the first usable one, whose body is answered, or all three and `{elements: []}`; never more than three attempts |
| HomePageModel.RouteFallbackUsedAsIs | src/app/api/buildings/route.ts:33-34 | the route's total-failure body `{elements: []}` is a usable document, so the page's fallback passes it on unchanged |
| GeocodeRoute.ValueOf | src/app/api/geocode/route.ts:4 | `searchParams.get(name)` finds nothing exactly when no parameter has the name |
| GeocodeRoute.SetParam | src/app/api/geocode/route.ts:9-13 | after `set`, exactly one parameter has the name and it holds the value; all other parameters are kept in order; a new name is appended |
| GeocodeRoute.CountAbsent | src/app/api/geocode/route.ts:9-13 | a name no parameter has occurs zero times |
| GeocodeRoute.NominatimParams | src/app/api/geocode/route.ts:8-13 | the upstream query has `format=json`, `q`, `limit=1`, `countrycodes=us` and `addressdetails=0` |
| GeocodeRoute.Refusal | src/app/api/geocode/route.ts:4-7 | 400 with `{error: 'query required'}` exactly for a missing `q` or one that trims to fewer than three code units |
| GeocodeRoute.PageQueriesAccepted | src/app/page.tsx:59 | every address the page sends passes the route's check |
| GeocodeRoute.Get | src/app/api/geocode/route.ts:3-20 | a refused query answers 400 with no upstream call; otherwise the five `set` calls produce the fixed parameters with the untrimmed `q`, a non-ok answer maps to 502, and an ok answer is passed through with status 200 |

## Left out

- The Google Places autocomplete (src/app/page.tsx:25-56) is not modelled. It polls `window.google` on timers and reads the DOM.
- The debug test square, bbox and metres-per-degree values (src/app/page.tsx:138-164) are not modelled. They are only logged.
- JSX rendering, the Leaflet map, tile layer, draw controls, `flyTo` and src/app/layout.tsx are left out. They are markup. The readout condition and the zoom clamp are kept.
- The internals of `turf.bbox`, `turf.difference`, `turf.area` and `osmtogeojson` are left out. They are floating-point geodesy. The model assumes nothing about them, so no property depends on how they compute.
- These foreign calls are also assumed not to throw: `turf.bbox`, `turf.area`, `osmtogeojson`, and `f.geometry.type` on a feature with no geometry. Only `difference` is given an exception outcome, because only it is wrapped in a `try` that catches. The outer `try` at src/app/page.tsx:83-170 has only a `finally`.
- Floating point is left out: numbers are exact reals, so `area * 10.7639` is exact before rounding. NaN is not modelled, so neither is `parseFloat` of a non-numeric `lat`/`lon`, nor a candidate that is not an object.
- A string holding an unpaired surrogate is left out, because a Dafny `string` cannot hold one. `encodeURIComponent` throws `URIError` on such an address (src/app/page.tsx:63), and the catch at src/app/page.tsx:75-76 turns that into the lookup-unavailable alert; the model has no such input.
- The URL strings are left out: the page's `encodeURIComponent(address)`, the formatting of the four bbox numbers into `?bbox=`, the form encoding of the Overpass POST, and `url.toString()`. Requests are recorded as structured values instead.
- Async interleaving and React render timing are left out. `loading` and `locating` are observed only before and after a handler runs. The value `true` that they hold while a fetch is pending is not visible in the model. Stale closures over `drawingMode` are not modelled.
- `console` logging and the `alert` dialog's text are left out. Alerts are recorded as one of two kinds.
- An exception escaping a route handler is modelled as `Crashed`. The 500 page that Next.js then serves is framework behaviour and is not modelled.
- The address input's `onChange` (`setAddress`) is not modelled. It is a plain assignment.
- HomePageModel.HomePage.Estimate: when the buildings fetch throws, the callback's promise rejects. The model records only what that leaves behind: `squareFeet` is kept and `loading` ends false.

## Behaviour notes

- MultiPolygon buildings are kept as single features and cut from the lawn whole.
- When `difference` returns `null`, for example when a building covers the rest of the lawn, the code treats it like a failure and keeps the running shape. `Estimate.SubtractOnce` states this, and `Estimate.NothingSubtractedEstimate` the lawn's full area when no cut at all succeeds.
- There is no stale-response guard and no duplicate-request suppression beyond the disabled buttons.
- The three-character rule is checked by the page and again by the geocode route, which answers 400.
- `onEdited` reads `layers[0]` of the single feature group in both modes. The group's contents come from Leaflet and are an input here, so the model takes the first layer as given and does not decide which drawn shape it is.
