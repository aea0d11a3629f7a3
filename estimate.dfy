/**
 * The estimate pipeline of the home page: the building query's bbox order, the fallback
 * for an unusable buildings response, the building filter, the best-effort subtraction
 * fold, and the square-feet and minutes conversions.
 */
module Estimate {
  import opened Wrappers
  import opened Json
  import opened Geometry

  /**
   * The order of the `bbox` query parameter, `south,west,north,east`, taken from turf's
   * `[west, south, east, north]` by the indices 1, 0, 3, 2.
   */
  function QueryOrder(b: BBox): (q: BBox)
    ensures q[0] == b[1] && q[1] == b[0] && q[2] == b[3] && q[3] == b[2]
  {
    [b[1], b[0], b[3], b[2]]
  }

  /**
   * A parsed response the page uses as it is: `osm` truthy with a truthy `elements`.
   * Only an object can hold `elements`, so the `!osm` test adds nothing.
   */
  predicate UsableDocument(body: Option<Json>)
    ensures UsableDocument(body) <==>
      body.Some? && body.value.JObj? && "elements" in body.value.fields && Truthy(body.value.fields["elements"])
  {
    body.Some? && Truthy(body.value) && TruthyMember(body.value, "elements")
  }

  /**
   * The document handed to `osmtogeojson`; `body` is `None` when `overpass.json()`
   * threw. A usable document passes through unchanged, anything else becomes
   * `{elements: []}`; either way the result is usable.
   */
  function UsableOsm(body: Option<Json>): (osm: Json)
    ensures UsableDocument(Some(osm))
    ensures UsableDocument(body) ==> osm == body.value
    ensures !UsableDocument(body) ==> osm == EmptyElements
  {
    EmptyElementsTruthy();
    if UsableDocument(body) then body.value else EmptyElements
  }

  /**
   * The filter's test: a truthy `properties` with a truthy `building`, and Polygon or
   * MultiPolygon geometry. `properties` passes exactly when it is an object holding a
   * truthy `building`.
   */
  predicate IsBuilding(f: Feature)
    ensures IsBuilding(f) <==>
      f.properties.JObj? && "building" in f.properties.fields && Truthy(f.properties.fields["building"])
      && (f.geometry.kind == "Polygon" || f.geometry.kind == "MultiPolygon")
  {
    Truthy(f.properties) && TruthyMember(f.properties, "building")
    && (f.geometry.kind == "Polygon" || f.geometry.kind == "MultiPolygon")
  }

  /** The building features of `fs`, in their input order; every one kept is a building of `fs`. */
  function Buildings(fs: seq<Feature>): (r: seq<Feature>)
    ensures |r| <= |fs|
    ensures forall f :: f in r ==> f in fs && IsBuilding(f)
  {
    if fs == [] then []
    else
      var last := fs[|fs| - 1];
      Buildings(fs[..|fs| - 1]) + (if IsBuilding(last) then [last] else [])
  }

  /** One feature is kept exactly when it is a building. */
  lemma BuildingsSingleton(f: Feature)
    ensures Buildings([f]) == if IsBuilding(f) then [f] else []
  {
    assert [f][..0] == [];
  }

  /** The filter distributes over concatenation, so it keeps the input order. */
  lemma {:induction false} BuildingsAppend(a: seq<Feature>, b: seq<Feature>)
    ensures Buildings(a + b) == Buildings(a) + Buildings(b)
  {
    if b == [] {
      assert a + b == a;
    } else {
      var init := b[..|b| - 1];
      assert (a + b)[..|a + b| - 1] == a + init;
      assert (a + b)[|a + b| - 1] == b[|b| - 1];
      BuildingsAppend(a, init);
    }
  }

  /** Each building occurs as often in the output as in the input, each non-building never: no deduplication. */
  lemma {:induction false} BuildingsCount(fs: seq<Feature>, f: Feature)
    ensures multiset(Buildings(fs))[f] == if IsBuilding(f) then multiset(fs)[f] else 0
  {
    if fs != [] {
      var init := fs[..|fs| - 1];
      assert fs == init + [fs[|fs| - 1]];
      BuildingsCount(init, f);
    }
  }

  /** A list made only of buildings is returned whole, with no splitting of MultiPolygons. */
  lemma {:induction false} BuildingsKeepsAll(fs: seq<Feature>)
    requires forall f :: f in fs ==> IsBuilding(f)
    ensures Buildings(fs) == fs
  {
    if fs != [] {
      var init := fs[..|fs| - 1];
      assert fs == init + [fs[|fs| - 1]];
      BuildingsKeepsAll(init);
    }
  }

  /** The loop that pushes each building feature of `features` onto `buildings`. */
  method CollectBuildings(features: seq<Feature>) returns (buildings: seq<Feature>)
    ensures buildings == Buildings(features)
  {
    buildings := [];
    for i := 0 to |features|
      invariant buildings == Buildings(features[..i])
    {
      var f := features[i];
      if Truthy(f.properties) && TruthyMember(f.properties, "building") {
        if f.geometry.kind == "Polygon" || f.geometry.kind == "MultiPolygon" {
          buildings := buildings + [f];
        }
      }
      assert features[..i + 1][..i] == features[..i];
    }
    assert features[..|features|] == features;
  }

  /**
   * One best-effort subtraction: the difference when `turf.difference` returns a
   * feature, the running shape unchanged when it returns `null` or throws.
   */
  function SubtractOnce(libs: Libraries, acc: Feature, cut: Feature): (r: Feature)
    ensures libs.difference(acc, cut).Region? ==> r == libs.difference(acc, cut).feature
    ensures !libs.difference(acc, cut).Region? ==> r == acc
  {
    match libs.difference(acc, cut)
    case Region(d) => d
    case _ => acc
  }

  /**
   * Subtracting `cuts` from `acc` one after another, in list order. The result is `acc`
   * itself or a feature that `difference` returned for one of the cuts.
   */
  function SubtractAll(libs: Libraries, acc: Feature, cuts: seq<Feature>): (r: Feature)
    ensures r == acc || exists a, c :: c in cuts && libs.difference(a, c) == Region(r)
    decreases |cuts|
  {
    if cuts == [] then acc
    else
      var init := cuts[..|cuts| - 1];
      assert forall c :: c in init ==> c in cuts;
      SubtractOnce(libs, SubtractAll(libs, acc, init), cuts[|cuts| - 1])
  }

  /** Subtracting `a` then `b` is subtracting `a + b`. */
  lemma {:induction false} SubtractAllAppend(libs: Libraries, acc: Feature, a: seq<Feature>, b: seq<Feature>)
    ensures SubtractAll(libs, acc, a + b) == SubtractAll(libs, SubtractAll(libs, acc, a), b)
  {
    if b == [] {
      assert a + b == a;
    } else {
      var init := b[..|b| - 1];
      assert (a + b)[..|a + b| - 1] == a + init;
      assert (a + b)[|a + b| - 1] == b[|b| - 1];
      SubtractAllAppend(libs, acc, a, init);
    }
  }

  /** The first cut is made first, against the starting shape. */
  lemma SubtractAllCons(libs: Libraries, acc: Feature, c: Feature, cs: seq<Feature>)
    ensures SubtractAll(libs, acc, [c] + cs) == SubtractAll(libs, SubtractOnce(libs, acc, c), cs)
  {
    SubtractAllAppend(libs, acc, [c], cs);
    assert [c][..0] == [];
  }

  /**
   * A single bad footprint never aborts the estimate: when every cut fails against the
   * shape (returns `null` or throws), the shape comes through unchanged.
   */
  lemma {:induction false} SubtractAllSkipsFailures(libs: Libraries, acc: Feature, cuts: seq<Feature>)
    requires forall c :: c in cuts ==> !libs.difference(acc, c).Region?
    ensures SubtractAll(libs, acc, cuts) == acc
  {
    if cuts != [] {
      var init := cuts[..|cuts| - 1];
      assert forall c :: c in init ==> c in cuts;
      SubtractAllSkipsFailures(libs, acc, init);
      assert cuts[|cuts| - 1] in cuts;
    }
  }

  /** The exclusion as a list of cuts: one cut when there is an exclusion, none otherwise. */
  function ExclusionCuts(exclusion: Option<Feature>): seq<Feature> {
    if exclusion.Some? then [exclusion.value] else []
  }

  /** The lawn polygon with the exclusion, if any, subtracted: the exclusion is a cut like any other. */
  function StartShape(libs: Libraries, polygon: Feature, exclusion: Option<Feature>): (r: Feature)
    ensures r == SubtractAll(libs, polygon, ExclusionCuts(exclusion))
  {
    match exclusion
    case Some(e) => assert [e][..0] == []; SubtractOnce(libs, polygon, e)
    case None => polygon
  }

  /**
   * The shape whose area is reported: one fold over the exclusion and then every
   * building, in that order, starting from the lawn.
   */
  function NetShape(libs: Libraries, polygon: Feature, exclusion: Option<Feature>, buildings: seq<Feature>): (r: Feature)
    ensures r == SubtractAll(libs, polygon, ExclusionCuts(exclusion) + buildings)
  {
    SubtractAllAppend(libs, polygon, ExclusionCuts(exclusion), buildings);
    SubtractAll(libs, StartShape(libs, polygon, exclusion), buildings)
  }

  /** With no buildings the shape is the exclusion-only shape. */
  lemma NoBuildingsExclusionOnly(libs: Libraries, polygon: Feature, exclusion: Option<Feature>)
    ensures NetShape(libs, polygon, exclusion, []) == StartShape(libs, polygon, exclusion)
  {
  }

  /** The subtraction steps: `let result = polygon`, the exclusion, then the loop over the buildings. */
  method Subtract(libs: Libraries, polygon: Feature, exclusion: Option<Feature>, buildings: seq<Feature>)
    returns (result: Feature)
    ensures result == NetShape(libs, polygon, exclusion, buildings)
  {
    result := polygon;
    if exclusion.Some? {
      var diff := libs.difference(result, exclusion.value);
      if diff.Region? {
        result := diff.feature;
      }
    }
    for i := 0 to |buildings|
      invariant result == SubtractAll(libs, StartShape(libs, polygon, exclusion), buildings[..i])
    {
      var diff := libs.difference(result, buildings[i]);
      if diff.Region? {
        result := diff.feature;
      }
      assert buildings[..i + 1][..i] == buildings[..i];
    }
    assert buildings[..|buildings|] == buildings;
  }

  /** Square feet in a square metre, as the page writes it. */
  const SquareFeetPerSquareMeter: real := 10.7639

  /** `Math.round`: the nearest integer, halves rounded up. */
  function Round(x: real): (n: int)
    ensures n as real - 0.5 <= x < n as real + 0.5
  {
    (x + 0.5).Floor
  }

  /** That nearest integer is unique. */
  lemma RoundUnique(x: real, n: int)
    requires n as real - 0.5 <= x < n as real + 0.5
    ensures Round(x) == n
  {
  }

  /** The reported square feet: `round(area * 10.7639)`, never negative for a non-negative area. */
  function SquareFeet(areaSqMeters: real): (sqft: int)
    ensures sqft as real - 0.5 <= areaSqMeters * SquareFeetPerSquareMeter < sqft as real + 0.5
    ensures areaSqMeters >= 0.0 ==> sqft >= 0
  {
    Round(areaSqMeters * SquareFeetPerSquareMeter)
  }

  /** A larger area never reports fewer square feet. */
  lemma SquareFeetMonotone(a: real, b: real)
    requires a <= b
    ensures SquareFeet(a) <= SquareFeet(b)
  {
    assert a * SquareFeetPerSquareMeter <= b * SquareFeetPerSquareMeter;
  }

  /** `Math.ceil(squareFeet / 250)`: the least `m` with `m * 250 >= squareFeet`. */
  function Minutes(squareFeet: int): (m: int)
    ensures m * 250 >= squareFeet
    ensures (m - 1) * 250 < squareFeet
  {
    (squareFeet + 249) / 250
  }

  /** Any `k` with `k * 250 >= squareFeet` is at least the reported minutes. */
  lemma MinutesLeast(squareFeet: int, k: int)
    requires k * 250 >= squareFeet
    ensures Minutes(squareFeet) <= k
  {
  }

  /** 107,639 square feet (10,000 square metres) take 431 minutes. */
  lemma MinutesExample()
    ensures Minutes(107639) == 431 && Minutes(0) == 0 && Minutes(250) == 1 && Minutes(251) == 2
  {
  }

  /**
   * The square feet `estimate` reports once the buildings response arrived: the area of
   * the net shape, taken once after every subtraction: the lawn with the exclusion and
   * then each building of the usable document cut in order, converted and rounded.
   */
  function EstimateSquareFeet(libs: Libraries, polygon: Feature, exclusion: Option<Feature>, body: Option<Json>): (sqft: int)
    ensures var net := SubtractAll(libs, polygon, ExclusionCuts(exclusion) + Buildings(libs.osmToGeoJson(UsableOsm(body))));
      sqft as real - 0.5 <= libs.area(net) * SquareFeetPerSquareMeter < sqft as real + 0.5
      && (libs.area(net) >= 0.0 ==> sqft >= 0)
  {
    var buildings := Buildings(libs.osmToGeoJson(UsableOsm(body)));
    SquareFeet(libs.area(NetShape(libs, polygon, exclusion, buildings)))
  }

  /** An unparseable response, or one without truthy `elements`, estimates like `{elements: []}`. */
  lemma UnusableResponseAsEmpty(libs: Libraries, polygon: Feature, exclusion: Option<Feature>, body: Option<Json>)
    requires !UsableDocument(body)
    ensures EstimateSquareFeet(libs, polygon, exclusion, body)
      == EstimateSquareFeet(libs, polygon, exclusion, Some(EmptyElements))
  {
    EmptyElementsTruthy();
  }

  /**
   * When the document yields no buildings (for `{elements: []}`, whenever `osmtogeojson`
   * gives no building feature for it), the estimate is the exclusion-only estimate.
   */
  lemma NoBuildingsEstimate(libs: Libraries, polygon: Feature, exclusion: Option<Feature>, body: Option<Json>)
    requires Buildings(libs.osmToGeoJson(UsableOsm(body))) == []
    ensures EstimateSquareFeet(libs, polygon, exclusion, body)
      == SquareFeet(libs.area(StartShape(libs, polygon, exclusion)))
  {
  }

  /**
   * When no subtraction succeeds (every `difference` against the drawn lawn returns
   * `null` or throws), the lawn's own area is reported.
   */
  lemma NothingSubtractedEstimate(libs: Libraries, polygon: Feature, exclusion: Option<Feature>, body: Option<Json>)
    requires exclusion.Some? ==> !libs.difference(polygon, exclusion.value).Region?
    requires forall b :: b in Buildings(libs.osmToGeoJson(UsableOsm(body))) ==> !libs.difference(polygon, b).Region?
    ensures EstimateSquareFeet(libs, polygon, exclusion, body) == SquareFeet(libs.area(polygon))
  {
    SubtractAllSkipsFailures(libs, polygon, Buildings(libs.osmToGeoJson(UsableOsm(body))));
  }
}
