/**
 * The map component: which shape a drawing event updates, how a drawn ring is
 * closed, and the zoom used when the map is recentred.
 */
module LawnMapModel {
  import opened Wrappers
  import opened Geometry

  /** The component's `drawingMode`: 'lawn' or 'exclusion'. */
  datatype DrawingMode = Lawn | Exclusion

  /** A Leaflet vertex. */
  datatype LatLng = LatLng(lat: real, lng: real)

  /** `latlngs.map(ll => [ll.lng, ll.lat])`: same length, each vertex as `[longitude, latitude]`. */
  function ToPositions(latlngs: seq<LatLng>): (r: Ring)
    ensures |r| == |latlngs|
    ensures forall i :: 0 <= i < |r| ==> r[i].lng == latlngs[i].lng && r[i].lat == latlngs[i].lat
  {
    seq(|latlngs|, i requires 0 <= i < |latlngs| => Position(latlngs[i].lng, latlngs[i].lat))
  }

  /**
   * The ring-closing expression: `r` itself when its first and last positions agree in
   * both coordinates, otherwise `r` with its first position appended.
   */
  function CloseRing(r: Ring): (c: Ring)
    requires |r| > 0
    ensures |c| == |r| || |c| == |r| + 1
    ensures c[0] == c[|c| - 1]
    ensures c[..|r|] == r
    ensures c == r <==> r[0] == r[|r| - 1]
    ensures c != r ==> c == r + [r[0]]
  {
    if r[0].lng == r[|r| - 1].lng && r[0].lat == r[|r| - 1].lat then r else r + [r[0]]
  }

  /** Closing a closed ring changes nothing. */
  lemma CloseRingIdempotent(r: Ring)
    requires |r| > 0
    ensures CloseRing(CloseRing(r)) == CloseRing(r)
  {
  }

  /**
   * The polygon a handler builds from a layer's outer ring: `None` where the handler
   * throws instead, on an empty ring (`latlngs[0][0]` of `undefined`) or on a closed
   * ring of fewer than four positions, which `turf.polygon` refuses.
   */
  function Shape(latlngs: seq<LatLng>): (r: Option<Feature>)
    ensures r.Some? <==> |latlngs| > 0 && |CloseRing(ToPositions(latlngs))| >= 4
    ensures r.Some? ==> r.value == PolygonFeature(CloseRing(ToPositions(latlngs)))
  {
    if |latlngs| == 0 then None else MakePolygon(CloseRing(ToPositions(latlngs)))
  }

  /** Three distinct vertices always give a polygon; fewer than three never do. */
  lemma ShapeNeedsThreeVertices(latlngs: seq<LatLng>)
    ensures |latlngs| >= 4 ==> Shape(latlngs).Some?
    ensures |latlngs| < 3 ==> Shape(latlngs).None?
    ensures |latlngs| == 3 ==> (Shape(latlngs).Some? <==> latlngs[0] != latlngs[2])
  {
    if |latlngs| == 3 {
      var r := ToPositions(latlngs);
      assert r[0] == r[2] <==> latlngs[0] == latlngs[2];
    }
  }

  /**
   * The recentre zoom `min(max(zoom ?? 18, 18), 19)`, where `None` is a map without
   * `getZoom`: always within [18, 19], the current zoom when it already is.
   */
  function TargetZoom(zoom: Option<real>): (z: real)
    ensures 18.0 <= z <= 19.0
    ensures zoom.Some? && 18.0 <= zoom.value <= 19.0 ==> z == zoom.value
    ensures zoom.None? || zoom.value <= 18.0 ==> z == 18.0
    ensures zoom.Some? && zoom.value >= 19.0 ==> z == 19.0
  {
    var current := match zoom case Some(v) => v case None => 18.0;
    var atLeast := if current > 18.0 then current else 18.0;
    if atLeast < 19.0 then atLeast else 19.0
  }

  /** The map's flight on a centre change: none until the map is mounted. */
  function RecenterZoom(mounted: bool, zoom: Option<real>): (r: Option<real>)
    ensures r.Some? <==> mounted
    ensures r.Some? ==> r.value == TargetZoom(zoom) && 18.0 <= r.value <= 19.0
  {
    if mounted then Some(TargetZoom(zoom)) else None
  }

  /**
   * The component's state. `drawingMode` starts at Lawn and the only assignment to it
   * sets Exclusion, so once Exclusion it stays so.
   */
  class LawnMap {
    var polygon: Option<Feature>
    var exclusion: Option<Feature>
    var drawingMode: DrawingMode

    constructor ()
      ensures polygon == None && exclusion == None && drawingMode == Lawn
    {
      polygon := None;
      exclusion := None;
      drawingMode := Lawn;
    }

    /**
     * `onCreated`: the first shape is the lawn and switches the mode; later shapes
     * replace the exclusion. When the handler throws (`ok` false) nothing changes.
     */
    method OnCreated(latlngs: seq<LatLng>) returns (ok: bool)
      modifies this
      ensures ok <==> Shape(latlngs).Some?
      ensures !ok ==> polygon == old(polygon) && exclusion == old(exclusion) && drawingMode == old(drawingMode)
      ensures ok && old(drawingMode) == Lawn ==>
        polygon == Shape(latlngs) && exclusion == old(exclusion) && drawingMode == Exclusion
      ensures ok && old(drawingMode) == Exclusion ==>
        exclusion == Shape(latlngs) && polygon == old(polygon) && drawingMode == Exclusion
    {
      if |latlngs| == 0 {
        return false;
      }
      var closed := CloseRing(ToPositions(latlngs));
      var poly := MakePolygon(closed);
      if poly.None? {
        return false;
      }
      if drawingMode == Lawn {
        polygon := poly;
        drawingMode := Exclusion;
      } else {
        exclusion := poly;
      }
      ok := true;
    }

    /**
     * `onEdited`, given the outer rings of the feature group's layers: no layers clears
     * the current mode's shape; otherwise the current mode's shape becomes the polygon
     * of the first layer. The other shape and the mode never change.
     */
    method OnEdited(layers: seq<seq<LatLng>>) returns (ok: bool)
      modifies this
      ensures drawingMode == old(drawingMode)
      ensures ok <==> |layers| == 0 || Shape(layers[0]).Some?
      ensures !ok ==> polygon == old(polygon) && exclusion == old(exclusion)
      ensures ok && drawingMode == Lawn ==>
        polygon == (if |layers| == 0 then None else Shape(layers[0])) && exclusion == old(exclusion)
      ensures ok && drawingMode == Exclusion ==>
        exclusion == (if |layers| == 0 then None else Shape(layers[0])) && polygon == old(polygon)
    {
      if |layers| == 0 {
        if drawingMode == Lawn {
          polygon := None;
        } else {
          exclusion := None;
        }
        return true;
      }
      var latlngs := layers[0];
      if |latlngs| == 0 {
        return false;
      }
      var closed := CloseRing(ToPositions(latlngs));
      var poly := MakePolygon(closed);
      if poly.None? {
        return false;
      }
      if drawingMode == Lawn {
        polygon := poly;
      } else {
        exclusion := poly;
      }
      ok := true;
    }

    /** `onDeleted`: the current mode's shape is cleared and nothing else changes. */
    method OnDeleted()
      modifies this
      ensures drawingMode == old(drawingMode)
      ensures drawingMode == Lawn ==> polygon == None && exclusion == old(exclusion)
      ensures drawingMode == Exclusion ==> exclusion == None && polygon == old(polygon)
    {
      if drawingMode == Lawn {
        polygon := None;
      } else {
        exclusion := None;
      }
    }
  }
}
