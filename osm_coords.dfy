/**
 * The coordinate extractors `OpenStreetMapper` overrides
 * (src/wktplot/mappers/osm.py). Each takes the standard extractor's output
 * and projects it with `geographic_to_mercator`, passing the x column as the
 * latitude and the y column as the longitude.
 */
module OsmCoords {
  import opened Geometry
  import opened Mercator
  import StandardCoords

  /**
   * `_get_point_coords`: the standard (x, y) goes in as (lat = x, lng = y)
   * and the result is (longitude result, latitude result), so the output x
   * depends on the input y only and the output y on the input x only.
   */
  function PointCoords(n: Numerics, p: Coord): (r: (real, real))
    ensures r.0 == MercLng(n, p.y) && r.1 == MercLat(n, p.x)
  {
    var (geoX, geoY) := StandardCoords.PointCoords(p);
    GeographicToMercator(n, geoX, geoY)
  }

  /**
   * `_get_line_string_coords`: two lists as long as the coordinate sequence;
   * element i of each comes from coordinate i alone, axes swapped.
   */
  function LineStringCoords(n: Numerics, cs: seq<Coord>): (r: (seq<real>, seq<real>))
    ensures |r.0| == |cs| && |r.1| == |cs|
    ensures forall i | 0 <= i < |cs| :: r.0[i] == MercLng(n, cs[i].y) && r.1[i] == MercLat(n, cs[i].x)
  {
    var (geoX, geoY) := StandardCoords.LineStringCoords(cs);
    GeographicToMercatorAll(n, geoX, geoY)
  }

  /**
   * The projected ring columns for one polygon: as many rings as the
   * standard extractor returns, each as long as its standard ring.
   */
  function PolygonCoords(n: Numerics, exterior: Ring, interiors: seq<Ring>): (r: (seq<seq<real>>, seq<seq<real>>))
    ensures |r.0| == |r.1| == 1 + |interiors|
    ensures forall k | 0 <= k < |r.0| :: |r.0[k]| == |r.1[k]| == |StandardCoords.Rings(exterior, interiors)[k]|
  {
    ProjectRings(n, StandardCoords.Rings(exterior, interiors))
  }

  /**
   * Element j of projected ring k is computed from coordinate j of standard
   * ring k alone: its y feeds the output x, its x the output y.
   */
  lemma PolygonCoordsElementwise(n: Numerics, exterior: Ring, interiors: seq<Ring>, k: nat, j: nat)
    requires k < 1 + |interiors|
    requires j < |StandardCoords.Rings(exterior, interiors)[k]|
    ensures var rs := StandardCoords.Rings(exterior, interiors);
      && PolygonCoords(n, exterior, interiors).0[k][j] == MercLng(n, rs[k][j].y)
      && PolygonCoords(n, exterior, interiors).1[k][j] == MercLat(n, rs[k][j].x)
  {
  }

  /** Each ring projected as one batch: longitudes from its y column, latitudes from its x column. */
  function ProjectRings(n: Numerics, rs: seq<Ring>): (r: (seq<seq<real>>, seq<seq<real>>))
    ensures |r.0| == |rs| && |r.1| == |rs|
    ensures forall k | 0 <= k < |rs| :: r.0[k] == MapLng(n, Ys(rs[k])) && r.1[k] == MapLat(n, Xs(rs[k]))
  {
    (seq(|rs|, k requires 0 <= k < |rs| => MapLng(n, Ys(rs[k]))),
     seq(|rs|, k requires 0 <= k < |rs| => MapLat(n, Xs(rs[k]))))
  }

  /** Columns projected one ring at a time are the projected rings. */
  lemma ProjectedColumns(n: Numerics, rs: seq<Ring>, geoX: seq<seq<real>>, geoY: seq<seq<real>>,
                         mercX: seq<seq<real>>, mercY: seq<seq<real>>)
    requires geoX == XsAll(rs) && geoY == YsAll(rs)
    requires |mercX| == |mercY| == |geoX|
    requires forall k | 0 <= k < |geoX| :: mercX[k] == MapLng(n, geoY[k]) && mercY[k] == MapLat(n, geoX[k])
    ensures (mercX, mercY) == ProjectRings(n, rs)
  {
    assert mercX == ProjectRings(n, rs).0;
    assert mercY == ProjectRings(n, rs).1;
  }

  /**
   * `_get_polygon_coords`: runs the standard extractor, then projects the
   * zipped x and y ring lists. The result has the standard extractor's ring
   * count and order, every ring keeps the standard ring's length (closing
   * point already dropped), and the x and y lists stay paired.
   */
  method GetPolygonCoords(n: Numerics, exterior: Ring, interiors: seq<Ring>)
    returns (mercX: seq<seq<real>>, mercY: seq<seq<real>>)
    ensures (mercX, mercY) == PolygonCoords(n, exterior, interiors)
  {
    var geoX, geoY := StandardCoords.GetPolygonCoords(exterior, interiors);
    mercX, mercY := ProjectColumns(n, geoX, geoY);
    ProjectedColumns(n, StandardCoords.Rings(exterior, interiors), geoX, geoY, mercX, mercY);
  }

  /**
   * The loop of `_get_polygon_coords` over `zip(x, y)`: each ring's two
   * columns are projected as one batch, the y column giving the output x.
   */
  method ProjectColumns(n: Numerics, geoX: seq<seq<real>>, geoY: seq<seq<real>>)
    returns (mercX: seq<seq<real>>, mercY: seq<seq<real>>)
    requires |geoX| == |geoY|
    requires forall k | 0 <= k < |geoX| :: |geoX[k]| == |geoY[k]|
    ensures |mercX| == |mercY| == |geoX|
    ensures forall k | 0 <= k < |geoX| :: mercX[k] == MapLng(n, geoY[k]) && mercY[k] == MapLat(n, geoX[k])
  {
    mercX, mercY := [], [];
    var i := 0;
    while i < |geoX| && i < |geoY|
      invariant 0 <= i <= |geoX|
      invariant |mercX| == |mercY| == i
      invariant forall k | 0 <= k < i :: mercX[k] == MapLng(n, geoY[k]) && mercY[k] == MapLat(n, geoX[k])
    {
      var merc := GeographicToMercatorAll(n, geoX[i], geoY[i]);
      mercX := mercX + [merc.0];
      mercY := mercY + [merc.1];
      i := i + 1;
    }
  }
}
