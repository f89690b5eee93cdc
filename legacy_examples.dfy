/** Literal inputs and expected results for the older `WKTPlot` helpers. */
module LegacyExamples {
  import opened Wrappers
  import opened Geometry
  import opened Renderer
  import opened LegacyPlot
  import LegacyProperties
  import StandardCoords

  /** `MULTIPOINT ((10 40), (40 30), (20 20), (30 10))`: a single `circle` call with both columns. */
  lemma MultiPointOneCircle(style: Style)
    ensures PointsRun(MultiPoint([
        Point(Some(Coord(10.0, 40.0))), Point(Some(Coord(40.0, 30.0))),
        Point(Some(Coord(20.0, 20.0))), Point(Some(Coord(30.0, 10.0)))]), style)
      == Run([Circle(Column([10.0, 40.0, 20.0, 30.0]), Column([40.0, 30.0, 20.0, 10.0]), style)], None)
  {
    var ps := [Point(Some(Coord(10.0, 40.0))), Point(Some(Coord(40.0, 30.0))),
               Point(Some(Coord(20.0, 20.0))), Point(Some(Coord(30.0, 10.0)))];
    assert !IsEmpty(ps[0]);
    assert MemberXs(ps) == [10.0, 40.0, 20.0, 30.0];
    assert MemberYs(ps) == [40.0, 30.0, 20.0, 10.0];
  }

  /** `POINT (30 10)`: one-element columns. */
  lemma PointOneElementColumns(style: Style)
    ensures PointsRun(Point(Some(Coord(30.0, 10.0))), style)
      == Run([Circle(Column([30.0]), Column([10.0]), style)], None)
  {
  }

  /**
   * `MULTIPOLYGON (((40 40, 20 45, 45 30, 40 40)), ((20 35, 10 30, 10 10, 30 5, 45 20, 20 35), (30 20, 20 15, 20 25, 30 20)))`:
   * `_get_poly_coordinates` returns the three rings, without their closing points, in one list pair.
   */
  lemma HollowMultiPolygonRings()
    ensures PolyRings(MultiPolygon([
        Polygon([Coord(40.0, 40.0), Coord(20.0, 45.0), Coord(45.0, 30.0), Coord(40.0, 40.0)], []),
        Polygon([Coord(20.0, 35.0), Coord(10.0, 30.0), Coord(10.0, 10.0), Coord(30.0, 5.0), Coord(45.0, 20.0), Coord(20.0, 35.0)],
                [[Coord(30.0, 20.0), Coord(20.0, 15.0), Coord(20.0, 25.0), Coord(30.0, 20.0)]])])).Success?
    ensures var rs := PolyRings(MultiPolygon([
        Polygon([Coord(40.0, 40.0), Coord(20.0, 45.0), Coord(45.0, 30.0), Coord(40.0, 40.0)], []),
        Polygon([Coord(20.0, 35.0), Coord(10.0, 30.0), Coord(10.0, 10.0), Coord(30.0, 5.0), Coord(45.0, 20.0), Coord(20.0, 35.0)],
                [[Coord(30.0, 20.0), Coord(20.0, 15.0), Coord(20.0, 25.0), Coord(30.0, 20.0)]])])).value;
      && XsAll(rs) == [[40.0, 20.0, 45.0], [20.0, 10.0, 10.0, 30.0, 45.0], [30.0, 20.0, 20.0]]
      && YsAll(rs) == [[40.0, 45.0, 30.0], [35.0, 30.0, 10.0, 5.0, 20.0], [20.0, 15.0, 25.0]]
  {
    var a := [Coord(40.0, 40.0), Coord(20.0, 45.0), Coord(45.0, 30.0), Coord(40.0, 40.0)];
    var b := [Coord(20.0, 35.0), Coord(10.0, 30.0), Coord(10.0, 10.0), Coord(30.0, 5.0), Coord(45.0, 20.0), Coord(20.0, 35.0)];
    var hole := [Coord(30.0, 20.0), Coord(20.0, 15.0), Coord(20.0, 25.0), Coord(30.0, 20.0)];
    var ps := [Polygon(a, []), Polygon(b, [hole])];
    LegacyProperties.MultiPolygonRings(ps);
    assert StandardCoords.Rings(a, []) == [a[..3]];
    assert StandardCoords.Rings(b, [hole]) == [b[..5], hole[..3]];
    assert LegacyProperties.FlatRings(ps[1..]) == [b[..5], hole[..3]];
    var rs := [a[..3], b[..5], hole[..3]];
    assert LegacyProperties.FlatRings(ps) == rs;
    assert Xs(rs[0]) == [40.0, 20.0, 45.0] && Ys(rs[0]) == [40.0, 45.0, 30.0];
    assert Xs(rs[1]) == [20.0, 10.0, 10.0, 30.0, 45.0] && Ys(rs[1]) == [35.0, 30.0, 10.0, 5.0, 20.0];
    assert Xs(rs[2]) == [30.0, 20.0, 20.0] && Ys(rs[2]) == [20.0, 15.0, 25.0];
  }

  /** `LINEARRING (10 20, 20 25, 35 50, 10 20)` given to `_get_poly_coordinates` raises TypeError. */
  lemma LinearRingIsNotAPolygon()
    ensures PolyRings(LinearRing([Coord(10.0, 20.0), Coord(20.0, 25.0), Coord(35.0, 50.0), Coord(10.0, 20.0)]))
      == Failure(TypeError("LinearRing"))
  {
  }
}
