/** Literal inputs and expected drawing calls for the current mapper. */
module MapperExamples {
  import opened Wrappers
  import opened Geometry
  import opened Renderer
  import opened Mapper
  import StandardCoords
  import MapperProperties

  /** `POLYGON ((35 10, 45 45, 15 40, 10 20, 35 10), (20 30, 35 35, 30 20, 20 30))`. */
  lemma HollowPolygon(style: Style)
    ensures Plot(StandardMapper, Polygon(
        [Coord(35.0, 10.0), Coord(45.0, 45.0), Coord(15.0, 40.0), Coord(10.0, 20.0), Coord(35.0, 10.0)],
        [[Coord(20.0, 30.0), Coord(35.0, 35.0), Coord(30.0, 20.0), Coord(20.0, 30.0)]]), style)
      == Run([MultiPolygons(
           [[[[35.0, 45.0, 15.0, 10.0], [20.0, 35.0, 30.0]]]],
           [[[[10.0, 45.0, 40.0, 20.0], [30.0, 35.0, 20.0]]]], style)], None)
  {
    var ext := [Coord(35.0, 10.0), Coord(45.0, 45.0), Coord(15.0, 40.0), Coord(10.0, 20.0), Coord(35.0, 10.0)];
    var hole := [Coord(20.0, 30.0), Coord(35.0, 35.0), Coord(30.0, 20.0), Coord(20.0, 30.0)];
    var rs := [ext[..4], hole[..3]];
    assert StandardCoords.Rings(ext, [hole]) == rs;
    assert Xs(rs[0]) == [35.0, 45.0, 15.0, 10.0] && Ys(rs[0]) == [10.0, 45.0, 40.0, 20.0];
    assert Xs(rs[1]) == [20.0, 35.0, 30.0] && Ys(rs[1]) == [30.0, 35.0, 20.0];
    assert XsAll(rs) == [[35.0, 45.0, 15.0, 10.0], [20.0, 35.0, 30.0]];
    assert YsAll(rs) == [[10.0, 45.0, 40.0, 20.0], [30.0, 35.0, 20.0]];
  }

  /**
   * `MULTIPOLYGON (((30 20, 45 40, 10 40, 30 20)), ((15 5, 40 10, 10 20, 5 10, 15 5)))`:
   * one `multi_polygons` call per member polygon, in order.
   */
  lemma TwoPolygons(style: Style)
    ensures Plot(StandardMapper, MultiPolygon([
        Polygon([Coord(30.0, 20.0), Coord(45.0, 40.0), Coord(10.0, 40.0), Coord(30.0, 20.0)], []),
        Polygon([Coord(15.0, 5.0), Coord(40.0, 10.0), Coord(10.0, 20.0), Coord(5.0, 10.0), Coord(15.0, 5.0)], [])]), style)
      == Run([MultiPolygons([[[[30.0, 45.0, 10.0]]]], [[[[20.0, 40.0, 40.0]]]], style),
              MultiPolygons([[[[15.0, 40.0, 10.0, 5.0]]]], [[[[5.0, 10.0, 20.0, 10.0]]]], style)], None)
  {
    var a := [Coord(30.0, 20.0), Coord(45.0, 40.0), Coord(10.0, 40.0), Coord(30.0, 20.0)];
    var b := [Coord(15.0, 5.0), Coord(40.0, 10.0), Coord(10.0, 20.0), Coord(5.0, 10.0), Coord(15.0, 5.0)];
    var ps := [Polygon(a, []), Polygon(b, [])];
    FirstTriangle(style);
    Quadrilateral(style);
    assert !IsEmpty(ps[0]);
    MapperProperties.PartsConcatenate(StandardMapper, ps, style);
    assert ps[1..] == [ps[1]] && ps[1..][1..] == [];
  }

  lemma FirstTriangle(style: Style)
    ensures Plot(StandardMapper, Polygon([Coord(30.0, 20.0), Coord(45.0, 40.0), Coord(10.0, 40.0), Coord(30.0, 20.0)], []), style)
      == Run([MultiPolygons([[[[30.0, 45.0, 10.0]]]], [[[[20.0, 40.0, 40.0]]]], style)], None)
  {
    var a := [Coord(30.0, 20.0), Coord(45.0, 40.0), Coord(10.0, 40.0), Coord(30.0, 20.0)];
    assert StandardCoords.Rings(a, []) == [a[..3]];
    assert Xs(a[..3]) == [30.0, 45.0, 10.0] && Ys(a[..3]) == [20.0, 40.0, 40.0];
    assert XsAll([a[..3]]) == [[30.0, 45.0, 10.0]] && YsAll([a[..3]]) == [[20.0, 40.0, 40.0]];
  }

  lemma Quadrilateral(style: Style)
    ensures Plot(StandardMapper, Polygon([Coord(15.0, 5.0), Coord(40.0, 10.0), Coord(10.0, 20.0), Coord(5.0, 10.0), Coord(15.0, 5.0)], []), style)
      == Run([MultiPolygons([[[[15.0, 40.0, 10.0, 5.0]]]], [[[[5.0, 10.0, 20.0, 10.0]]]], style)], None)
  {
    var b := [Coord(15.0, 5.0), Coord(40.0, 10.0), Coord(10.0, 20.0), Coord(5.0, 10.0), Coord(15.0, 5.0)];
    assert StandardCoords.Rings(b, []) == [b[..4]];
    assert Xs(b[..4]) == [15.0, 40.0, 10.0, 5.0] && Ys(b[..4]) == [5.0, 10.0, 20.0, 10.0];
    assert XsAll([b[..4]]) == [[15.0, 40.0, 10.0, 5.0]] && YsAll([b[..4]]) == [[5.0, 10.0, 20.0, 10.0]];
  }

  /**
   * `GEOMETRYCOLLECTION (POINT (40 10), LINESTRING (10 10, 20 20, 10 40), POLYGON ((40 40, 20 45, 45 30, 40 40)))`:
   * a circle, a line and a polygon, in that order.
   */
  lemma MixedCollection(style: Style)
    ensures Plot(StandardMapper, GeometryCollection([
        Point(Some(Coord(40.0, 10.0))),
        LineString([Coord(10.0, 10.0), Coord(20.0, 20.0), Coord(10.0, 40.0)]),
        Polygon([Coord(40.0, 40.0), Coord(20.0, 45.0), Coord(45.0, 30.0), Coord(40.0, 40.0)], [])]), style)
      == Run([Circle(Scalar(40.0), Scalar(10.0), style),
              Line([10.0, 20.0, 10.0], [10.0, 20.0, 40.0], style),
              MultiPolygons([[[[40.0, 20.0, 45.0]]]], [[[[40.0, 45.0, 30.0]]]], style)], None)
  {
    var line := [Coord(10.0, 10.0), Coord(20.0, 20.0), Coord(10.0, 40.0)];
    var tri := [Coord(40.0, 40.0), Coord(20.0, 45.0), Coord(45.0, 30.0), Coord(40.0, 40.0)];
    var ps := [Point(Some(Coord(40.0, 10.0))), LineString(line), Polygon(tri, [])];
    CollectionLine(style);
    CollectionTriangle(style);
    assert !IsEmpty(ps[0]);
    MapperProperties.PartsConcatenate(StandardMapper, ps, style);
    assert ps[1..] == [ps[1], ps[2]] && ps[1..][1..] == [ps[2]];
  }

  lemma CollectionLine(style: Style)
    ensures Plot(StandardMapper, LineString([Coord(10.0, 10.0), Coord(20.0, 20.0), Coord(10.0, 40.0)]), style)
      == Run([Line([10.0, 20.0, 10.0], [10.0, 20.0, 40.0], style)], None)
  {
    var line := [Coord(10.0, 10.0), Coord(20.0, 20.0), Coord(10.0, 40.0)];
    assert Xs(line) == [10.0, 20.0, 10.0] && Ys(line) == [10.0, 20.0, 40.0];
  }

  lemma CollectionTriangle(style: Style)
    ensures Plot(StandardMapper, Polygon([Coord(40.0, 40.0), Coord(20.0, 45.0), Coord(45.0, 30.0), Coord(40.0, 40.0)], []), style)
      == Run([MultiPolygons([[[[40.0, 20.0, 45.0]]]], [[[[40.0, 45.0, 30.0]]]], style)], None)
  {
    var tri := [Coord(40.0, 40.0), Coord(20.0, 45.0), Coord(45.0, 30.0), Coord(40.0, 40.0)];
    assert StandardCoords.Rings(tri, []) == [tri[..3]];
    assert Xs(tri[..3]) == [40.0, 20.0, 45.0] && Ys(tri[..3]) == [40.0, 45.0, 30.0];
    assert XsAll([tri[..3]]) == [[40.0, 20.0, 45.0]] && YsAll([tri[..3]]) == [[40.0, 45.0, 30.0]];
  }

  /** `POINT EMPTY` draws nothing and raises nothing. */
  lemma EmptyPoint(style: Style)
    ensures Plot(StandardMapper, Point(None), style) == Done
  {
  }
}
