/**
 * What the older `WKTPlot` (src/wktplot/wktplot.py) promises, and where it
 * differs observably from the current `StandardMapper`.
 */
module LegacyProperties {
  import opened Wrappers
  import opened Geometry
  import opened Renderer
  import opened LegacyPlot
  import Mapper
  import MapperProperties
  import StandardCoords

  /** An empty shape draws nothing and raises nothing, whatever its kind. */
  lemma EmptyReturns(g: Geometry, style: Style)
    requires WellFormed(g) && IsEmpty(g)
    ensures Plot(g, style) == Done
  {
  }

  /** A non-empty kind outside the eight raises NotImplementedError before any drawing call. */
  lemma UnknownKindRaises(g: Geometry, style: Style)
    requires g.Other? && !IsEmpty(g)
    ensures Plot(g, style) == Run([], Some(NotImplementedError(g.typeName)))
  {
  }

  /** Each helper raises TypeError, naming the type, on a non-empty shape of another family and draws nothing. */
  lemma HelpersRejectOtherFamilies(g: Geometry, style: Style)
    requires WellFormed(g) && !IsEmpty(g)
    ensures !(g.Point? || g.MultiPoint?) ==> PointsRun(g, style) == Run([], Some(TypeError(TypeName(g))))
    ensures !(g.LineString? || g.MultiLineString? || g.LinearRing?) ==> LinesRun(g, style) == Run([], Some(TypeError(TypeName(g))))
    ensures !(g.Polygon? || g.MultiPolygon?) ==> PolysRun(g, style) == Run([], Some(TypeError(TypeName(g))))
    ensures !(g.Polygon? || g.MultiPolygon?) ==> PolyRings(g) == Failure(TypeError(TypeName(g)))
  {
  }

  /**
   * Emptiness is checked before kind: an empty unknown kind is silently
   * skipped here, where `StandardMapper` raises TypeError.
   */
  lemma EmptyUnknownKind(name: string, style: Style)
    ensures Plot(Other(name, true), style) == Done
    ensures Mapper.Plot(Mapper.StandardMapper, Other(name, true), style) == Run([], Some(TypeError(name)))
  {
  }

  /** The rings a polygon contributes: exterior first, each without its last point. */
  function RingsOf(p: Geometry): seq<Ring>
    requires p.Polygon?
  {
    StandardCoords.Rings(p.exterior, p.interiors)
  }

  /** The ring lists of `ps`, end to end. */
  function FlatRings(ps: seq<Geometry>): seq<Ring>
    requires forall i | 0 <= i < |ps| :: ps[i].Polygon?
  {
    if |ps| == 0 then [] else RingsOf(ps[0]) + FlatRings(ps[1..])
  }

  /** The number of rings of a polygon list: one exterior plus the interiors, per polygon. */
  function RingCount(ps: seq<Geometry>): nat
    requires forall i | 0 <= i < |ps| :: ps[i].Polygon?
  {
    if |ps| == 0 then 0 else 1 + |ps[0].interiors| + RingCount(ps[1..])
  }

  /**
   * `_get_poly_coordinates` on a MultiPolygon never raises and returns the
   * ring lists of its polygons concatenated in order.
   */
  lemma {:induction false} MultiPolygonRings(ps: seq<Geometry>)
    requires forall i | 0 <= i < |ps| :: ps[i].Polygon?
    ensures PolyRingsAll(ps) == Success(FlatRings(ps))
    ensures |FlatRings(ps)| == RingCount(ps)
  {
    if |ps| > 0 {
      MultiPolygonRings(ps[1..]);
    }
  }

  /**
   * `_plot_polys` on a non-empty MultiPolygon issues a single
   * `multi_polygons` call: one multi-polygon holding one polygon whose
   * ring lists are all the rings of all members, in order.
   */
  lemma MultiPolygonOneEntry(ps: seq<Geometry>, style: Style)
    requires WellFormed(MultiPolygon(ps)) && !IsEmpty(MultiPolygon(ps))
    ensures Plot(MultiPolygon(ps), style)
      == Run([MultiPolygons([[XsAll(FlatRings(ps))]], [[YsAll(FlatRings(ps))]], style)], None)
    ensures |XsAll(FlatRings(ps))| == |YsAll(FlatRings(ps))| == RingCount(ps)
  {
    MultiPolygonRings(ps);
  }

  /** Shapes with no unknown non-empty kind anywhere inside. */
  predicate NoUnknownKind(g: Geometry)
    decreases g
  {
    match g
    case Other(_, e) => e
    case GeometryCollection(ps) => forall i | 0 <= i < |ps| :: NoUnknownKind(ps[i])
    case _ => true
  }

  /** A well-formed shape built from the eight kinds is always plotted without an exception. */
  lemma {:induction false} NeverFails(g: Geometry, style: Style)
    requires WellFormed(g) && NoUnknownKind(g)
    ensures Plot(g, style).failure == None
    decreases g
  {
    if !IsEmpty(g) && g.MultiPolygon? {
      MultiPolygonRings(g.geoms);
    } else if !IsEmpty(g) && g.GeometryCollection? {
      NeverFailsAll(g.geoms, style);
    }
  }

  lemma {:induction false} NeverFailsAll(ps: seq<Geometry>, style: Style)
    requires forall i | 0 <= i < |ps| :: WellFormed(ps[i]) && NoUnknownKind(ps[i])
    ensures PlotAll(ps, style).failure == None
    decreases ps
  {
    if |ps| > 0 {
      NeverFails(ps[0], style);
      NeverFailsAll(ps[1..], style);
    }
  }

  /** The style map reaches every drawing call unchanged. */
  lemma {:induction false} StyleForwarded(g: Geometry, style: Style)
    requires WellFormed(g)
    ensures forall c | c in Plot(g, style).calls :: c.style == style
    decreases g
  {
    if !IsEmpty(g) && g.GeometryCollection? {
      StyleForwardedAll(g.geoms, style);
    }
  }

  lemma {:induction false} StyleForwardedAll(ps: seq<Geometry>, style: Style)
    requires forall i | 0 <= i < |ps| :: WellFormed(ps[i])
    ensures forall c | c in PlotAll(ps, style).calls :: c.style == style
    decreases ps
  {
    if |ps| > 0 {
      StyleForwarded(ps[0], style);
      StyleForwardedAll(ps[1..], style);
    }
  }

  /** A list of non-empty points. */
  predicate SolidPoints(ps: seq<Geometry>) {
    forall i | 0 <= i < |ps| :: ps[i].Point? && ps[i].position.Some?
  }

  lemma {:induction false} SolidPointsDrawn(ps: seq<Geometry>)
    requires SolidPoints(ps)
    ensures MapperProperties.DrawnAll(ps) == |ps|
  {
    if |ps| > 0 {
      SolidPointsDrawn(ps[1..]);
    }
  }

  /**
   * A non-empty MultiPoint is batched into one `circle` call holding every
   * member in order, where `StandardMapper` issues one call per member.
   */
  lemma MultiPointBatched(ps: seq<Geometry>, style: Style)
    requires |ps| > 0 && SolidPoints(ps)
    ensures var r := Plot(MultiPoint(ps), style);
      && r.failure == None && |r.calls| == 1 && r.calls[0].Circle?
      && r.calls[0].x.Column? && |r.calls[0].x.vs| == |ps|
      && (forall i | 0 <= i < |ps| :: r.calls[0].x.vs[i] == ps[i].position.value.x)
      && r.calls[0].y.Column? && |r.calls[0].y.vs| == |ps|
      && (forall i | 0 <= i < |ps| :: r.calls[0].y.vs[i] == ps[i].position.value.y)
    ensures |Mapper.Plot(Mapper.StandardMapper, MultiPoint(ps), style).calls| == |ps|
  {
    assert !IsEmpty(ps[0]);
    assert !IsEmpty(MultiPoint(ps));
    assert Plot(MultiPoint(ps), style) == PointsRun(MultiPoint(ps), style);
    SolidPointsDrawn(ps);
    MapperProperties.OneCallPerPrimitive(Mapper.StandardMapper, MultiPoint(ps), style);
  }

  /** A list of non-empty line strings. */
  predicate SolidLines(ps: seq<Geometry>) {
    forall i | 0 <= i < |ps| :: ps[i].LineString? && |ps[i].coords| > 0
  }

  lemma {:induction false} SolidLinesDrawn(ps: seq<Geometry>)
    requires SolidLines(ps)
    ensures MapperProperties.DrawnAll(ps) == |ps|
  {
    if |ps| > 0 {
      SolidLinesDrawn(ps[1..]);
    }
  }

  /**
   * A non-empty MultiLineString is batched into one `multi_line` call with
   * one x list and one y list per member, in order, empty members included,
   * where `StandardMapper` issues one `line` call per non-empty member.
   */
  lemma MultiLineBatched(ps: seq<Geometry>, style: Style)
    requires WellFormed(MultiLineString(ps)) && !IsEmpty(MultiLineString(ps))
    ensures var r := Plot(MultiLineString(ps), style);
      && r.failure == None && |r.calls| == 1 && r.calls[0].MultiLine?
      && |r.calls[0].xss| == |r.calls[0].yss| == |ps|
      && (forall i | 0 <= i < |ps| :: r.calls[0].xss[i] == Xs(ps[i].coords) && r.calls[0].yss[i] == Ys(ps[i].coords))
    ensures |Mapper.Plot(Mapper.StandardMapper, MultiLineString(ps), style).calls| == MapperProperties.DrawnAll(ps)
    ensures SolidLines(ps) ==> |Mapper.Plot(Mapper.StandardMapper, MultiLineString(ps), style).calls| == |ps|
  {
    assert Plot(MultiLineString(ps), style) == LinesRun(MultiLineString(ps), style);
    MapperProperties.OneCallPerPrimitive(Mapper.StandardMapper, MultiLineString(ps), style);
    if SolidLines(ps) {
      SolidLinesDrawn(ps);
    }
  }

  /** A LinearRing is drawn as one `line` call that keeps its closing point. */
  lemma LinearRingKeepsClosingPoint(cs: seq<Coord>, style: Style)
    requires |cs| > 0 && Closed(cs)
    ensures var r := Plot(LinearRing(cs), style);
      && r == Run([Line(Xs(cs), Ys(cs), style)], None)
      && |r.calls[0].xs| == |cs| && r.calls[0].xs[|cs| - 1] == r.calls[0].xs[0]
  {
  }
}
