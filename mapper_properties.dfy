/**
 * What `add_shape` promises, stated over its specification `Mapper.Plot`:
 * the type gate, the empty short-circuit, concatenation in part order, one
 * call per non-empty primitive, verbatim style forwarding, and that the
 * OpenStreetMap mapper is the standard mapper followed by the projection.
 */
module MapperProperties {
  import opened Wrappers
  import opened Geometry
  import opened Renderer
  import opened Mercator
  import StandardCoords
  import OsmCoords
  import opened Mapper

  /** An unsupported kind raises TypeError naming it, with no drawing call, even when it is empty. */
  lemma TypeGate(cls: MapperClass, g: Geometry, style: Style)
    requires !Supported(g)
    ensures Plot(cls, g, style) == Run([], Some(TypeError(TypeName(g))))
  {
  }

  /** A supported empty shape draws nothing and raises nothing. */
  lemma EmptyShortCircuit(cls: MapperClass, g: Geometry, style: Style)
    requires Supported(g) && IsEmpty(g)
    ensures Plot(cls, g, style) == Done
  {
  }

  /** A non-empty point draws one circle at its own scalar x and y. */
  lemma StandardPoint(p: Coord, style: Style)
    ensures Plot(StandardMapper, Point(Some(p)), style) == Run([Circle(Scalar(p.x), Scalar(p.y), style)], None)
  {
  }

  /** A non-empty line string or linear ring draws one line through all its coordinates in order. */
  lemma StandardLine(cs: seq<Coord>, style: Style)
    requires |cs| > 0
    ensures Plot(StandardMapper, LineString(cs), style) == Run([Line(Xs(cs), Ys(cs), style)], None)
    ensures Plot(StandardMapper, LinearRing(cs), style) == Run([Line(Xs(cs), Ys(cs), style)], None)
  {
  }

  /** A linear ring is drawn with its closing point: the line ends where it starts. */
  lemma LinearRingKeepsClosingPoint(cs: seq<Coord>, style: Style)
    requires |cs| > 0 && Closed(cs)
    ensures var calls := Plot(StandardMapper, LinearRing(cs), style).calls;
      && |calls| == 1 && calls[0].Line?
      && |calls[0].xs| == |cs| && |calls[0].ys| == |cs|
      && calls[0].xs[|cs| - 1] == calls[0].xs[0]
      && calls[0].ys[|cs| - 1] == calls[0].ys[0]
  {
  }

  /** A non-empty polygon draws one `multi_polygons([[x]], [[y]])` call over its opened rings. */
  lemma StandardPolygon(exterior: Ring, interiors: seq<Ring>, style: Style)
    requires |exterior| > 0
    ensures var rs := StandardCoords.Rings(exterior, interiors);
      Plot(StandardMapper, Polygon(exterior, interiors), style)
        == Run([MultiPolygons([[XsAll(rs)]], [[YsAll(rs)]], style)], None)
  {
  }

  /** The calls of each part on its own, end to end. */
  function PartCalls(cls: MapperClass, ps: seq<Geometry>, style: Style): seq<Call>
    decreases ps
  {
    if |ps| == 0 then [] else Plot(cls, ps[0], style).calls + PartCalls(cls, ps[1..], style)
  }

  /**
   * A non-empty multi-part shape plots as its parts in order, with the same
   * style; when no part raises, the calls are each part's calls end to end.
   */
  lemma MultipartInOrder(cls: MapperClass, g: Geometry, style: Style)
    requires IsMultipart(g) && !IsEmpty(g)
    ensures Plot(cls, g, style) == PlotAll(cls, g.geoms, style)
    ensures (forall k | 0 <= k < |g.geoms| :: Plot(cls, g.geoms[k], style).failure == None)
      ==> Plot(cls, g, style) == Run(PartCalls(cls, g.geoms, style), None)
  {
    if forall k | 0 <= k < |g.geoms| :: Plot(cls, g.geoms[k], style).failure == None {
      PartsConcatenate(cls, g.geoms, style);
    }
  }

  /**
   * Split at any point, the parts plot as those before it and then (unless
   * one of them raised) those after it.
   */
  lemma PlotAllSplits(cls: MapperClass, ps: seq<Geometry>, style: Style)
    ensures forall k | 0 <= k <= |ps| ::
      PlotAll(cls, ps, style) == Then(PlotAll(cls, ps[..k], style), PlotAll(cls, ps[k..], style))
  {
    forall k | 0 <= k <= |ps|
      ensures PlotAll(cls, ps, style) == Then(PlotAll(cls, ps[..k], style), PlotAll(cls, ps[k..], style))
    {
      assert ps == ps[..k] + ps[k..];
      PlotAllAppend(cls, ps[..k], ps[k..], style);
    }
  }

  /** When no part raises, plotting the parts issues each part's calls end to end. */
  lemma {:induction false} PartsConcatenate(cls: MapperClass, ps: seq<Geometry>, style: Style)
    requires forall k | 0 <= k < |ps| :: Plot(cls, ps[k], style).failure == None
    ensures PlotAll(cls, ps, style) == Run(PartCalls(cls, ps, style), None)
    decreases ps
  {
    if |ps| > 0 {
      PartsConcatenate(cls, ps[1..], style);
    }
  }

  /** Every kind at every depth is supported. */
  predicate AllSupported(g: Geometry)
    decreases g
  {
    Supported(g) && (IsMultipart(g) ==> forall i | 0 <= i < |g.geoms| :: AllSupported(g.geoms[i]))
  }

  /** A shape supported at every depth never raises. */
  lemma {:induction false} NeverFails(cls: MapperClass, g: Geometry, style: Style)
    requires AllSupported(g)
    ensures Plot(cls, g, style).failure == None
    decreases g
  {
    if !IsEmpty(g) && IsMultipart(g) {
      NeverFailsAll(cls, g.geoms, style);
    }
  }

  lemma {:induction false} NeverFailsAll(cls: MapperClass, ps: seq<Geometry>, style: Style)
    requires forall i | 0 <= i < |ps| :: AllSupported(ps[i])
    ensures PlotAll(cls, ps, style).failure == None
    decreases ps
  {
    if |ps| > 0 {
      NeverFails(cls, ps[0], style);
      NeverFailsAll(cls, ps[1..], style);
    }
  }

  /** The number of non-empty primitive shapes met by a depth-first walk that skips empty shapes. */
  function Drawn(g: Geometry): nat
    decreases g
  {
    if IsEmpty(g) then 0 else if IsMultipart(g) then DrawnAll(g.geoms) else 1
  }

  function DrawnAll(ps: seq<Geometry>): nat
    decreases ps
  {
    if |ps| == 0 then 0 else Drawn(ps[0]) + DrawnAll(ps[1..])
  }

  /** Exactly one drawing call per non-empty primitive, whichever mapper runs. */
  lemma {:induction false} OneCallPerPrimitive(cls: MapperClass, g: Geometry, style: Style)
    requires AllSupported(g)
    ensures |Plot(cls, g, style).calls| == Drawn(g)
    decreases g
  {
    if !IsEmpty(g) && IsMultipart(g) {
      OneCallPerPrimitiveAll(cls, g.geoms, style);
    }
  }

  lemma {:induction false} OneCallPerPrimitiveAll(cls: MapperClass, ps: seq<Geometry>, style: Style)
    requires forall i | 0 <= i < |ps| :: AllSupported(ps[i])
    ensures |PlotAll(cls, ps, style).calls| == DrawnAll(ps)
    decreases ps
  {
    if |ps| > 0 {
      OneCallPerPrimitive(cls, ps[0], style);
      NeverFails(cls, ps[0], style);
      OneCallPerPrimitiveAll(cls, ps[1..], style);
    }
  }

  /** The style map reaches every drawing call unchanged. */
  lemma {:induction false} StyleForwarded(cls: MapperClass, g: Geometry, style: Style)
    ensures forall c | c in Plot(cls, g, style).calls :: c.style == style
    decreases g
  {
    if Supported(g) && !IsEmpty(g) && IsMultipart(g) {
      StyleForwardedAll(cls, g.geoms, style);
    }
  }

  lemma {:induction false} StyleForwardedAll(cls: MapperClass, ps: seq<Geometry>, style: Style)
    ensures forall c | c in PlotAll(cls, ps, style).calls :: c.style == style
    decreases ps
  {
    if |ps| > 0 {
      StyleForwarded(cls, ps[0], style);
      StyleForwardedAll(cls, ps[1..], style);
    }
  }

  /** Projection of a circle argument used as the longitude (output x). */
  function LngOrdinate(n: Numerics, o: Ordinate): Ordinate {
    match o
    case Scalar(v) => Scalar(MercLng(n, v))
    case Column(vs) => Column(MapLng(n, vs))
  }

  /** Projection of a circle argument used as the latitude (output y). */
  function LatOrdinate(n: Numerics, o: Ordinate): Ordinate {
    match o
    case Scalar(v) => Scalar(MercLat(n, v))
    case Column(vs) => Column(MapLat(n, vs))
  }

  function LngLists(n: Numerics, l: seq<seq<real>>): seq<seq<real>> {
    seq(|l|, k requires 0 <= k < |l| => MapLng(n, l[k]))
  }

  function LatLists(n: Numerics, l: seq<seq<real>>): seq<seq<real>> {
    seq(|l|, k requires 0 <= k < |l| => MapLat(n, l[k]))
  }

  function LngNested(n: Numerics, l: seq<seq<seq<seq<real>>>>): seq<seq<seq<seq<real>>>> {
    seq(|l|, a requires 0 <= a < |l| =>
      seq(|l[a]|, b requires 0 <= b < |l[a]| => LngLists(n, l[a][b])))
  }

  function LatNested(n: Numerics, l: seq<seq<seq<seq<real>>>>): seq<seq<seq<seq<real>>>> {
    seq(|l|, a requires 0 <= a < |l| =>
      seq(|l[a]|, b requires 0 <= b < |l[a]| => LatLists(n, l[a][b])))
  }

  lemma NestedSingleton(n: Numerics, l: seq<seq<real>>)
    ensures LngNested(n, [[l]]) == [[LngLists(n, l)]]
    ensures LatNested(n, [[l]]) == [[LatLists(n, l)]]
  {
    var w := [[l]];
    assert w[0][0] == l;
    assert LngNested(n, w)[0] == [LngLists(n, l)];
    assert LatNested(n, w)[0] == [LatLists(n, l)];
  }

  /**
   * Projects the coordinates of one drawing call: the new x values are the
   * longitude results of the old y values, the new y values the latitude
   * results of the old x values; kind, nesting and style are kept.
   */
  function ProjectCall(n: Numerics, c: Call): Call {
    match c
    case Circle(x, y, st) => Circle(LngOrdinate(n, y), LatOrdinate(n, x), st)
    case Line(xs, ys, st) => Line(MapLng(n, ys), MapLat(n, xs), st)
    case MultiLine(xss, yss, st) => MultiLine(LngLists(n, yss), LatLists(n, xss), st)
    case MultiPolygons(xp, yp, st) => MultiPolygons(LngNested(n, yp), LatNested(n, xp), st)
  }

  function ProjectRun(n: Numerics, r: Run): (p: Run)
    ensures |p.calls| == |r.calls| && p.failure == r.failure
  {
    Run(seq(|r.calls|, i requires 0 <= i < |r.calls| => ProjectCall(n, r.calls[i])), r.failure)
  }

  lemma ProjectThen(n: Numerics, a: Run, b: Run)
    ensures ProjectRun(n, Then(a, b)) == Then(ProjectRun(n, a), ProjectRun(n, b))
  {
    if a.failure.None? {
      assert ProjectRun(n, Then(a, b)).calls == ProjectRun(n, a).calls + ProjectRun(n, b).calls;
    }
  }

  /** The polygon call of the projecting mapper is the standard polygon call projected. */
  lemma ProjectPolygonCall(n: Numerics, exterior: Ring, interiors: seq<Ring>, style: Style)
    ensures var std := PolygonCoords(StandardMapper, exterior, interiors);
      var osm := PolygonCoords(OpenStreetMapper(n), exterior, interiors);
      ProjectCall(n, MultiPolygons([[std.0]], [[std.1]], style)) == MultiPolygons([[osm.0]], [[osm.1]], style)
  {
    var rs := StandardCoords.Rings(exterior, interiors);
    var osm := OsmCoords.ProjectRings(n, rs);
    assert LngLists(n, YsAll(rs)) == osm.0;
    assert LatLists(n, XsAll(rs)) == osm.1;
    NestedSingleton(n, YsAll(rs));
    NestedSingleton(n, XsAll(rs));
  }

  /**
   * `OpenStreetMapper.add_shape` is `StandardMapper.add_shape` with every
   * drawing call's coordinates projected: same type gate, same empty
   * short-circuit, same calls in the same order, same exception.
   */
  lemma {:induction false} OsmIsProjectedStandard(n: Numerics, g: Geometry, style: Style)
    ensures Plot(OpenStreetMapper(n), g, style) == ProjectRun(n, Plot(StandardMapper, g, style))
    decreases g
  {
    if !Supported(g) || IsEmpty(g) {
    } else if IsMultipart(g) {
      OsmIsProjectedStandardAll(n, g.geoms, style);
    } else if g.Point? {
    } else if g.LineString? || g.LinearRing? {
      var std := LineStringCoords(StandardMapper, g.coords);
      var osm := LineStringCoords(OpenStreetMapper(n), g.coords);
      assert MapLng(n, std.1) == osm.0 && MapLat(n, std.0) == osm.1;
    } else if g.Polygon? {
      ProjectPolygonCall(n, g.exterior, g.interiors, style);
    }
  }

  lemma {:induction false} OsmIsProjectedStandardAll(n: Numerics, ps: seq<Geometry>, style: Style)
    ensures PlotAll(OpenStreetMapper(n), ps, style) == ProjectRun(n, PlotAll(StandardMapper, ps, style))
    decreases ps
  {
    if |ps| > 0 {
      OsmIsProjectedStandard(n, ps[0], style);
      OsmIsProjectedStandardAll(n, ps[1..], style);
      ProjectThen(n, Plot(StandardMapper, ps[0], style), PlotAll(StandardMapper, ps[1..], style));
    }
  }
}
