/**
 * `StandardMapper.add_shape` (src/wktplot/mappers/standard.py) and its reuse by
 * `OpenStreetMapper` (src/wktplot/mappers/osm.py), which inherits `add_shape`
 * and overrides only the three coordinate extractors. The classmethod's `cls`
 * is a `MapperClass` value that selects the extractors.
 */
module Mapper {
  import opened Wrappers
  import opened Geometry
  import opened Renderer
  import opened Mercator
  import StandardCoords
  import OsmCoords

  datatype MapperClass = StandardMapper | OpenStreetMapper(numerics: Numerics)

  /** `cls._get_point_coords`. */
  function PointCoords(cls: MapperClass, p: Coord): (real, real) {
    match cls
    case StandardMapper => StandardCoords.PointCoords(p)
    case OpenStreetMapper(n) => OsmCoords.PointCoords(n, p)
  }

  /** `cls._get_line_string_coords`. */
  function LineStringCoords(cls: MapperClass, cs: seq<Coord>): (seq<real>, seq<real>) {
    match cls
    case StandardMapper => StandardCoords.LineStringCoords(cs)
    case OpenStreetMapper(n) => OsmCoords.LineStringCoords(n, cs)
  }

  /** What `cls._get_polygon_coords` returns. */
  function PolygonCoords(cls: MapperClass, exterior: Ring, interiors: seq<Ring>): (seq<seq<real>>, seq<seq<real>>) {
    match cls
    case StandardMapper =>
      var rs := StandardCoords.Rings(exterior, interiors);
      (XsAll(rs), YsAll(rs))
    case OpenStreetMapper(n) => OsmCoords.PolygonCoords(n, exterior, interiors)
  }

  /** `cls._get_polygon_coords`, running the selected class's loop. */
  method GetPolygonCoords(cls: MapperClass, exterior: Ring, interiors: seq<Ring>)
    returns (x: seq<seq<real>>, y: seq<seq<real>>)
    ensures (x, y) == PolygonCoords(cls, exterior, interiors)
  {
    match cls
    case StandardMapper =>
      x, y := StandardCoords.GetPolygonCoords(exterior, interiors);
    case OpenStreetMapper(n) =>
      x, y := OsmCoords.GetPolygonCoords(n, exterior, interiors);
  }

  /**
   * The effect of `add_shape(figure, shape, **style)`: the type gate first,
   * then the empty short-circuit, then depth-first recursion over the parts of
   * a multi-part shape, and one drawing call per non-empty primitive. The
   * final branch is the source's fall-through after its `elif` chain.
   */
  function Plot(cls: MapperClass, g: Geometry, style: Style): Run
    decreases g
  {
    if !Supported(g) then Run([], Some(TypeError(TypeName(g))))
    else if IsEmpty(g) then Done
    else if IsMultipart(g) then PlotAll(cls, g.geoms, style)
    else if g.Point? then
      var xy := PointCoords(cls, g.position.value);
      Run([Circle(Scalar(xy.0), Scalar(xy.1), style)], None)
    else if g.LineString? || g.LinearRing? then
      var xy := LineStringCoords(cls, g.coords);
      Run([Line(xy.0, xy.1, style)], None)
    else if g.Polygon? then
      var xy := PolygonCoords(cls, g.exterior, g.interiors);
      Run([MultiPolygons([[xy.0]], [[xy.1]], style)], None)
    else Done
  }

  /** `for part in shape.geoms: cls.add_shape(figure, part, **style)`; an exception ends the loop. */
  function PlotAll(cls: MapperClass, ps: seq<Geometry>, style: Style): Run
    decreases ps
  {
    if |ps| == 0 then Done else Then(Plot(cls, ps[0], style), PlotAll(cls, ps[1..], style))
  }

  /** Plotting the parts of `a + b` is plotting those of `a`, then (unless that raised) those of `b`. */
  lemma {:induction false} PlotAllAppend(cls: MapperClass, a: seq<Geometry>, b: seq<Geometry>, style: Style)
    ensures PlotAll(cls, a + b, style) == Then(PlotAll(cls, a, style), PlotAll(cls, b, style))
  {
    if |a| == 0 {
      assert a + b == b;
    } else {
      assert (a + b)[0] == a[0];
      assert (a + b)[1..] == a[1..] + b;
      PlotAllAppend(cls, a[1..], b, style);
      ThenAssociative(Plot(cls, a[0], style), PlotAll(cls, a[1..], style), PlotAll(cls, b, style));
    }
  }

  /** One part on its own plots exactly as the part does. */
  lemma PlotAllSingle(cls: MapperClass, p: Geometry, style: Style)
    ensures PlotAll(cls, [p], style) == Plot(cls, p, style)
  {
    assert [p][1..] == [];
  }
  /**
   * One more part: the run over `ps[..i + 1]` is the run over `ps[..i]`
   * followed by part `i`, and once that raises, the rest is never plotted.
   */
  lemma PlotAllStep(cls: MapperClass, ps: seq<Geometry>, i: nat, style: Style)
    requires i < |ps|
    ensures PlotAll(cls, ps[..i + 1], style) == Then(PlotAll(cls, ps[..i], style), Plot(cls, ps[i], style))
    ensures PlotAll(cls, ps[..i + 1], style).failure.Some? ==> PlotAll(cls, ps, style) == PlotAll(cls, ps[..i + 1], style)
  {
    assert ps[..i + 1] == ps[..i] + [ps[i]];
    PlotAllAppend(cls, ps[..i], [ps[i]], style);
    PlotAllSingle(cls, ps[i], style);
    assert ps == ps[..i + 1] + ps[i + 1..];
    PlotAllAppend(cls, ps[..i + 1], ps[i + 1..], style);
  }


  /**
   * `add_shape`: appends to the figure exactly the calls `Plot` describes and
   * raises what it raises; on a TypeError at the top the figure is untouched.
   */
  method AddShape(cls: MapperClass, figure: Figure, shape: Geometry, style: Style)
    returns (failure: Option<Error>)
    modifies figure
    decreases shape
    ensures figure.calls == old(figure.calls) + Plot(cls, shape, style).calls
    ensures failure == Plot(cls, shape, style).failure
  {
    if !Supported(shape) {
      return Some(TypeError(TypeName(shape)));
    }
    if IsEmpty(shape) {
      return None;
    }
    if IsMultipart(shape) {
      failure := AddParts(cls, figure, shape.geoms, style);
      return;
    } else if shape.Point? {
      var (x, y) := PointCoords(cls, shape.position.value);
      figure.Circle(Scalar(x), Scalar(y), style);
    } else if shape.LineString? || shape.LinearRing? {
      var (x, y) := LineStringCoords(cls, shape.coords);
      figure.Line(x, y, style);
    } else if shape.Polygon? {
      var x, y := GetPolygonCoords(cls, shape.exterior, shape.interiors);
      figure.MultiPolygons([[x]], [[y]], style);
    }
    return None;
  }

  /** The loop of `add_shape` over `shape.geoms`: each part in order, stopping at the first exception. */
  method AddParts(cls: MapperClass, figure: Figure, parts: seq<Geometry>, style: Style)
    returns (failure: Option<Error>)
    modifies figure
    decreases parts
    ensures figure.calls == old(figure.calls) + PlotAll(cls, parts, style).calls
    ensures failure == PlotAll(cls, parts, style).failure
  {
    var i := 0;
    while i < |parts|
      invariant 0 <= i <= |parts|
      invariant figure.calls == old(figure.calls) + PlotAll(cls, parts[..i], style).calls
      invariant PlotAll(cls, parts[..i], style).failure == None
    {
      var f := AddShape(cls, figure, parts[i], style);
      PlotAllStep(cls, parts, i, style);
      if f.Some? {
        return f;
      }
      i := i + 1;
    }
    assert parts[..i] == parts;
    return None;
  }
}
