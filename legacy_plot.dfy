/**
 * The older `WKTPlot` class (src/wktplot/wktplot.py). Its only state is
 * `self.figure`, so its plotting methods are modelled as methods taking the
 * figure. It checks emptiness before kind, batches every multi-part shape
 * into one drawing call and raises NotImplementedError for kinds it does
 * not know.
 *
 * Each method is specified by a function describing its run: `PointsRun`
 * for `_plot_points`, `LinesRun` for `_plot_lines`, `PolyRings` for
 * `_get_poly_coordinates`, `PolysRun` for `_plot_polys` and `Plot` for
 * `add_shape`.
 */
module LegacyPlot {
  import opened Wrappers
  import opened Geometry
  import opened Renderer
  import StandardCoords
  import FileUtils
  import Utils

  /** The `point.x` of every MultiPoint member, in order. */
  function MemberXs(ps: seq<Geometry>): (xs: seq<real>)
    requires forall i | 0 <= i < |ps| :: ps[i].Point? && ps[i].position.Some?
    ensures |xs| == |ps|
    ensures forall i | 0 <= i < |ps| :: xs[i] == ps[i].position.value.x
  {
    seq(|ps|, i requires 0 <= i < |ps| && ps[i].Point? && ps[i].position.Some? => ps[i].position.value.x)
  }

  /** The `point.y` of every MultiPoint member, in order. */
  function MemberYs(ps: seq<Geometry>): (ys: seq<real>)
    requires forall i | 0 <= i < |ps| :: ps[i].Point? && ps[i].position.Some?
    ensures |ys| == |ps|
    ensures forall i | 0 <= i < |ps| :: ys[i] == ps[i].position.value.y
  {
    seq(|ps|, i requires 0 <= i < |ps| && ps[i].Point? && ps[i].position.Some? => ps[i].position.value.y)
  }

  /** The x list of every MultiLineString member, in order. */
  function LineXs(ps: seq<Geometry>): (xss: seq<seq<real>>)
    requires forall i | 0 <= i < |ps| :: ps[i].LineString?
    ensures |xss| == |ps|
    ensures forall i | 0 <= i < |ps| :: xss[i] == Xs(ps[i].coords)
  {
    seq(|ps|, i requires 0 <= i < |ps| && ps[i].LineString? => Xs(ps[i].coords))
  }

  /** The y list of every MultiLineString member, in order. */
  function LineYs(ps: seq<Geometry>): (yss: seq<seq<real>>)
    requires forall i | 0 <= i < |ps| :: ps[i].LineString?
    ensures |yss| == |ps|
    ensures forall i | 0 <= i < |ps| :: yss[i] == Ys(ps[i].coords)
  {
    seq(|ps|, i requires 0 <= i < |ps| && ps[i].LineString? => Ys(ps[i].coords))
  }

  /** What `_plot_points` does with `shape`. */
  function PointsRun(g: Geometry, style: Style): Run
    requires WellFormed(g)
  {
    if IsEmpty(g) then Done
    else if g.MultiPoint? then Run([Circle(Column(MemberXs(g.geoms)), Column(MemberYs(g.geoms)), style)], None)
    else if g.Point? then Run([Circle(Column([g.position.value.x]), Column([g.position.value.y]), style)], None)
    else Run([], Some(TypeError(TypeName(g))))
  }

  /** What `_plot_lines` does with `shape`. */
  function LinesRun(g: Geometry, style: Style): Run
    requires WellFormed(g)
  {
    if IsEmpty(g) then Done
    else if g.LineString? || g.LinearRing? then Run([Line(Xs(g.coords), Ys(g.coords), style)], None)
    else if g.MultiLineString? then Run([MultiLine(LineXs(g.geoms), LineYs(g.geoms), style)], None)
    else Run([], Some(TypeError(TypeName(g))))
  }

  /** The rings `_get_poly_coordinates` returns, or the TypeError it raises. */
  function PolyRings(g: Geometry): Result<seq<Ring>, Error>
    decreases g
  {
    if g.MultiPolygon? then PolyRingsAll(g.geoms)
    else if g.Polygon? then Success(StandardCoords.Rings(g.exterior, g.interiors))
    else Failure(TypeError(TypeName(g)))
  }

  /** `x += poly_x` over the sub-polygons; an exception ends the loop. */
  function PolyRingsAll(ps: seq<Geometry>): Result<seq<Ring>, Error>
    decreases ps
  {
    if |ps| == 0 then Success([]) else Concat(PolyRings(ps[0]), PolyRingsAll(ps[1..]))
  }

  /** The rings of `a` followed by those of `b`, or the first failure. */
  function Concat(a: Result<seq<Ring>, Error>, b: Result<seq<Ring>, Error>): (r: Result<seq<Ring>, Error>)
    ensures a.Failure? ==> r == a
    ensures a.Success? && b.Failure? ==> r == b
    ensures a.Success? && b.Success? ==> r == Success(a.value + b.value)
  {
    if a.Failure? then a else if b.Failure? then b else Success(a.value + b.value)
  }

  lemma ConcatAssociative(a: Result<seq<Ring>, Error>, b: Result<seq<Ring>, Error>, c: Result<seq<Ring>, Error>)
    ensures Concat(Concat(a, b), c) == Concat(a, Concat(b, c))
  {
    if a.Success? && b.Success? && c.Success? {
      assert a.value + b.value + c.value == a.value + (b.value + c.value);
    }
  }

  /** The rings of the sub-polygons of `a + b` are those of `a`, then those of `b`. */
  lemma {:induction false} PolyRingsAllAppend(a: seq<Geometry>, b: seq<Geometry>)
    ensures PolyRingsAll(a + b) == Concat(PolyRingsAll(a), PolyRingsAll(b))
  {
    if |a| == 0 {
      assert a + b == b;
      if PolyRingsAll(b).Success? {
        assert [] + PolyRingsAll(b).value == PolyRingsAll(b).value;
      }
    } else {
      assert (a + b)[0] == a[0];
      assert (a + b)[1..] == a[1..] + b;
      PolyRingsAllAppend(a[1..], b);
      ConcatAssociative(PolyRings(a[0]), PolyRingsAll(a[1..]), PolyRingsAll(b));
    }
  }

  lemma PolyRingsAllSingle(p: Geometry)
    ensures PolyRingsAll([p]) == PolyRings(p)
  {
    assert [p][1..] == [];
    if PolyRings(p).Success? {
      assert PolyRings(p).value + [] == PolyRings(p).value;
    }
  }

  /** What `_plot_polys` does with `shape`: all rings land in one polygon entry. */
  function PolysRun(g: Geometry, style: Style): Run {
    if IsEmpty(g) then Done
    else if !(g.Polygon? || g.MultiPolygon?) then Run([], Some(TypeError(TypeName(g))))
    else match PolyRings(g)
      case Failure(e) => Run([], Some(e))
      case Success(rs) => Run([MultiPolygons([[XsAll(rs)]], [[YsAll(rs)]], style)], None)
  }

  /** What `add_shape` does with `shape`. */
  function Plot(g: Geometry, style: Style): Run
    requires WellFormed(g)
    decreases g
  {
    if IsEmpty(g) then Done
    else if g.Point? || g.MultiPoint? then PointsRun(g, style)
    else if g.LineString? || g.MultiLineString? || g.LinearRing? then LinesRun(g, style)
    else if g.Polygon? || g.MultiPolygon? then PolysRun(g, style)
    else if g.GeometryCollection? then PlotAll(g.geoms, style)
    else Run([], Some(NotImplementedError(TypeName(g))))
  }

  /** `for poly in shape.geoms: self.add_shape(poly, **style_kwargs)`; an exception ends the loop. */
  function PlotAll(ps: seq<Geometry>, style: Style): Run
    requires forall i | 0 <= i < |ps| :: WellFormed(ps[i])
    decreases ps
  {
    if |ps| == 0 then Done else Then(Plot(ps[0], style), PlotAll(ps[1..], style))
  }

  lemma {:induction false} PlotAllAppend(a: seq<Geometry>, b: seq<Geometry>, style: Style)
    requires forall i | 0 <= i < |a| :: WellFormed(a[i])
    requires forall i | 0 <= i < |b| :: WellFormed(b[i])
    ensures forall i | 0 <= i < |a + b| :: WellFormed((a + b)[i])
    ensures PlotAll(a + b, style) == Then(PlotAll(a, style), PlotAll(b, style))
  {
    if |a| == 0 {
      assert a + b == b;
    } else {
      assert (a + b)[0] == a[0];
      assert (a + b)[1..] == a[1..] + b;
      PlotAllAppend(a[1..], b, style);
      ThenAssociative(Plot(a[0], style), PlotAll(a[1..], style), PlotAll(b, style));
    }
  }

  lemma PlotAllSingle(p: Geometry, style: Style)
    requires WellFormed(p)
    ensures PlotAll([p], style) == Plot(p, style)
  {
    assert [p][1..] == [];
  }
  /**
   * One more member: the run over `ps[..i + 1]` is the run over `ps[..i]`
   * followed by member `i`, and once that raises, the rest is never plotted.
   */
  lemma PlotAllStep(ps: seq<Geometry>, i: nat, style: Style)
    requires forall j | 0 <= j < |ps| :: WellFormed(ps[j])
    requires i < |ps|
    ensures PlotAll(ps[..i + 1], style) == Then(PlotAll(ps[..i], style), Plot(ps[i], style))
    ensures PlotAll(ps[..i + 1], style).failure.Some? ==> PlotAll(ps, style) == PlotAll(ps[..i + 1], style)
  {
    assert ps[..i + 1] == ps[..i] + [ps[i]];
    PlotAllAppend(ps[..i], [ps[i]], style);
    PlotAllSingle(ps[i], style);
    assert ps == ps[..i + 1] + ps[i + 1..];
    PlotAllAppend(ps[..i + 1], ps[i + 1..], style);
  }


  /** `_plot_points`: one `circle` call with every member's x and y, in order. */
  method PlotPoints(figure: Figure, shape: Geometry, style: Style) returns (failure: Option<Error>)
    requires WellFormed(shape)
    modifies figure
    ensures figure.calls == old(figure.calls) + PointsRun(shape, style).calls
    ensures failure == PointsRun(shape, style).failure
  {
    if IsEmpty(shape) {
      return None;
    }
    var x: seq<real>, y: seq<real> := [], [];
    if shape.MultiPoint? {
      var points := shape.geoms;
      var i := 0;
      while i < |points|
        invariant 0 <= i <= |points|
        invariant x == MemberXs(points[..i]) && y == MemberYs(points[..i])
      {
        var point := points[i].position.value;
        x := x + [point.x];
        y := y + [point.y];
        i := i + 1;
      }
      assert points[..i] == points;
    } else if shape.Point? {
      x, y := Xs([shape.position.value]), Ys([shape.position.value]);
      assert x == [shape.position.value.x] && y == [shape.position.value.y];
    } else {
      return Some(TypeError(TypeName(shape)));
    }
    figure.Circle(Column(x), Column(y), style);
    return None;
  }

  /** `_plot_lines`: one `line` call, or one `multi_line` call with a list pair per member. */
  method PlotLines(figure: Figure, shape: Geometry, style: Style) returns (failure: Option<Error>)
    requires WellFormed(shape)
    modifies figure
    ensures figure.calls == old(figure.calls) + LinesRun(shape, style).calls
    ensures failure == LinesRun(shape, style).failure
  {
    if IsEmpty(shape) {
      return None;
    }
    if shape.LineString? || shape.LinearRing? {
      var x, y := Xs(shape.coords), Ys(shape.coords);
      figure.Line(x, y, style);
    } else if shape.MultiLineString? {
      var lines := shape.geoms;
      var x: seq<seq<real>>, y: seq<seq<real>> := [], [];
      var i := 0;
      while i < |lines|
        invariant 0 <= i <= |lines|
        invariant x == LineXs(lines[..i]) && y == LineYs(lines[..i])
      {
        var lineX, lineY := Xs(lines[i].coords), Ys(lines[i].coords);
        x := x + [lineX];
        y := y + [lineY];
        i := i + 1;
      }
      assert lines[..i] == lines;
      figure.MultiLine(x, y, style);
    } else {
      return Some(TypeError(TypeName(shape)));
    }
    return None;
  }

  /**
   * `_get_poly_coordinates`: for a Polygon the exterior then the interiors,
   * each without its last point; for a MultiPolygon the concatenation of
   * its polygons' lists; a TypeError for anything else.
   */
  method GetPolyCoordinates(shape: Geometry) returns (r: Result<(seq<seq<real>>, seq<seq<real>>), Error>)
    decreases shape
    ensures PolyRings(shape).Failure? ==> r == Failure(PolyRings(shape).error)
    ensures PolyRings(shape).Success? ==> r == Success((XsAll(PolyRings(shape).value), YsAll(PolyRings(shape).value)))
  {
    if shape.MultiPolygon? {
      var polys := shape.geoms;
      var x: seq<seq<real>>, y: seq<seq<real>> := [], [];
      var i := 0;
      while i < |polys|
        invariant 0 <= i <= |polys|
        invariant PolyRingsAll(polys[..i]).Success?
        invariant x == XsAll(PolyRingsAll(polys[..i]).value)
        invariant y == YsAll(PolyRingsAll(polys[..i]).value)
      {
        var sub := GetPolyCoordinates(polys[i]);
        assert polys[..i + 1] == polys[..i] + [polys[i]];
        PolyRingsAllAppend(polys[..i], [polys[i]]);
        PolyRingsAllSingle(polys[i]);
        if sub.Failure? {
          assert polys == polys[..i + 1] + polys[i + 1..];
          PolyRingsAllAppend(polys[..i + 1], polys[i + 1..]);
          return Failure(sub.error);
        }
        ColumnsAppend(PolyRingsAll(polys[..i]).value, PolyRings(polys[i]).value);
        x := x + sub.value.0;
        y := y + sub.value.1;
        i := i + 1;
      }
      assert polys[..i] == polys;
      return Success((x, y));
    } else if shape.Polygon? {
      var x, y := PolygonCoordinates(shape.exterior, shape.interiors);
      return Success((x, y));
    } else {
      return Failure(TypeError(TypeName(shape)));
    }
  }

  lemma ColumnsAppend(a: seq<Ring>, b: seq<Ring>)
    ensures XsAll(a + b) == XsAll(a) + XsAll(b)
    ensures YsAll(a + b) == YsAll(a) + YsAll(b)
  {
  }

  /** The Polygon branch of `_get_poly_coordinates`: the sliced interiors are collected first, then put after the sliced exterior. */
  method PolygonCoordinates(exterior: Ring, interiors: seq<Ring>) returns (x: seq<seq<real>>, y: seq<seq<real>>)
    ensures x == XsAll(StandardCoords.Rings(exterior, interiors))
    ensures y == YsAll(StandardCoords.Rings(exterior, interiors))
  {
    var extrX, extrY := Xs(exterior), Ys(exterior);
    DropLastColumns(exterior);
    var intrX: seq<seq<real>>, intrY: seq<seq<real>> := [], [];
    var i := 0;
    while i < |interiors|
      invariant 0 <= i <= |interiors|
      invariant [DropLast(extrX)] + intrX == XsAll(StandardCoords.Rings(exterior, interiors[..i]))
      invariant [DropLast(extrY)] + intrY == YsAll(StandardCoords.Rings(exterior, interiors[..i]))
    {
      var ringX, ringY := Xs(interiors[i]), Ys(interiors[i]);
      DropLastColumns(interiors[i]);
      intrX := intrX + [DropLast(ringX)];
      intrY := intrY + [DropLast(ringY)];
      i := i + 1;
      assert StandardCoords.Rings(exterior, interiors[..i])
        == StandardCoords.Rings(exterior, interiors[..i - 1]) + [DropLast(interiors[i - 1])];
    }
    assert interiors[..i] == interiors;
    x, y := [DropLast(extrX)], [DropLast(extrY)];
    x := x + intrX;
    y := y + intrY;
  }

  /** `_plot_polys`: one `multi_polygons([[x]], [[y]])` call holding every ring. */
  method PlotPolys(figure: Figure, shape: Geometry, style: Style) returns (failure: Option<Error>)
    modifies figure
    ensures figure.calls == old(figure.calls) + PolysRun(shape, style).calls
    ensures failure == PolysRun(shape, style).failure
  {
    if IsEmpty(shape) {
      return None;
    }
    if !(shape.Polygon? || shape.MultiPolygon?) {
      return Some(TypeError(TypeName(shape)));
    }
    var coords := GetPolyCoordinates(shape);
    if coords.Failure? {
      return Some(coords.error);
    }
    var (x, y) := coords.value;
    figure.MultiPolygons([[x]], [[y]], style);
    return None;
  }

  /** `add_shape`: appends exactly the calls `Plot` describes and raises what it raises. */
  method AddShape(figure: Figure, shape: Geometry, style: Style) returns (failure: Option<Error>)
    requires WellFormed(shape)
    modifies figure
    decreases shape
    ensures figure.calls == old(figure.calls) + Plot(shape, style).calls
    ensures failure == Plot(shape, style).failure
  {
    if IsEmpty(shape) {
      return None;
    }
    if shape.Point? || shape.MultiPoint? {
      assert Plot(shape, style) == PointsRun(shape, style);
      failure := PlotPoints(figure, shape, style);
    } else if shape.LineString? || shape.MultiLineString? || shape.LinearRing? {
      assert Plot(shape, style) == LinesRun(shape, style);
      failure := PlotLines(figure, shape, style);
    } else if shape.Polygon? || shape.MultiPolygon? {
      assert Plot(shape, style) == PolysRun(shape, style);
      failure := PlotPolys(figure, shape, style);
    } else if shape.GeometryCollection? {
      assert Plot(shape, style) == PlotAll(shape.geoms, style);
      failure := AddParts(figure, shape.geoms, style);
    } else {
      failure := Some(NotImplementedError(TypeName(shape)));
    }
  }

  /** The loop of `add_shape` over a collection's members: each in order, stopping at the first exception. */
  method AddParts(figure: Figure, parts: seq<Geometry>, style: Style) returns (failure: Option<Error>)
    requires forall i | 0 <= i < |parts| :: WellFormed(parts[i])
    modifies figure
    decreases parts
    ensures figure.calls == old(figure.calls) + PlotAll(parts, style).calls
    ensures failure == PlotAll(parts, style).failure
  {
    var i := 0;
    while i < |parts|
      invariant 0 <= i <= |parts|
      invariant figure.calls == old(figure.calls) + PlotAll(parts[..i], style).calls
      invariant PlotAll(parts[..i], style).failure == None
    {
      var f := AddShape(figure, parts[i], style);
      PlotAllStep(parts, i, style);
      if f.Some? {
        return f;
      }
      i := i + 1;
    }
    assert parts[..i] == parts;
    return None;
  }

  /** `_remove_symbols`: the output file name stem, which is `sanitize_text` of the title. */
  function RemoveSymbols(text: string): (r: string)
    ensures r == FileUtils.SanitizeText(text)
  {
    Utils.RemoveSymbolsIsSanitize(text);
    Utils.RemoveSymbols(text)
  }
}
