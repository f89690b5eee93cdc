/**
 * The prototype `WKTPlot` class (wktplot/wkt_plot.py). Its plotting logic is
 * that of src/wktplot/wktplot.py with no style arguments: every drawing call
 * carries `line_width=3` and nothing else. Its one addition is `add_shapes`.
 */
module PrototypePlot {
  import opened Wrappers
  import opened Geometry
  import opened Renderer
  import LegacyPlot
  import LegacyProperties

  /** The only style the prototype ever passes. */
  const LINE_WIDTH: Style := map["line_width" := Number(3.0)]

  /** `_plot_points`: one `circle(x, y, line_width=3)` call. */
  method PlotPoints(figure: Figure, shape: Geometry) returns (failure: Option<Error>)
    requires WellFormed(shape)
    modifies figure
    ensures figure.calls == old(figure.calls) + LegacyPlot.PointsRun(shape, LINE_WIDTH).calls
    ensures failure == LegacyPlot.PointsRun(shape, LINE_WIDTH).failure
  {
    failure := LegacyPlot.PlotPoints(figure, shape, LINE_WIDTH);
  }

  /** `_plot_lines`: one `line` or `multi_line` call with `line_width=3`. */
  method PlotLines(figure: Figure, shape: Geometry) returns (failure: Option<Error>)
    requires WellFormed(shape)
    modifies figure
    ensures figure.calls == old(figure.calls) + LegacyPlot.LinesRun(shape, LINE_WIDTH).calls
    ensures failure == LegacyPlot.LinesRun(shape, LINE_WIDTH).failure
  {
    failure := LegacyPlot.PlotLines(figure, shape, LINE_WIDTH);
  }

  /** `_get_poly_coordinates`, as in src/wktplot/wktplot.py. */
  method GetPolyCoordinates(shape: Geometry) returns (r: Result<(seq<seq<real>>, seq<seq<real>>), Error>)
    ensures LegacyPlot.PolyRings(shape).Failure? ==> r == Failure(LegacyPlot.PolyRings(shape).error)
    ensures LegacyPlot.PolyRings(shape).Success? ==>
      r == Success((XsAll(LegacyPlot.PolyRings(shape).value), YsAll(LegacyPlot.PolyRings(shape).value)))
  {
    r := LegacyPlot.GetPolyCoordinates(shape);
  }

  /** `_plot_polys`: one `multi_polygons([[x]], [[y]], line_width=3)` call. */
  method PlotPolys(figure: Figure, shape: Geometry) returns (failure: Option<Error>)
    modifies figure
    ensures figure.calls == old(figure.calls) + LegacyPlot.PolysRun(shape, LINE_WIDTH).calls
    ensures failure == LegacyPlot.PolysRun(shape, LINE_WIDTH).failure
  {
    failure := LegacyPlot.PlotPolys(figure, shape, LINE_WIDTH);
  }

  /** `add_shape`: the dispatch of src/wktplot/wktplot.py with the fixed style. */
  method AddShape(figure: Figure, shape: Geometry) returns (failure: Option<Error>)
    requires WellFormed(shape)
    modifies figure
    ensures figure.calls == old(figure.calls) + LegacyPlot.Plot(shape, LINE_WIDTH).calls
    ensures failure == LegacyPlot.Plot(shape, LINE_WIDTH).failure
  {
    failure := LegacyPlot.AddShape(figure, shape, LINE_WIDTH);
  }

  /** `add_shapes`: `add_shape` on each shape in order; an exception ends the loop. */
  method AddShapes(figure: Figure, shapes: seq<Geometry>) returns (failure: Option<Error>)
    requires forall i | 0 <= i < |shapes| :: WellFormed(shapes[i])
    modifies figure
    ensures figure.calls == old(figure.calls) + LegacyPlot.PlotAll(shapes, LINE_WIDTH).calls
    ensures failure == LegacyPlot.PlotAll(shapes, LINE_WIDTH).failure
  {
    var i := 0;
    while i < |shapes|
      invariant 0 <= i <= |shapes|
      invariant figure.calls == old(figure.calls) + LegacyPlot.PlotAll(shapes[..i], LINE_WIDTH).calls
      invariant LegacyPlot.PlotAll(shapes[..i], LINE_WIDTH).failure == None
    {
      var f := AddShape(figure, shapes[i]);
      LegacyPlot.PlotAllStep(shapes, i, LINE_WIDTH);
      if f.Some? {
        return f;
      }
      i := i + 1;
    }
    assert shapes[..i] == shapes;
    return None;
  }

  /** Every drawing call the prototype makes carries `line_width=3` and no other style. */
  lemma OnlyLineWidth(shapes: seq<Geometry>)
    requires forall i | 0 <= i < |shapes| :: WellFormed(shapes[i])
    ensures forall c | c in LegacyPlot.PlotAll(shapes, LINE_WIDTH).calls :: c.style == LINE_WIDTH && c.style["line_width"] == Number(3.0)
  {
    LegacyProperties.StyleForwardedAll(shapes, LINE_WIDTH);
  }

  /** The calls of each shape on its own, end to end. */
  function CallsOf(shapes: seq<Geometry>): seq<Call>
    requires forall i | 0 <= i < |shapes| :: WellFormed(shapes[i])
  {
    if |shapes| == 0 then [] else LegacyPlot.Plot(shapes[0], LINE_WIDTH).calls + CallsOf(shapes[1..])
  }

  /**
   * For shapes built from the eight kinds, `add_shapes` never raises and
   * draws exactly what `add_shape` draws for each shape, in order.
   */
  lemma {:induction false} AddShapesConcatenates(shapes: seq<Geometry>)
    requires forall i | 0 <= i < |shapes| :: WellFormed(shapes[i]) && LegacyProperties.NoUnknownKind(shapes[i])
    ensures LegacyPlot.PlotAll(shapes, LINE_WIDTH) == Run(CallsOf(shapes), None)
  {
    if |shapes| > 0 {
      LegacyProperties.NeverFails(shapes[0], LINE_WIDTH);
      AddShapesConcatenates(shapes[1..]);
    }
  }
}
