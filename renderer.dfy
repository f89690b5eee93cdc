/**
 * The renderer side: a Bokeh figure reduced to the sequence of drawing calls
 * it has received, plus the outcome of a plotting run.
 */
module Renderer {
  import opened Wrappers

  /** A style attribute value; the mappers never inspect these. */
  datatype StyleValue = Number(n: real) | Text(s: string) | Flag(b: bool)

  /** The `**style_kwargs` bag, forwarded verbatim. */
  type Style = map<string, StyleValue>

  /** A `circle` argument: a scalar (current mappers) or a list (older WKTPlot). */
  datatype Ordinate = Scalar(v: real) | Column(vs: seq<real>)

  datatype Call =
    | Circle(x: Ordinate, y: Ordinate, style: Style)
    | Line(xs: seq<real>, ys: seq<real>, style: Style)
    | MultiLine(xss: seq<seq<real>>, yss: seq<seq<real>>, style: Style)
    | MultiPolygons(xp: seq<seq<seq<seq<real>>>>, yp: seq<seq<seq<seq<real>>>>, style: Style)

  /** The exceptions a plotting call can raise, with the offending type name. */
  datatype Error = TypeError(typeName: string) | NotImplementedError(typeName: string)

  /** What one plotting call does: the drawing calls it issues, then possibly an exception. */
  datatype Run = Run(calls: seq<Call>, failure: Option<Error>)

  const Done: Run := Run([], None)

  /** Run `a`, and `b` after it unless `a` raised. */
  function Then(a: Run, b: Run): (r: Run)
    ensures a.failure.Some? ==> r == a
    ensures a.failure.None? ==> r.calls == a.calls + b.calls && r.failure == b.failure
  {
    if a.failure.Some? then a else Run(a.calls + b.calls, b.failure)
  }

  lemma ThenAssociative(a: Run, b: Run, c: Run)
    ensures Then(Then(a, b), c) == Then(a, Then(b, c))
  {
  }

  /** A figure whose only observable state is the trace of drawing calls. */
  class Figure {
    var calls: seq<Call>

    constructor ()
      ensures calls == []
    {
      calls := [];
    }

    method Circle(x: Ordinate, y: Ordinate, style: Style)
      modifies this
      ensures calls == old(calls) + [Call.Circle(x, y, style)]
    {
      calls := calls + [Call.Circle(x, y, style)];
    }

    method Line(xs: seq<real>, ys: seq<real>, style: Style)
      modifies this
      ensures calls == old(calls) + [Call.Line(xs, ys, style)]
    {
      calls := calls + [Call.Line(xs, ys, style)];
    }

    method MultiLine(xss: seq<seq<real>>, yss: seq<seq<real>>, style: Style)
      modifies this
      ensures calls == old(calls) + [Call.MultiLine(xss, yss, style)]
    {
      calls := calls + [Call.MultiLine(xss, yss, style)];
    }

    method MultiPolygons(xp: seq<seq<seq<seq<real>>>>, yp: seq<seq<seq<seq<real>>>>, style: Style)
      modifies this
      ensures calls == old(calls) + [Call.MultiPolygons(xp, yp, style)]
    {
      calls := calls + [Call.MultiPolygons(xp, yp, style)];
    }
  }
}
