/**
 * `StandardMap` (src/wktplot/maps/standard.py): the same three coordinate
 * extractors as `StandardMapper`, as public class methods without the
 * dispatch.
 */
module StandardMap {
  import opened Geometry
  import StandardCoords

  /** `get_point_coords`: the point's x and y, unchanged. */
  function GetPointCoords(p: Coord): (r: (real, real))
    ensures r.0 == p.x && r.1 == p.y
  {
    StandardCoords.PointCoords(p)
  }

  /** `get_line_string_coords`: both columns, in path order, closing point included. */
  function GetLineStringCoords(cs: seq<Coord>): (r: (seq<real>, seq<real>))
    ensures |r.0| == |cs| && |r.1| == |cs|
    ensures forall i | 0 <= i < |cs| :: r.0[i] == cs[i].x && r.1[i] == cs[i].y
  {
    StandardCoords.LineStringCoords(cs)
  }

  /**
   * `get_polygon_coords`: one list pair per ring, exterior first and the
   * interiors in source order, each column without its last entry.
   */
  method GetPolygonCoords(exterior: Ring, interiors: seq<Ring>) returns (x: seq<seq<real>>, y: seq<seq<real>>)
    ensures |x| == |y| == 1 + |interiors|
    ensures x[0] == DropLast(Xs(exterior)) && y[0] == DropLast(Ys(exterior))
    ensures forall k | 0 <= k < |interiors| :: x[k + 1] == DropLast(Xs(interiors[k])) && y[k + 1] == DropLast(Ys(interiors[k]))
    ensures forall k | 0 <= k < |x| :: |x[k]| == |y[k]|
  {
    x, y := StandardCoords.GetPolygonCoords(exterior, interiors);
    DropLastColumns(exterior);
    forall k | 0 <= k < |interiors|
      ensures x[k + 1] == DropLast(Xs(interiors[k])) && y[k + 1] == DropLast(Ys(interiors[k]))
    {
      DropLastColumns(interiors[k]);
    }
  }

  /** A column cut from a closed ring becomes the ring's column again once its first entry is re-appended. */
  lemma ColumnsReclose(r: Ring)
    requires |r| > 0 && Closed(r)
    ensures DropLast(Xs(r)) + [Xs(r)[0]] == Xs(r)
    ensures DropLast(Ys(r)) + [Ys(r)[0]] == Ys(r)
  {
    DropLastColumns(r);
    DropLastReclose(r);
    assert Xs(DropLast(r) + [r[0]]) == Xs(DropLast(r)) + [r[0].x];
    assert Ys(DropLast(r) + [r[0]]) == Ys(DropLast(r)) + [r[0].y];
  }
}
