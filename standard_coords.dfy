/**
 * The coordinate extractors of `StandardMapper`
 * (src/wktplot/mappers/standard.py): a point's (x, y), a line's two
 * columns, and a polygon's rings with the closing point of each dropped.
 */
module StandardCoords {
  import opened Geometry

  /** `_get_point_coords`: the point's own x and y. */
  function PointCoords(p: Coord): (real, real) {
    (p.x, p.y)
  }

  /** `_get_line_string_coords`: every coordinate, in path order, split into an x and a y list. */
  function LineStringCoords(cs: seq<Coord>): (r: (seq<real>, seq<real>))
    ensures |r.0| == |cs| && |r.1| == |cs|
    ensures forall i | 0 <= i < |cs| :: r.0[i] == cs[i].x && r.1[i] == cs[i].y
  {
    (Xs(cs), Ys(cs))
  }

  /**
   * The rings `_get_polygon_coords` hands to the renderer: the exterior, then
   * each interior in source order, each without its last coordinate.
   */
  function Rings(exterior: Ring, interiors: seq<Ring>): (rs: seq<Ring>)
    ensures |rs| == 1 + |interiors|
    ensures rs[0] == DropLast(exterior)
    ensures forall k | 0 <= k < |interiors| :: rs[k + 1] == DropLast(interiors[k])
  {
    [DropLast(exterior)] + seq(|interiors|, k requires 0 <= k < |interiors| => DropLast(interiors[k]))
  }

  /** Re-closing every returned ring with the first point of its source ring gives back the stored polygon. */
  lemma {:induction false} RingsReclose(exterior: Ring, interiors: seq<Ring>)
    requires |exterior| > 0 && Closed(exterior)
    requires forall k | 0 <= k < |interiors| :: |interiors[k]| > 0 && Closed(interiors[k])
    ensures Rings(exterior, interiors)[0] + [exterior[0]] == exterior
    ensures forall k | 0 <= k < |interiors| :: Rings(exterior, interiors)[k + 1] + [interiors[k][0]] == interiors[k]
  {
    DropLastReclose(exterior);
    forall k | 0 <= k < |interiors|
      ensures Rings(exterior, interiors)[k + 1] + [interiors[k][0]] == interiors[k]
    {
      DropLastReclose(interiors[k]);
    }
  }

  /**
   * `_get_polygon_coords`: starts both lists with the sliced exterior column
   * and appends the sliced column of each interior. The x and y lists come
   * out paired ring by ring.
   */
  method GetPolygonCoords(exterior: Ring, interiors: seq<Ring>) returns (x: seq<seq<real>>, y: seq<seq<real>>)
    ensures x == XsAll(Rings(exterior, interiors)) && y == YsAll(Rings(exterior, interiors))
    ensures |x| == |y| == 1 + |interiors|
    ensures forall k | 0 <= k < |x| :: |x[k]| == |y[k]|
  {
    var extX, extY := Xs(exterior), Ys(exterior);
    x := [DropLast(extX)];
    y := [DropLast(extY)];
    DropLastColumns(exterior);
    var i := 0;
    while i < |interiors|
      invariant 0 <= i <= |interiors|
      invariant x == XsAll(Rings(exterior, interiors[..i]))
      invariant y == YsAll(Rings(exterior, interiors[..i]))
    {
      var intrX, intrY := Xs(interiors[i]), Ys(interiors[i]);
      DropLastColumns(interiors[i]);
      x := x + [DropLast(intrX)];
      y := y + [DropLast(intrY)];
      i := i + 1;
      assert Rings(exterior, interiors[..i]) == Rings(exterior, interiors[..i - 1]) + [DropLast(interiors[i - 1])];
    }
    assert interiors[..i] == interiors;
  }
}
