/**
 * Already-parsed geometry values, as the shapely geometry source hands them to
 * the mappers: a closed set of eight supported kinds plus `Other` for any kind
 * outside that set (src/wktplot/common/types.py, SUPPORTED_GEOMS).
 */
module Geometry {
  import opened Wrappers

  datatype Coord = Coord(x: real, y: real)

  /** A coordinate sequence as stored by the source: rings are closed. */
  type Ring = seq<Coord>

  datatype Geometry =
    | Point(position: Option<Coord>)
    | LineString(coords: seq<Coord>)
    | LinearRing(coords: seq<Coord>)
    | Polygon(exterior: Ring, interiors: seq<Ring>)
    | MultiPoint(geoms: seq<Geometry>)
    | MultiLineString(geoms: seq<Geometry>)
    | MultiPolygon(geoms: seq<Geometry>)
    | GeometryCollection(geoms: seq<Geometry>)
    | Other(typeName: string, empty: bool)

  /** The type gate: one of the eight kinds in SUPPORTED_GEOMS. */
  predicate Supported(g: Geometry) {
    !g.Other?
  }

  /** shapely's BaseMultipartGeometry: the three Multi kinds and GeometryCollection. */
  predicate IsMultipart(g: Geometry) {
    g.MultiPoint? || g.MultiLineString? || g.MultiPolygon? || g.GeometryCollection?
  }

  /** `type(shape).__name__`, used in the error messages. */
  function TypeName(g: Geometry): string {
    match g
    case Point(_) => "Point"
    case LineString(_) => "LineString"
    case LinearRing(_) => "LinearRing"
    case Polygon(_, _) => "Polygon"
    case MultiPoint(_) => "MultiPoint"
    case MultiLineString(_) => "MultiLineString"
    case MultiPolygon(_) => "MultiPolygon"
    case GeometryCollection(_) => "GeometryCollection"
    case Other(name, _) => name
  }

  /**
   * `shape.is_empty`. A point without a position, a line or ring without
   * coordinates and a polygon without an exterior are empty; a multi-part
   * geometry is empty when every member is (GEOS semantics).
   */
  predicate IsEmpty(g: Geometry) {
    match g
    case Point(p) => p.None?
    case LineString(cs) => |cs| == 0
    case LinearRing(cs) => |cs| == 0
    case Polygon(ext, _) => |ext| == 0
    case MultiPoint(ps) => AllEmpty(ps)
    case MultiLineString(ps) => AllEmpty(ps)
    case MultiPolygon(ps) => AllEmpty(ps)
    case GeometryCollection(ps) => AllEmpty(ps)
    case Other(_, e) => e
  }

  predicate AllEmpty(ps: seq<Geometry>) {
    forall i | 0 <= i < |ps| :: IsEmpty(ps[i])
  }

  /** A ring whose last coordinate repeats its first. */
  predicate Closed(r: Ring) {
    |r| > 0 ==> r[0] == r[|r| - 1]
  }

  /**
   * The member-kind invariants shapely keeps: a MultiPoint holds non-empty
   * points, a MultiLineString line strings, a MultiPolygon polygons, and a
   * collection holds well-formed geometries.
   */
  predicate WellFormed(g: Geometry) {
    match g
    case MultiPoint(ps) => forall i | 0 <= i < |ps| :: ps[i].Point? && ps[i].position.Some?
    case MultiLineString(ps) => forall i | 0 <= i < |ps| :: ps[i].LineString?
    case MultiPolygon(ps) => forall i | 0 <= i < |ps| :: ps[i].Polygon?
    case GeometryCollection(ps) => forall i | 0 <= i < |ps| :: WellFormed(ps[i])
    case _ => true
  }

  /** The x column of `shape.xy`. */
  function Xs(cs: seq<Coord>): (xs: seq<real>)
    ensures |xs| == |cs|
    ensures forall i | 0 <= i < |cs| :: xs[i] == cs[i].x
  {
    seq(|cs|, i requires 0 <= i < |cs| => cs[i].x)
  }

  /** The y column of `shape.xy`. */
  function Ys(cs: seq<Coord>): (ys: seq<real>)
    ensures |ys| == |cs|
    ensures forall i | 0 <= i < |cs| :: ys[i] == cs[i].y
  {
    seq(|cs|, i requires 0 <= i < |cs| => cs[i].y)
  }

  /** The x columns of a list of rings. */
  function XsAll(rs: seq<Ring>): (xs: seq<seq<real>>)
    ensures |xs| == |rs|
    ensures forall k | 0 <= k < |rs| :: xs[k] == Xs(rs[k])
  {
    seq(|rs|, k requires 0 <= k < |rs| => Xs(rs[k]))
  }

  /** The y columns of a list of rings. */
  function YsAll(rs: seq<Ring>): (ys: seq<seq<real>>)
    ensures |ys| == |rs|
    ensures forall k | 0 <= k < |rs| :: ys[k] == Ys(rs[k])
  {
    seq(|rs|, k requires 0 <= k < |rs| => Ys(rs[k]))
  }

  /** Python's `s[:-1]`: everything but the last element; empty stays empty. */
  function DropLast<T>(s: seq<T>): seq<T> {
    if |s| == 0 then [] else s[..|s| - 1]
  }

  /** Slicing the coordinate columns is slicing the ring. */
  lemma DropLastColumns(r: Ring)
    ensures DropLast(Xs(r)) == Xs(DropLast(r))
    ensures DropLast(Ys(r)) == Ys(DropLast(r))
  {
  }

  /** An open ring re-closed by its first point is the stored closed ring. */
  lemma {:induction false} DropLastReclose(r: Ring)
    requires |r| > 0 && Closed(r)
    ensures DropLast(r) + [r[0]] == r
    ensures |DropLast(r)| == |r| - 1
  {
    assert r == r[..|r| - 1] + [r[|r| - 1]];
  }
}
