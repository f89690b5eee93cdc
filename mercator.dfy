/**
 * `geographic_to_mercator` (src/wktplot/mappers/osm.py): spherical Web
 * Mercator. The transcendental pieces (pi, tan, log) are parameters, so only
 * the structure of the formula is modelled: which input feeds which output.
 */
module Mercator {

  const EARTH_RADIUS: real := 6378137.0

  /** The numeric library the formula is evaluated with (numpy's pi, tan, log). */
  datatype Numerics = Numerics(pi: real, tan: real -> real, log: real -> real)

  /** `np.radians`. */
  function Radians(n: Numerics, deg: real): real {
    deg * n.pi / 180.0
  }

  /** The longitude result: EARTH_RADIUS times the longitude in radians. */
  function MercLng(n: Numerics, lngDeg: real): real {
    EARTH_RADIUS * Radians(n, lngDeg)
  }

  /** The latitude result: EARTH_RADIUS * log(tan(pi/4 + phi/2)). */
  function MercLat(n: Numerics, latDeg: real): real {
    EARTH_RADIUS * n.log(n.tan(n.pi / 4.0 + Radians(n, latDeg) / 2.0))
  }

  /**
   * The scalar call: the pair (longitude result, latitude result), the first
   * computed from the longitude alone, the second from the latitude alone.
   */
  function GeographicToMercator(n: Numerics, latDeg: real, lngDeg: real): (real, real) {
    (MercLng(n, lngDeg), MercLat(n, latDeg))
  }

  /** `MercLng` applied element by element to a numpy array. */
  function MapLng(n: Numerics, lngs: seq<real>): (r: seq<real>)
    ensures |r| == |lngs|
    ensures forall i | 0 <= i < |lngs| :: r[i] == MercLng(n, lngs[i])
  {
    seq(|lngs|, i requires 0 <= i < |lngs| => MercLng(n, lngs[i]))
  }

  /** `MercLat` applied element by element to a numpy array. */
  function MapLat(n: Numerics, lats: seq<real>): (r: seq<real>)
    ensures |r| == |lats|
    ensures forall i | 0 <= i < |lats| :: r[i] == MercLat(n, lats[i])
  {
    seq(|lats|, i requires 0 <= i < |lats| => MercLat(n, lats[i]))
  }

  /**
   * The batched call on two equally long arrays: element i of each output
   * comes from element i of one input only, and lengths are preserved.
   */
  function GeographicToMercatorAll(n: Numerics, latDeg: seq<real>, lngDeg: seq<real>): (r: (seq<real>, seq<real>))
    requires |latDeg| == |lngDeg|
    ensures |r.0| == |lngDeg| && |r.1| == |latDeg|
    ensures forall i | 0 <= i < |lngDeg| :: (r.0[i], r.1[i]) == GeographicToMercator(n, latDeg[i], lngDeg[i])
  {
    (MapLng(n, lngDeg), MapLat(n, latDeg))
  }

  /** The longitude result does not depend on the latitude, nor the latitude result on the longitude. */
  lemma AxesIndependent(n: Numerics, lat1: real, lat2: real, lng1: real, lng2: real)
    ensures GeographicToMercator(n, lat1, lng1).0 == GeographicToMercator(n, lat2, lng1).0
    ensures GeographicToMercator(n, lat1, lng1).1 == GeographicToMercator(n, lat1, lng2).1
  {
  }

  /** The longitude result is linear in the longitude: it maps 0 to 0 and sums to sums. */
  lemma MercLngLinear(n: Numerics, a: real, b: real)
    ensures MercLng(n, 0.0) == 0.0
    ensures MercLng(n, a + b) == MercLng(n, a) + MercLng(n, b)
  {
    calc {
      MercLng(n, a + b);
      EARTH_RADIUS * ((a + b) * n.pi / 180.0);
      { assert (a + b) * n.pi == a * n.pi + b * n.pi; }
      EARTH_RADIUS * (a * n.pi / 180.0) + EARTH_RADIUS * (b * n.pi / 180.0);
    }
  }
}
