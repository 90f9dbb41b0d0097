/** Map coordinates and the straight-line (planar) interpolation every map component uses. */
module Geo {

  /** A `[lat, lng]` pair as the map components pass it around. */
  datatype LatLng = LatLng(lat: real, lng: real)

  function Min(a: real, b: real): (r: real)
    ensures r <= a && r <= b && (r == a || r == b)
  {
    if a <= b then a else b
  }

  function Max(a: real, b: real): (r: real)
    ensures r >= a && r >= b && (r == a || r == b)
  {
    if a >= b then a else b
  }

  function Abs(a: real): (r: real)
    ensures r >= 0.0 && (r == a || r == -a)
  {
    if a >= 0.0 then a else -a
  }

  /** `x` lies in the closed interval spanned by `a` and `b`, in either order. */
  predicate Between(x: real, a: real, b: real) {
    Min(a, b) <= x <= Max(a, b)
  }

  function Lerp(a: real, b: real, t: real): real {
    a + (b - a) * t
  }

  lemma MulNonNegative(x: real, y: real)
    requires x >= 0.0 && y >= 0.0
    ensures x * y >= 0.0
  {
  }

  lemma LerpBetween(a: real, b: real, t: real)
    ensures 0.0 <= t <= 1.0 ==> Between(Lerp(a, b, t), a, b)
  {
    if t < 0.0 || t > 1.0 {
    } else if a <= b {
      MulNonNegative(b - a, t);
      MulNonNegative(b - a, 1.0 - t);
    } else {
      MulNonNegative(a - b, t);
      MulNonNegative(a - b, 1.0 - t);
    }
  }

  /** The point a fraction `t` of the way from `from` to `to`, coordinate by coordinate. */
  function Interpolate(from: LatLng, to: LatLng, t: real): (p: LatLng)
    ensures t == 0.0 ==> p == from
    ensures t == 1.0 ==> p == to
    ensures 0.0 <= t <= 1.0 ==> Between(p.lat, from.lat, to.lat) && Between(p.lng, from.lng, to.lng)
  {
    LerpBetween(from.lat, to.lat, t);
    LerpBetween(from.lng, to.lng, t);
    LatLng(Lerp(from.lat, to.lat, t), Lerp(from.lng, to.lng, t))
  }

  /** Interpolation stops short of the end point for every fraction below 1, unless the ends coincide. */
  lemma InterpolateReachesEndOnlyAtOne(from: LatLng, to: LatLng, t: real)
    requires t != 1.0 && Interpolate(from, to, t) == to
    ensures from == to
  {
    assert Lerp(from.lat, to.lat, t) == to.lat && Lerp(from.lng, to.lng, t) == to.lng;
    assert (to.lat - from.lat) * (1.0 - t) == 0.0;
    assert (to.lng - from.lng) * (1.0 - t) == 0.0;
    ZeroFactor(to.lat - from.lat, 1.0 - t);
    ZeroFactor(to.lng - from.lng, 1.0 - t);
  }

  lemma ZeroFactor(x: real, y: real)
    requires x * y == 0.0 && y != 0.0
    ensures x == 0.0
  {
    assert x == (x * y) / y;
  }
}
