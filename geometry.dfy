/** Plane geometry of the compiler: points in output units, the
    font-unit to output-unit transform, and the Bezier blends that curve
    flattening samples. */
module Geometry {

  datatype Point = Point(x: real, y: real)

  /** Places a font-unit coordinate relative to a glyph origin: x grows to
      the right, y is flipped because font outlines grow upwards.  This is
      `baseX + cmd.x * scale`, `baseY - cmd.y * scale` of the API variant,
      and what opentype's `getPath(x, y, fontSize)` does for the client. */
  function Transform(origin: Point, scale: real, x: real, y: real): Point {
    Point(origin.x + x * scale, origin.y - y * scale)
  }

  /** The inverse of `Transform` for a non-zero scale. */
  function Untransform(origin: Point, scale: real, p: Point): (r: (real, real))
    requires scale != 0.0
  {
    ((p.x - origin.x) / scale, (origin.y - p.y) / scale)
  }

  /** The transform loses nothing: font-unit coordinates are recovered from
      the output point, and a higher font-unit y lands at a lower output y. */
  lemma TransformRoundTrip(origin: Point, scale: real, x: real, y: real, y2: real)
    requires scale > 0.0
    ensures Untransform(origin, scale, Transform(origin, scale, x, y)) == (x, y)
    ensures y < y2 ==> Transform(origin, scale, x, y2).y < Transform(origin, scale, x, y).y
  {
    var p := Transform(origin, scale, x, y);
    assert (p.x - origin.x) / scale == x;
    assert (origin.y - p.y) / scale == y;
  }

  /** One coordinate of the quadratic blend
      (1-t)^2 a + 2(1-t)t b + t^2 c. */
  function Quad1(a: real, b: real, c: real, t: real): (v: real)
    ensures t == 0.0 ==> v == a
    ensures t == 1.0 ==> v == c
  {
    (1.0 - t) * (1.0 - t) * a + 2.0 * (1.0 - t) * t * b + t * t * c
  }

  /** One coordinate of the cubic blend
      (1-t)^3 a + 3(1-t)^2 t b + 3(1-t) t^2 c + t^3 d. */
  function Cubic1(a: real, b: real, c: real, d: real, t: real): (v: real)
    ensures t == 0.0 ==> v == a
    ensures t == 1.0 ==> v == d
  {
    var u := 1.0 - t;
    u * u * u * a + 3.0 * u * u * t * b + 3.0 * u * t * t * c + t * t * t * d
  }

  function Min3(a: real, b: real, c: real): real {
    if a <= b && a <= c then a else if b <= c then b else c
  }

  function Max3(a: real, b: real, c: real): real {
    if a >= b && a >= c then a else if b >= c then b else c
  }

  lemma MulMono(w: real, a: real, b: real)
    requires w >= 0.0 && a <= b
    ensures w * a <= w * b
  {
    assert w * b - w * a == w * (b - a);
  }

  lemma MulNonneg(a: real, b: real)
    requires a >= 0.0 && b >= 0.0
    ensures a * b >= 0.0
  {
    MulMono(a, 0.0, b);
  }

  /** A weighted sum with non-negative weights summing to one lies between
      the least and the greatest of the values. */
  lemma Between(w0: real, w1: real, w2: real, w3: real, a: real, b: real, c: real, d: real, lo: real, hi: real)
    requires w0 >= 0.0 && w1 >= 0.0 && w2 >= 0.0 && w3 >= 0.0 && w0 + w1 + w2 + w3 == 1.0
    requires lo <= a <= hi && lo <= b <= hi && lo <= c <= hi && lo <= d <= hi
    ensures lo <= w0 * a + w1 * b + w2 * c + w3 * d <= hi
  {
    WeightedLe(w0, w1, w2, w3, lo, lo, lo, lo, a, b, c, d);
    WeightedLe(w0, w1, w2, w3, a, b, c, d, hi, hi, hi, hi);
    WeightedConst(w0, w1, w2, w3, lo);
    WeightedConst(w0, w1, w2, w3, hi);
  }

  /** Non-negative weights keep a pointwise order between two lists of values. */
  lemma WeightedLe(w0: real, w1: real, w2: real, w3: real,
                   a0: real, a1: real, a2: real, a3: real, b0: real, b1: real, b2: real, b3: real)
    requires w0 >= 0.0 && w1 >= 0.0 && w2 >= 0.0 && w3 >= 0.0
    requires a0 <= b0 && a1 <= b1 && a2 <= b2 && a3 <= b3
    ensures w0 * a0 + w1 * a1 + w2 * a2 + w3 * a3 <= w0 * b0 + w1 * b1 + w2 * b2 + w3 * b3
  {
    MulMono(w0, a0, b0);
    MulMono(w1, a1, b1);
    MulMono(w2, a2, b2);
    MulMono(w3, a3, b3);
    SumLe(w0 * a0, w1 * a1, w2 * a2, w3 * a3, w0 * b0, w1 * b1, w2 * b2, w3 * b3);
  }

  /** Weights summing to one leave a constant as it is. */
  lemma WeightedConst(w0: real, w1: real, w2: real, w3: real, v: real)
    requires w0 + w1 + w2 + w3 == 1.0
    ensures w0 * v + w1 * v + w2 * v + w3 * v == v
  {
    assert w0 * v + w1 * v + w2 * v + w3 * v == (w0 + w1 + w2 + w3) * v;
  }

  lemma SumLe(a0: real, a1: real, a2: real, a3: real, b0: real, b1: real, b2: real, b3: real)
    requires a0 <= b0 && a1 <= b1 && a2 <= b2 && a3 <= b3
    ensures a0 + a1 + a2 + a3 <= b0 + b1 + b2 + b3
  {
  }

  /** Convex hull property of the quadratic blend: for t in [0, 1] a
      sample lies between the least and the greatest control value. */
  lemma QuadInHull(a: real, b: real, c: real, t: real)
    requires 0.0 <= t <= 1.0
    ensures Min3(a, b, c) <= Quad1(a, b, c, t) <= Max3(a, b, c)
  {
    var u := 1.0 - t;
    var w0, w1, w2 := u * u, 2.0 * u * t, t * t;
    assert w0 + w1 + w2 == (u + t) * (u + t);
    MulNonneg(u, u); MulNonneg(u, t); MulNonneg(t, t);
    assert Quad1(a, b, c, t) == w0 * a + w1 * b + w2 * c + 0.0 * c;
    Between(w0, w1, w2, 0.0, a, b, c, c, Min3(a, b, c), Max3(a, b, c));
  }

  /** A control point pulled off the chord pulls every interior sample off
      it: the quadratic blend exceeds the chord (1-t)a + tc by
      t(1-t)(2b - a - c). */
  lemma QuadBulge(a: real, b: real, c: real, t: real)
    requires 0.0 < t < 1.0 && 2.0 * b > a + c
    ensures Quad1(a, b, c, t) > (1.0 - t) * a + t * c
  {
    var u := 1.0 - t;
    var k := 2.0 * b - a - c;
    assert Quad1(a, b, c, t) - (u * a + t * c) == (u * t) * k;
    MulMono(u, 0.0, t);
    assert u * t > 0.0;
    MulMono(k, 0.0, u * t);
    assert (u * t) * k > 0.0;
  }

  /** Convex hull property of the cubic blend. */
  lemma CubicInHull(a: real, b: real, c: real, d: real, t: real)
    requires 0.0 <= t <= 1.0
    ensures Min3(Min3(a, b, c), d, d) <= Cubic1(a, b, c, d, t) <= Max3(Max3(a, b, c), d, d)
  {
    var u := 1.0 - t;
    var uu, ut, tt := u * u, u * t, t * t;
    MulNonneg(u, u); MulNonneg(u, t); MulNonneg(t, t);
    var w0, w1, w2, w3 := uu * u, 3.0 * uu * t, 3.0 * u * tt, tt * t;
    MulNonneg(uu, u); MulNonneg(uu, t); MulNonneg(u, tt); MulNonneg(tt, t);
    assert w0 + w1 + w2 + w3 == (u + t) * (u + t) * (u + t);
    assert Cubic1(a, b, c, d, t) == w0 * a + w1 * b + w2 * c + w3 * d;
    Between(w0, w1, w2, w3, a, b, c, d, Min3(Min3(a, b, c), d, d), Max3(Max3(a, b, c), d, d));
  }

  /** A curve segment as flattening sees it, in output coordinates; its
      start point is supplied by the sampler. */
  datatype Curve =
    | Quad(c: Point, end: Point)
    | Cubic(c1: Point, c2: Point, end: Point)

  /** The point of `curve` at parameter `t` when it starts at `start`. */
  function CurveAt(start: Point, curve: Curve, t: real): (q: Point)
    ensures t == 0.0 ==> q == start
    ensures t == 1.0 ==> q == curve.end
  {
    match curve
    case Quad(c, end) => Point(Quad1(start.x, c.x, end.x, t), Quad1(start.y, c.y, end.y, t))
    case Cubic(c1, c2, end) =>
      Point(Cubic1(start.x, c1.x, c2.x, end.x, t), Cubic1(start.y, c1.y, c2.y, end.y, t))
  }
}
