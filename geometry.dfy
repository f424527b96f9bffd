/** Point-to-point and point-to-segment distances. All distances are kept
    squared, so `Math.sqrt(d2) < r` becomes `d2 < r * r`. */
module Geometry {
  import opened Model

  /** `v ** 2`. Writing products through `Mul` fixes the shape of the
      product terms, so that lemmas about squares and scaled sums match
      the terms of their callers; the body stays visible to the solver. */
  function Sq(v: real): real { Mul(v, v) }

  function Mul(u: real, v: real): real { u * v }

  lemma MulPos(u: real, v: real)
    requires 0.0 < u && 0.0 < v
    ensures 0.0 < Mul(u, v)
  {
  }

  lemma MulNeg(u: real, v: real)
    requires u < 0.0 && v < 0.0
    ensures 0.0 < Mul(u, v)
  {
  }

  lemma SquareNonneg(v: real)
    ensures 0.0 <= Sq(v)
    ensures v != 0.0 ==> 0.0 < Sq(v)
  {
    if 0.0 < v {
      MulPos(v, v);
    } else if v < 0.0 {
      MulNeg(v, v);
    } else {
      assert Mul(v, v) == 0.0;
    }
  }

  /** Squared Euclidean distance. */
  function Dist2(p: Point, q: Point): (d: real)
    ensures 0.0 <= d
  {
    SquareNonneg(p.x - q.x);
    SquareNonneg(p.y - q.y);
    Sq(p.x - q.x) + Sq(p.y - q.y)
  }

  /** Only a point and itself are at distance zero. */
  lemma Dist2Zero(p: Point, q: Point)
    ensures Dist2(p, q) == 0.0 <==> p == q
  {
    SquareNonneg(p.x - q.x);
    SquareNonneg(p.y - q.y);
  }

  /** The point `a + t * (b - a)` on the line through `a` and `b`. */
  function Lerp(a: Point, b: Point, t: real): Point {
    Point(a.x + t * (b.x - a.x), a.y + t * (b.y - a.y))
  }

  /** `(p - a) . (b - a)`, the numerator of the projection parameter. */
  function Along(p: Point, a: Point, b: Point): real {
    (p.x - a.x) * (b.x - a.x) + (p.y - a.y) * (b.y - a.y)
  }

  /** `Math.max(0, Math.min(1, s))`. */
  function Clamp01(s: real): (t: real)
    ensures 0.0 <= t <= 1.0
    ensures 0.0 <= s <= 1.0 ==> t == s
    ensures s < 0.0 ==> t == 0.0
    ensures 1.0 < s ==> t == 1.0
  {
    var m := if s < 1.0 then s else 1.0;
    if 0.0 < m then m else 0.0
  }

  /** `distanceToLineSegment`, squared: for a zero-length segment the
      distance to its single point, otherwise the distance to the
      projection of `p` whose parameter is clamped to [0, 1]. */
  function SegDist2(p: Point, a: Point, b: Point): (d: real)
    ensures d >= 0.0
    ensures a == b ==> d == Dist2(p, a)
  {
    if Dist2(b, a) == 0.0 then Dist2(p, a)
    else Dist2(p, Lerp(a, b, SegParam(p, a, b)))
  }

  /** The projection parameter of `p` onto a proper segment, clamped to
      [0, 1] (app.js:69 and app.js:87-88). */
  function SegParam(p: Point, a: Point, b: Point): (t: real)
    requires Dist2(b, a) != 0.0
    ensures 0.0 <= t <= 1.0
  {
    Clamp01(Along(p, a, b) / Dist2(b, a))
  }

  /** The parameter of the nearest point of the segment, with the
      zero-length segment mapped to its start (t = 0). */
  function ProjParam(p: Point, a: Point, b: Point): (t: real)
    ensures 0.0 <= t <= 1.0
  {
    if Dist2(b, a) == 0.0 then 0.0 else SegParam(p, a, b)
  }

  /** The point of segment `ab` used by line attraction. */
  function Project(p: Point, a: Point, b: Point): (q: Point)
    ensures OnSegment(q, a, b)
    ensures Dist2(p, q) == SegDist2(p, a, b)
  {
    var t := ProjParam(p, a, b);
    Dist2Zero(b, a);
    assert Dist2(b, a) == 0.0 ==> a == b && Lerp(a, b, t) == a;
    Lerp(a, b, t)
  }

  ghost predicate OnSegment(q: Point, a: Point, b: Point) {
    exists t: real :: 0.0 <= t <= 1.0 && q == Lerp(a, b, t)
  }

  /** One coordinate of the expansion below. */
  lemma ExpandCoord(pc: real, ac: real, bc: real, u: real, lc: real)
    requires lc == ac + u * (bc - ac)
    ensures Sq(pc - lc)
         == Sq(pc - ac) - 2.0 * u * ((pc - ac) * (bc - ac)) + u * u * Sq(bc - ac)
  {
  }

  /** Both coordinates of the expansion below, over plain numbers. The
      products by `2u` and `u * u` are kept whole (as `Mul`) so that the
      caller can match them against `Along` and `Dist2` unexpanded. */
  lemma ExpandCoords(px: real, py: real, ax: real, ay: real, bx: real, by': real,
                     u: real, lx: real, ly: real)
    requires lx == ax + u * (bx - ax) && ly == ay + u * (by' - ay)
    ensures Sq(px - lx) + Sq(py - ly)
         == (Sq(px - ax) + Sq(py - ay))
            - Mul(2.0 * u, (px - ax) * (bx - ax) + (py - ay) * (by' - ay))
            + Mul(u * u, Sq(bx - ax) + Sq(by' - ay))
  {
    ExpandCoord(px, ax, bx, u, lx);
    ExpandCoord(py, ay, by', u, ly);
  }

  /** Expansion of the squared distance from `p` to a point of the line. */
  lemma LerpDist2(p: Point, a: Point, b: Point, u: real)
    ensures Dist2(p, Lerp(a, b, u))
         == Dist2(p, a) - Mul(2.0 * u, Along(p, a, b)) + Mul(u * u, Dist2(b, a))
  {
    ExpandCoords(p.x, p.y, a.x, a.y, b.x, b.y, u, Lerp(a, b, u).x, Lerp(a, b, u).y);
  }

  /** `(u - s) ** 2 - s ** 2`: how the squared distance to the point with
      parameter `u` exceeds the distance to the segment's start, in units
      of the squared length, where `s` is the unclamped projection. */
  function Excess(s: real, u: real): real { u * u - 2.0 * u * s }

  /** Clamping to [0, 1] gives the parameter in [0, 1] closest to `s`. */
  lemma ClampClosest(s: real, u: real)
    requires 0.0 <= u <= 1.0
    ensures Excess(s, Clamp01(s)) <= Excess(s, u)
  {
    var t := Clamp01(s);
    if s < 0.0 {
      assert 0.0 <= -s <= u - s;
      MulMono(-s, u - s);
    } else if 1.0 < s {
      assert 0.0 <= s - 1.0 <= s - u;
      MulMono(s - 1.0, s - u);
    } else {
      assert Clamp01(s) == s;
      SquareNonneg(u - s);
      assert Excess(s, u) - Excess(s, s) == Sq(u - s);
    }
  }

  lemma MulMono(x: real, y: real)
    requires 0.0 <= x <= y
    ensures x * x <= y * y
  {
    assert x * x <= x * y;
    assert x * y <= y * y;
  }

  /** The distance to the segment is the least distance from `p` to any of
      the segment's points. */
  lemma SegDist2Minimal(p: Point, a: Point, b: Point, u: real)
    requires 0.0 <= u <= 1.0
    ensures SegDist2(p, a, b) <= Dist2(p, Lerp(a, b, u))
  {
    var len2 := Dist2(b, a);
    if len2 == 0.0 {
      Dist2Zero(b, a);
      assert Lerp(a, b, u) == a;
    } else {
      var s := Along(p, a, b) / Dist2(b, a);
      ClampClosest(s, u);
      ScaleLe(Dist2(b, a), Excess(s, Clamp01(s)), Excess(s, u));
      OnLineDist2(p, a, b, Clamp01(s));
      OnLineDist2(p, a, b, u);
      assert SegDist2(p, a, b) == Dist2(p, Lerp(a, b, Clamp01(s)));
      Chain(SegDist2(p, a, b), Dist2(p, Lerp(a, b, u)), Dist2(p, a),
            Mul(Dist2(b, a), Excess(s, Clamp01(s))), Mul(Dist2(b, a), Excess(s, u)));
    }
  }

  lemma Chain(x: real, y: real, w: real, c: real, d: real)
    requires x == w + c && y == w + d && c <= d
    ensures x <= y
  {
  }

  /** Squared distance to the point with parameter `u` of a proper
      segment, relative to the distance to its start. */
  lemma OnLineDist2(p: Point, a: Point, b: Point, u: real)
    requires Dist2(b, a) != 0.0
    ensures Dist2(p, Lerp(a, b, u))
         == Dist2(p, a) + Mul(Dist2(b, a), Excess(Along(p, a, b) / Dist2(b, a), u))
  {
    LerpDist2(p, a, b, u);
    Regroup(Dist2(p, a), Along(p, a, b), Dist2(b, a), u);
  }

  lemma Regroup(w: real, d: real, len2: real, u: real)
    requires len2 != 0.0
    ensures w - Mul(2.0 * u, d) + Mul(u * u, len2) == w + Mul(len2, Excess(d / len2, u))
  {
    assert (d / len2) * len2 == d;
  }

  lemma ScaleLe(k: real, x: real, y: real)
    requires 0.0 <= k && x <= y
    ensures Mul(k, x) <= Mul(k, y)
  {
    assert k * y - k * x == k * (y - x);
  }

  /** The distance to a segment never exceeds the distance to either
      endpoint. */
  lemma SegDist2Endpoints(p: Point, a: Point, b: Point)
    ensures SegDist2(p, a, b) <= Dist2(p, a)
    ensures SegDist2(p, a, b) <= Dist2(p, b)
  {
    SegDist2Minimal(p, a, b, 0.0);
    assert Lerp(a, b, 0.0) == a;
    SegDist2Minimal(p, a, b, 1.0);
    assert Lerp(a, b, 1.0) == b;
  }
}
