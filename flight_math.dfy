/**
 * Scalar and vector arithmetic shared by the per-frame update of the
 * scroll-driven flythrough (src/components/Experience.jsx).
 *
 * Numbers are exact reals: the model does not capture IEEE rounding.
 */
module FlightMath {

  function Min(a: real, b: real): real { if a <= b then a else b }

  function Max(a: real, b: real): real { if a >= b then a else b }

  function Abs(a: real): real { if a < 0.0 then -a else a }

  /** Linear interpolation as THREE.MathUtils.lerp and Vector3.lerp compute it. */
  function Lerp(a: real, b: real, t: real): (r: real)
    ensures r - a == t * (b - a)
  {
    (1.0 - t) * a + t * b
  }

  /** With a factor in [0, 1], lerp lands between its two ends. */
  lemma LerpBetween(a: real, b: real, t: real)
    requires 0.0 <= t <= 1.0
    ensures Min(a, b) <= Lerp(a, b, t) <= Max(a, b)
    ensures Abs(Lerp(a, b, t) - b) <= Abs(a - b)
  {
    var r := Lerp(a, b, t);
    assert r - b == (1.0 - t) * (a - b);
    if a <= b {
      MulNonNeg(t, b - a);
      MulNonNeg(1.0 - t, b - a);
    } else {
      MulNonNeg(t, a - b);
      MulNonNeg(1.0 - t, a - b);
    }
  }

  /** The distance left to the target after a lerp is the old distance scaled by 1 - t. */
  lemma LerpGap(a: real, b: real, t: real)
    ensures Lerp(a, b, t) - b == (1.0 - t) * (a - b)
  {
  }

  /** The same distance measured from the target's side. */
  lemma LerpGapFrom(a: real, b: real, t: real)
    ensures b - Lerp(a, b, t) == (1.0 - t) * (b - a)
  {
    LerpGap(a, b, t);
    assert (1.0 - t) * (b - a) == -((1.0 - t) * (a - b));
  }

  /**
   * With a factor above 1 the lerp passes the target and ends on its far
   * side; with a factor above 2 it also ends farther from the target than it
   * started.
   */
  lemma LerpOvershoots(a: real, b: real, t: real)
    requires 1.0 < t && a != b
    ensures (Lerp(a, b, t) - b) * (a - b) < 0.0
    ensures 2.0 < t ==> Abs(Lerp(a, b, t) - b) > Abs(a - b)
  {
    LerpGap(a, b, t);
    ScaledBeyond(1.0 - t, a - b, Lerp(a, b, t) - b);
  }

  /** d == k * e with k < 0: d lies on the other side of 0 from e, and is larger when k < -1. */
  lemma ScaledBeyond(k: real, e: real, d: real)
    requires k < 0.0 && e != 0.0 && d == k * e
    ensures d * e < 0.0
    ensures k < -1.0 ==> Abs(d) > Abs(e)
  {
    var m := (-k - 1.0) * e;
    Distribute(k, e, d, m);
    if 0.0 < e {
      MulNegPos(k, e);
      MulNegPos(d, e);
      if k < -1.0 {
        MulPos(-k - 1.0, e);
      }
    } else {
      MulNegNeg(k, e);
      MulNegPos(e, d);
      if k < -1.0 {
        MulNegPos(e, -k - 1.0);
      }
    }
  }

  /** k * e splits into -(-k - 1) * e - e. */
  lemma Distribute(k: real, e: real, d: real, m: real)
    requires d == k * e && m == (-k - 1.0) * e
    ensures d == -m - e
  {
  }

  lemma MulNegPos(x: real, y: real)
    requires x < 0.0 < y
    ensures x * y < 0.0 && y * x < 0.0
  {
  }

  lemma MulNegNeg(x: real, y: real)
    requires x < 0.0 && y < 0.0
    ensures 0.0 < x * y
  {
  }

  /** Scaling by a factor in [0, 1] never increases a magnitude. */
  lemma ScaleShrinks(k: real, x: real)
    requires 0.0 <= k <= 1.0
    ensures Abs(k * x) <= Abs(x)
  {
    if 0.0 <= x {
      MulNonNeg(k, x);
      MulNonNeg(1.0 - k, x);
    } else {
      MulNonNeg(k, -x);
      MulNonNeg(1.0 - k, -x);
    }
  }

  lemma MulNonNeg(x: real, y: real)
    requires 0.0 <= x && 0.0 <= y
    ensures 0.0 <= x * y
  {
  }

  lemma MulPos(x: real, y: real)
    requires 0.0 < x && 0.0 < y
    ensures 0.0 < x * y
  {
  }


  function Pow(x: real, n: nat): real
  {
    if n == 0 then 1.0 else x * Pow(x, n - 1)
  }

  /** A factor in [0, 1] raised to a power stays in [0, 1] and never grows with the power. */
  lemma {:induction false} PowShrinks(x: real, n: nat)
    requires 0.0 <= x <= 1.0
    ensures 0.0 <= Pow(x, n) <= 1.0
    ensures Pow(x, n + 1) <= Pow(x, n)
  {
    if n > 0 {
      PowShrinks(x, n - 1);
    }
    MulNonNeg(x, Pow(x, n));
    MulNonNeg(1.0 - x, Pow(x, n));
  }

  /** A factor in [0, 1] raised to a larger power gives a smaller value. */
  lemma {:induction false} PowAntitone(x: real, m: nat, n: nat)
    requires 0.0 <= x <= 1.0 && m <= n
    ensures Pow(x, n) <= Pow(x, m)
  {
    if m < n {
      PowAntitone(x, m, n - 1);
      PowShrinks(x, n - 1);
    }
  }

  /** A power of a larger non-negative base is larger. */
  lemma {:induction false} PowMonotoneBase(x: real, y: real, n: nat)
    requires 0.0 <= x <= y
    ensures 0.0 <= Pow(x, n) <= Pow(y, n)
  {
    if n > 0 {
      PowMonotoneBase(x, y, n - 1);
      MulLe(x, y, Pow(x, n - 1), Pow(y, n - 1));
    }
  }

  lemma {:induction false} PowAdd(x: real, m: nat, n: nat)
    ensures Pow(x, m + n) == Pow(x, m) * Pow(x, n)
  {
    if n > 0 {
      PowAdd(x, m, n - 1);
      assert Pow(x, m + n) == x * Pow(x, m + (n - 1));
    }
  }

  lemma {:induction false} PowMul(x: real, m: nat, k: nat)
    ensures Pow(x, m * k) == Pow(Pow(x, m), k)
  {
    if k > 0 {
      PowMul(x, m, k - 1);
      var a := m * (k - 1);
      assert m * k == a + m;
      PowAdd(x, a, m);
      var y := Pow(x, m);
      assert Pow(y, k) == y * Pow(y, k - 1);
    }
  }

  lemma MulLe(a: real, b: real, c: real, d: real)
    requires 0.0 <= a <= b && 0.0 <= c <= d
    ensures 0.0 <= a * c <= b * d
  {
    MulNonNeg(a, c);
    MulNonNeg(b - a, c);
    MulNonNeg(b, d - c);
  }

  /** Scaling by a factor in [0, c] shrinks a magnitude to at most c times it. */
  lemma ScaleBelow(k: real, c: real, e: real, d: real)
    requires 0.0 <= k <= c && d == k * e
    ensures Abs(d) <= c * Abs(e)
  {
    MulLe(k, c, Abs(e), Abs(e));
    if e < 0.0 {
      assert d == -(k * Abs(e));
    }
  }

  /** e shrunk n times by the factor k. */
  function Shrunk(e: real, k: real, n: nat): real
  {
    if n == 0 then e else k * Shrunk(e, k, n - 1)
  }

  lemma {:induction false} PowScales(e: real, k: real, n: nat)
    ensures Shrunk(e, k, n) == Pow(k, n) * e
  {
    if n > 0 {
      PowScales(e, k, n - 1);
      ScaleStep(k, Pow(k, n - 1), Pow(k, n), e, Shrunk(e, k, n - 1), Shrunk(e, k, n));
    }
  }

  lemma ScaleStep(k: real, p: real, q: real, e: real, d: real, x: real)
    requires q == k * p && d == p * e && x == k * d
    ensures x == q * e
  {
  }

  /** n lerps in a row towards the same target b, each by the factor t. */
  function LerpFrames(a: real, b: real, t: real, n: nat): real
  {
    if n == 0 then a else Lerp(LerpFrames(a, b, t, n - 1), b, t)
  }

  /** After n lerps by t towards a fixed target, the distance left is (1 - t)^n times the first one, for every t. */
  lemma {:induction false} LerpFramesGap(a: real, b: real, t: real, n: nat)
    ensures LerpFrames(a, b, t, n) - b == Pow(1.0 - t, n) * (a - b)
  {
    LerpFramesShrunk(a, b, t, n);
    PowScales(a - b, 1.0 - t, n);
  }

  lemma {:induction false} LerpFramesShrunk(a: real, b: real, t: real, n: nat)
    ensures LerpFrames(a, b, t, n) - b == Shrunk(a - b, 1.0 - t, n)
  {
    if n > 0 {
      LerpGap(LerpFrames(a, b, t, n - 1), b, t);
      LerpFramesShrunk(a, b, t, n - 1);
    }
  }

  /** Math.min(Math.max(x, 0), 1) and Math.max(Math.min(x, 1), 0) alike. */
  function Clamp01(x: real): (r: real)
    ensures 0.0 <= r <= 1.0
    ensures 0.0 <= x <= 1.0 ==> r == x
    ensures x < 0.0 ==> r == 0.0
    ensures x > 1.0 ==> r == 1.0
  {
    Max(Min(x, 1.0), 0.0)
  }

  datatype Vec3 = Vec3(x: real, y: real, z: real)

  /** Vector3.lerp: each component moves the fraction t of the way to v. */
  function LerpVec(u: Vec3, v: Vec3, t: real): (r: Vec3)
    ensures t == 0.0 ==> r == u
    ensures t == 1.0 ==> r == v
  {
    Vec3(Lerp(u.x, v.x, t), Lerp(u.y, v.y, t), Lerp(u.z, v.z, t))
  }

  /** u - v, coordinate by coordinate (Vector3.sub). */
  function Sub(u: Vec3, v: Vec3): Vec3
  {
    Vec3(u.x - v.x, u.y - v.y, u.z - v.z)
  }

  /** v scaled by k (Vector3.multiplyScalar). */
  function Scale(k: real, v: Vec3): Vec3
  {
    Vec3(k * v.x, k * v.y, k * v.z)
  }

  /** n Vector3.lerp calls in a row towards the same target v, each by the factor t. */
  function LerpVecFrames(u: Vec3, v: Vec3, t: real, n: nat): Vec3
  {
    if n == 0 then u else LerpVec(LerpVecFrames(u, v, t, n - 1), v, t)
  }

  /** Repeated vector lerps act on each coordinate separately. */
  lemma {:induction false} LerpVecFramesAxes(u: Vec3, v: Vec3, t: real, n: nat)
    ensures LerpVecFrames(u, v, t, n) ==
      Vec3(LerpFrames(u.x, v.x, t, n), LerpFrames(u.y, v.y, t, n), LerpFrames(u.z, v.z, t, n))
  {
    if n > 0 {
      LerpVecFramesAxes(u, v, t, n - 1);
    }
  }

  /** After n vector lerps by t towards a fixed target, the offset from it is (1 - t)^n times the first one. */
  lemma LerpVecFramesGap(u: Vec3, v: Vec3, t: real, n: nat)
    ensures Sub(LerpVecFrames(u, v, t, n), v) == Scale(Pow(1.0 - t, n), Sub(u, v))
  {
    LerpVecFramesAxes(u, v, t, n);
    var k, r, w := Pow(1.0 - t, n), LerpVecFrames(u, v, t, n), Sub(u, v);
    AxisGap(u.x, v.x, t, n, k, r.x, w.x);
    AxisGap(u.y, v.y, t, n, k, r.y, w.y);
    AxisGap(u.z, v.z, t, n, k, r.z, w.z);
  }

  /** One coordinate of LerpVecFramesGap, with the power named k and the first offset e. */
  lemma AxisGap(c: real, p: real, t: real, n: nat, k: real, x: real, e: real)
    requires k == Pow(1.0 - t, n) && x == LerpFrames(c, p, t, n) && e == c - p
    ensures x - p == k * e
  {
    LerpFramesGap(c, p, t, n);
  }

  predicate Between(a: real, b: real, r: real) { Min(a, b) <= r <= Max(a, b) }

  /**
   * With a factor in [0, 1], every coordinate lands between the old one and
   * the target's, and its distance to the target is scaled by exactly 1 - t.
   */
  lemma LerpVecToward(u: Vec3, v: Vec3, t: real)
    requires 0.0 <= t <= 1.0
    ensures var r := LerpVec(u, v, t);
      Between(u.x, v.x, r.x) && Between(u.y, v.y, r.y) && Between(u.z, v.z, r.z)
    ensures var r := LerpVec(u, v, t);
      r.x - v.x == (1.0 - t) * (u.x - v.x) &&
      r.y - v.y == (1.0 - t) * (u.y - v.y) &&
      r.z - v.z == (1.0 - t) * (u.z - v.z)
  {
    LerpBetween(u.x, v.x, t);
    LerpBetween(u.y, v.y, t);
    LerpBetween(u.z, v.z, t);
    LerpGap(u.x, v.x, t);
    LerpGap(u.y, v.y, t);
    LerpGap(u.z, v.z, t);
  }
}
