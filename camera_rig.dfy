/**
 * The per-frame update of the flythrough (the useFrame callback of
 * src/components/Experience.jsx, lines 308-426), in the order the source runs
 * it: the proximity pass over the text sections, scroll smoothing, the colour
 * timeline cursor, the camera follow, the camera look-ahead parameter, and the
 * airplane's bank angle.
 *
 * What three.js and the browser compute is passed in as functions: the curve
 * point at a parameter (CatmullRomCurve3.getPoint), the distance between two
 * points (Vector3.distanceTo), and the raw atan2 bank angle at the smoothed
 * offset. The bank angle depends on the smoothed offset through the look-at
 * direction of lines 374-376 and the tangent and atan2 of lines 387-397; the
 * camera's orientation, which lines 370-372 and 378-384 read and set, is not
 * part of this model.
 */
module CameraRig {
  import opened FlightMath
  import opened Proximity
  import opened ScrollSmoother
  import opened ColorTimeline
  import opened Banking

  /** How far ahead on the curve the camera looks (line 14). */
  const CURVE_AHEAD_CAMERA: real := 0.008
  /** How far ahead on the curve the airplane's tangent is taken (line 15). */
  const CURVE_AHEAD_AIRPLANE: real := 0.02
  /** The rate at which the camera group chases the curve point (line 361). */
  const CAMERA_FOLLOW_RATE: real := 24.0
  /** The distance between consecutive control points along z (line 13). */
  const CURVE_DISTANCE: real := 250.0

  /** The curve's control points (lines 20-34). */
  const CURVE_POINTS: seq<Vec3> := [
    Vec3(0.0, 0.0, 0.0),
    Vec3(0.0, 0.0, -CURVE_DISTANCE),
    Vec3(100.0, 0.0, -2.0 * CURVE_DISTANCE),
    Vec3(-100.0, 0.0, -3.0 * CURVE_DISTANCE),
    Vec3(100.0, 0.0, -4.0 * CURVE_DISTANCE),
    Vec3(0.0, 0.0, -5.0 * CURVE_DISTANCE),
    Vec3(0.0, 0.0, -6.0 * CURVE_DISTANCE),
    Vec3(0.0, 0.0, -7.0 * CURVE_DISTANCE)
  ]

  /** The four text sections, placed beside control points 1 to 4 (lines 45-90). */
  const TEXT_SECTIONS: seq<Section> := [
    Section(Vec3(CURVE_POINTS[1].x - 3.0, CURVE_POINTS[1].y, CURVE_POINTS[1].z), -1.0),
    Section(Vec3(CURVE_POINTS[2].x + 2.0, CURVE_POINTS[2].y, CURVE_POINTS[2].z), 1.5),
    Section(Vec3(CURVE_POINTS[3].x - 3.0, CURVE_POINTS[3].y, CURVE_POINTS[3].z), -1.0),
    Section(Vec3(CURVE_POINTS[4].x + 3.5, CURVE_POINTS[4].y, CURVE_POINTS[4].z - 12.0), 1.5)
  ]

  /** The curve parameter the camera looks at (lines 365-367). */
  function LookAheadParam(s: real): (r: real)
    ensures r <= 1.0
    ensures 0.0 <= s ==> 0.0 <= r
    ensures s <= 1.0 ==> s <= r
    ensures r - s <= CURVE_AHEAD_CAMERA
    ensures s + CURVE_AHEAD_CAMERA <= 1.0 ==> r == s + CURVE_AHEAD_CAMERA
  {
    Min(s + CURVE_AHEAD_CAMERA, 1.0)
  }

  /** The curve parameter of the airplane's tangent (line 387); unlike the camera's, it is not clamped. */
  function AirplaneTangentParam(s: real): real
  {
    s + CURVE_AHEAD_AIRPLANE
  }

  /** At the end of the path the airplane's tangent is asked for beyond the curve's end. */
  lemma AirplaneTangentParamNotClamped()
    ensures AirplaneTangentParam(1.0) > 1.0
    ensures LookAheadParam(1.0) == 1.0
  {
  }

  /** What the update keeps from one frame to the next. */
  datatype RigState = RigState(lastScroll: real, railX: real, camera: Vec3)

  /**
   * One frame, as a function of the previous state. The sections are measured
   * from the camera group where it was before this frame moved it.
   */
  function Frame(st: RigState, sections: seq<Section>, dist: (Vec3, Vec3) -> real,
                curve: real -> Vec3, delta: real, offset: real): (r: RigState)
    ensures 0.0 <= r.lastScroll <= 1.0
  {
    var ps := Probes(sections, st.camera, dist);
    var s := Smooth(st.lastScroll, offset, delta, Friction(ps));
    RigState(s, RailAfter(st.railX, ps, delta), LerpVec(st.camera, curve(s), delta * CAMERA_FOLLOW_RATE))
  }

  /** A frame with no elapsed time changes nothing: every lerp factor is 0. */
  lemma FrameZeroDelta(st: RigState, sections: seq<Section>, dist: (Vec3, Vec3) -> real,
                      curve: real -> Vec3, offset: real)
    requires 0.0 <= st.lastScroll <= 1.0
    ensures Frame(st, sections, dist, curve, 0.0, offset) == st
  {
    var ps := Probes(sections, st.camera, dist);
    RailZeroDelta(st.railX, ps);
    SmoothZeroDelta(st.lastScroll, offset, Friction(ps));
  }

  /** The rail never strays beyond the largest rail distance, however many frames of at most a second run. */
  lemma FrameRailBounded(st: RigState, sections: seq<Section>, dist: (Vec3, Vec3) -> real,
                        curve: real -> Vec3, delta: real, offset: real, bound: real)
    requires 0.0 <= delta <= 1.0 && Abs(st.railX) <= bound
    requires forall i :: 0 <= i < |sections| ==>
      Abs(sections[i].cameraRailDist) <= bound && 0.0 <= dist(sections[i].position, st.camera)
    ensures Abs(Frame(st, sections, dist, curve, delta, offset).railX) <= bound
  {
    var ps := Probes(sections, st.camera, dist);
    assert WellMeasured(ps, bound);
    RailStaysBounded(st.railX, ps, delta, bound);
  }

  /**
   * The camera follow (line 361) with a factor 24 * delta of at most 1 (frames
   * of at most 1/24 s): every coordinate of the camera group lands between
   * where it was and the new curve point, and its distance to that point is
   * scaled by exactly 1 - 24 * delta.
   */
  lemma FrameCameraFollows(st: RigState, sections: seq<Section>, dist: (Vec3, Vec3) -> real,
                          curve: real -> Vec3, delta: real, offset: real)
    requires 0.0 <= delta * CAMERA_FOLLOW_RATE <= 1.0
    ensures var r := Frame(st, sections, dist, curve, delta, offset);
      var p := curve(r.lastScroll);
      Between(st.camera.x, p.x, r.camera.x) && Between(st.camera.y, p.y, r.camera.y) &&
      Between(st.camera.z, p.z, r.camera.z)
    ensures var r := Frame(st, sections, dist, curve, delta, offset);
      var p := curve(r.lastScroll);
      var k := 1.0 - delta * CAMERA_FOLLOW_RATE;
      r.camera.x - p.x == k * (st.camera.x - p.x) &&
      r.camera.y - p.y == k * (st.camera.y - p.y) &&
      r.camera.z - p.z == k * (st.camera.z - p.z)
  {
    var r := Frame(st, sections, dist, curve, delta, offset);
    LerpVecToward(st.camera, curve(r.lastScroll), delta * CAMERA_FOLLOW_RATE);
  }

  /**
   * The follow factor is never clamped: in frames longer than 1/24 s the
   * camera group passes the curve point on every axis where it was not on it
   * yet, and in frames longer than 1/12 s it ends farther from it than before.
   */
  lemma FrameCameraOvershoots(st: RigState, sections: seq<Section>, dist: (Vec3, Vec3) -> real,
                             curve: real -> Vec3, delta: real, offset: real)
    requires 1.0 < delta * CAMERA_FOLLOW_RATE
    ensures var r := Frame(st, sections, dist, curve, delta, offset);
      var p := curve(r.lastScroll);
      (st.camera.x != p.x ==> (r.camera.x - p.x) * (st.camera.x - p.x) < 0.0) &&
      (st.camera.y != p.y ==> (r.camera.y - p.y) * (st.camera.y - p.y) < 0.0) &&
      (st.camera.z != p.z ==> (r.camera.z - p.z) * (st.camera.z - p.z) < 0.0)
    ensures var r := Frame(st, sections, dist, curve, delta, offset);
      var p := curve(r.lastScroll);
      2.0 < delta * CAMERA_FOLLOW_RATE ==>
        (st.camera.x != p.x ==> Abs(r.camera.x - p.x) > Abs(st.camera.x - p.x)) &&
        (st.camera.y != p.y ==> Abs(r.camera.y - p.y) > Abs(st.camera.y - p.y)) &&
        (st.camera.z != p.z ==> Abs(r.camera.z - p.z) > Abs(st.camera.z - p.z))
  {
    var r := Frame(st, sections, dist, curve, delta, offset);
    var p := curve(r.lastScroll);
    var t := delta * CAMERA_FOLLOW_RATE;
    assert r.camera == LerpVec(st.camera, p, t);
    AxisOvershoots(st.camera.x, p.x, t);
    AxisOvershoots(st.camera.y, p.y, t);
    AxisOvershoots(st.camera.z, p.z, t);
  }

  /** One axis of FrameCameraOvershoots. */
  lemma AxisOvershoots(c: real, p: real, t: real)
    requires 1.0 < t
    ensures c != p ==> (Lerp(c, p, t) - p) * (c - p) < 0.0
    ensures 2.0 < t && c != p ==> Abs(Lerp(c, p, t) - p) > Abs(c - p)
  {
    if c != p {
      LerpOvershoots(c, p, t);
    }
  }

  /** n frames of the same length with the same raw offset. */
  function Frames(st: RigState, sections: seq<Section>, dist: (Vec3, Vec3) -> real,
                  curve: real -> Vec3, delta: real, offset: real, n: nat): RigState
  {
    if n == 0 then st else Frame(Frames(st, sections, dist, curve, delta, offset, n - 1), sections, dist, curve, delta, offset)
  }

  /**
   * Once the stored offset has reached an in-range raw offset it stays there,
   * and the camera group has made n lerps towards the fixed curve point.
   */
  lemma {:induction false} FramesAtRest(st: RigState, sections: seq<Section>, dist: (Vec3, Vec3) -> real,
                                       curve: real -> Vec3, delta: real, offset: real, n: nat)
    requires 0.0 <= offset <= 1.0 && st.lastScroll == offset
    ensures var r := Frames(st, sections, dist, curve, delta, offset, n);
      r.lastScroll == offset &&
      r.camera == LerpVecFrames(st.camera, curve(offset), delta * CAMERA_FOLLOW_RATE, n)
  {
    if n > 0 {
      FramesAtRest(st, sections, dist, curve, delta, offset, n - 1);
      var prev := Frames(st, sections, dist, curve, delta, offset, n - 1);
      SmoothAtRest(offset, delta, Friction(Probes(sections, prev.camera, dist)));
    }
  }

  /**
   * With the scroll at rest, the camera group's offset from the curve point
   * after n frames is (1 - 24 * delta)^n times the first one.
   */
  lemma {:induction false} CameraConvergesAtRest(st: RigState, sections: seq<Section>, dist: (Vec3, Vec3) -> real,
                             curve: real -> Vec3, delta: real, offset: real, n: nat)
    requires 0.0 <= offset <= 1.0 && st.lastScroll == offset
    ensures var r := Frames(st, sections, dist, curve, delta, offset, n);
      Sub(r.camera, curve(offset)) == Scale(Pow(1.0 - delta * CAMERA_FOLLOW_RATE, n), Sub(st.camera, curve(offset)))
  {
    FramesAtRest(st, sections, dist, curve, delta, offset, n);
    LerpVecFramesGap(st.camera, curve(offset), delta * CAMERA_FOLLOW_RATE, n);
  }

  /**
   * For example, at 10 frames a second (a follow factor of 2.4) the camera
   * group, starting at the origin with the scroll at rest at 0 and the curve
   * point there at (1, 0, 0), is at x = 2.4 after one frame and at x = -0.96
   * after two: 1.4 past the point, then 1.96 on the other side.
   */
  lemma CameraOvershootExample(st: RigState, sections: seq<Section>, dist: (Vec3, Vec3) -> real,
                               curve: real -> Vec3)
    requires st.lastScroll == 0.0 && st.camera == Vec3(0.0, 0.0, 0.0) && curve(0.0) == Vec3(1.0, 0.0, 0.0)
    ensures Frames(st, sections, dist, curve, 0.1, 0.0, 1).camera.x == 2.4
    ensures Frames(st, sections, dist, curve, 0.1, 0.0, 2).camera.x == -0.96
  {
    FramesAtRest(st, sections, dist, curve, 0.1, 0.0, 1);
    FramesAtRest(st, sections, dist, curve, 0.1, 0.0, 2);
    assert LerpVecFrames(Vec3(0.0, 0.0, 0.0), Vec3(1.0, 0.0, 0.0), 2.4, 1).x == 2.4;
    assert LerpVecFrames(Vec3(0.0, 0.0, 0.0), Vec3(1.0, 0.0, 0.0), 2.4, 2).x == -0.96;
  }

  /** 0.616, the camera's follow factor at 60 frames a second, to the 15th power is below 0.001. */
  lemma FollowPowBound(x: real, z: real)
    requires x == 0.616 && z == 0.09
    ensures Pow(x, 15) < 0.001
  {
    PowMul(x, 5, 3);
    assert Pow(x, 5) <= z;
    PowMonotoneBase(Pow(x, 5), z, 3);
    assert Pow(z, 3) < 0.001;
  }

  /**
   * At 60 frames a second (delta = 0.016, a follow factor of 0.384), with the
   * scroll at rest, the camera group comes within a thousandth of its first
   * distance to the curve point, on every axis, after 15 frames and stays there.
   */
  lemma {:induction false} CameraSettlesAt60Fps(st: RigState, sections: seq<Section>, dist: (Vec3, Vec3) -> real,
                             curve: real -> Vec3, offset: real, n: nat)
    requires 0.0 <= offset <= 1.0 && st.lastScroll == offset && 15 <= n
    ensures var r := Frames(st, sections, dist, curve, 0.016, offset, n);
      var p := curve(offset);
      Abs(r.camera.x - p.x) <= 0.001 * Abs(st.camera.x - p.x) &&
      Abs(r.camera.y - p.y) <= 0.001 * Abs(st.camera.y - p.y) &&
      Abs(r.camera.z - p.z) <= 0.001 * Abs(st.camera.z - p.z)
  {
    CameraConvergesAtRest(st, sections, dist, curve, 0.016, offset, n);
    SettleAxes(st.camera, curve(offset), Frames(st, sections, dist, curve, 0.016, offset, n).camera, n);
  }

  /** CameraSettlesAt60Fps on plain vectors. */
  lemma {:induction false} SettleAxes(c: Vec3, p: Vec3, r: Vec3, n: nat)
    requires 15 <= n && Sub(r, p) == Scale(Pow(1.0 - 0.016 * CAMERA_FOLLOW_RATE, n), Sub(c, p))
    ensures Abs(r.x - p.x) <= 0.001 * Abs(c.x - p.x) &&
      Abs(r.y - p.y) <= 0.001 * Abs(c.y - p.y) &&
      Abs(r.z - p.z) <= 0.001 * Abs(c.z - p.z)
  {
    SettleAxis(c.x, p.x, r.x, n);
    SettleAxis(c.y, p.y, r.y, n);
    SettleAxis(c.z, p.z, r.z, n);
  }

  /** One axis of CameraSettlesAt60Fps. */
  lemma {:induction false} SettleAxis(c: real, p: real, x: real, n: nat)
    requires 15 <= n && x - p == Pow(1.0 - 0.016 * CAMERA_FOLLOW_RATE, n) * (c - p)
    ensures Abs(x - p) <= 0.001 * Abs(c - p)
  {
    var f := 1.0 - 0.016 * CAMERA_FOLLOW_RATE;
    assert f == 0.616;
    PowAntitone(f, 15, n);
    PowShrinks(f, n);
    FollowPowBound(f, 0.09);
    ScaleBelow(Pow(f, n), 0.001, c - p, x - p);
  }

  /**
   * Scroll smoothing with frames of at most a second each keeps at least the
   * distance to a raw offset in [0, 1] ahead of the stored one shrunk n times
   * by k = 1 - delta, whatever the sections and however near they are:
   * friction is at most 1.
   */
  lemma {:induction false} ScrollLag(st: RigState, sections: seq<Section>, dist: (Vec3, Vec3) -> real,
                                    curve: real -> Vec3, delta: real, offset: real, k: real, n: nat)
    requires 0.0 <= delta <= 1.0 && k == 1.0 - delta && 0.0 <= st.lastScroll <= offset <= 1.0
    ensures var s := Frames(st, sections, dist, curve, delta, offset, n).lastScroll;
      st.lastScroll <= s <= offset && 0.0 <= Shrunk(offset - st.lastScroll, k, n) <= offset - s
  {
    if n > 0 {
      ScrollLag(st, sections, dist, curve, delta, offset, k, n - 1);
      ScrollLagStep(st, sections, dist, curve, delta, offset, k, n);
    } else {
      assert Frames(st, sections, dist, curve, delta, offset, n) == st;
      assert Shrunk(offset - st.lastScroll, k, n) == offset - st.lastScroll;
    }
  }

  /** The induction step of ScrollLag. */
  lemma {:induction false} ScrollLagStep(st: RigState, sections: seq<Section>, dist: (Vec3, Vec3) -> real,
                                        curve: real -> Vec3, delta: real, offset: real, k: real, n: nat)
    requires 0.0 <= delta <= 1.0 && k == 1.0 - delta && 0.0 <= st.lastScroll <= offset <= 1.0 && 0 < n
    requires var s := Frames(st, sections, dist, curve, delta, offset, n - 1).lastScroll;
      st.lastScroll <= s <= offset && 0.0 <= Shrunk(offset - st.lastScroll, k, n - 1) <= offset - s
    ensures var s := Frames(st, sections, dist, curve, delta, offset, n).lastScroll;
      st.lastScroll <= s <= offset && 0.0 <= Shrunk(offset - st.lastScroll, k, n) <= offset - s
  {
    var prev := Frames(st, sections, dist, curve, delta, offset, n - 1);
    var gap := offset - prev.lastScroll;
    FrameLags(prev, sections, dist, curve, delta, offset, k, gap);
    var next := Frame(prev, sections, dist, curve, delta, offset);
    var left := offset - next.lastScroll;
    LagStep(k, offset - st.lastScroll, n, gap, left);
    assert Frames(st, sections, dist, curve, delta, offset, n) == next;
  }

  /** One frame's share of ScrollLag, on plain numbers. */
  lemma {:induction false} LagStep(k: real, e: real, n: nat, gap: real, next: real)
    requires 0 < n && 0.0 <= k && 0.0 <= Shrunk(e, k, n - 1) <= gap && k * gap <= next
    ensures 0.0 <= Shrunk(e, k, n) <= next
  {
    MulLe(k, k, Shrunk(e, k, n - 1), gap);
  }

  /** One frame of ScrollLag: SmoothLags with the friction the proximity pass gives, which is at most 1. */
  lemma FrameLags(st: RigState, sections: seq<Section>, dist: (Vec3, Vec3) -> real,
                  curve: real -> Vec3, delta: real, offset: real, k: real, gap: real)
    requires 0.0 <= delta <= 1.0 && k == 1.0 - delta && 0.0 <= st.lastScroll <= offset <= 1.0
    requires gap == offset - st.lastScroll
    ensures var s := Frame(st, sections, dist, curve, delta, offset).lastScroll;
      st.lastScroll <= s <= offset && k * gap <= offset - s
  {
    var ps := Probes(sections, st.camera, dist);
    FrictionRange(ps);
    SmoothLags(st.lastScroll, offset, delta, Friction(ps));
  }

  /** 0.984 to the 300th power is above 0.006. */
  lemma ScrollPowBound(x: real, y: real, z: real)
    requires x == 0.984 && y == 0.85 && z == 0.19
    ensures Pow(x, 300) > 0.006
  {
    PowMul(x, 10, 30);
    assert Pow(x, 10) >= y;
    PowMonotoneBase(y, Pow(x, 10), 30);
    PowMul(y, 10, 3);
    assert Pow(y, 10) >= z;
    PowMonotoneBase(z, Pow(y, 10), 3);
    assert Pow(z, 3) > 0.006;
  }

  /**
   * Scrolling from 0 to the middle of the page (raw offset 0.5) at 60 frames
   * a second, the stored offset is still more than 0.001 short of 0.5 after
   * 300 frames (5 seconds), even with no section near: each frame closes at
   * most 1.6% of the remaining distance.
   */
  lemma {:induction false} ScrollStillBehindAfter300Frames(st: RigState, sections: seq<Section>, dist: (Vec3, Vec3) -> real,
                                        curve: real -> Vec3, n: nat)
    requires st.lastScroll == 0.0 && n <= 300
    ensures Frames(st, sections, dist, curve, 0.016, 0.5, n).lastScroll < 0.499
  {
    ScrollLag(st, sections, dist, curve, 0.016, 0.5, 0.984, n);
    PowScales(0.5, 0.984, n);
    PowAntitone(0.984, n, 300);
    ScrollPowBound(0.984, 0.85, 0.19);
  }

  /** Every authored section pulls the rail by at most 1.5 either way. */
  lemma AuthoredRailDistances()
    ensures forall i :: 0 <= i < |TEXT_SECTIONS| ==> Abs(TEXT_SECTIONS[i].cameraRailDist) <= 1.5
  {
  }

  /**
   * With the authored sections, a rig that starts with the rail at 0 keeps it
   * within 1.5 either way for any number of frames of at most a second,
   * as long as distances are not negative.
   */
  lemma {:induction false} AuthoredRailStaysBounded(st: RigState, dist: (Vec3, Vec3) -> real,
                                                   curve: real -> Vec3, delta: real, offset: real, n: nat)
    requires 0.0 <= delta <= 1.0 && st.railX == 0.0
    requires forall a, b :: 0.0 <= dist(a, b)
    ensures Abs(Frames(st, TEXT_SECTIONS, dist, curve, delta, offset, n).railX) <= 1.5
  {
    if n > 0 {
      AuthoredRailStaysBounded(st, dist, curve, delta, offset, n - 1);
      AuthoredRailDistances();
      var prev := Frames(st, TEXT_SECTIONS, dist, curve, delta, offset, n - 1);
      FrameRailBounded(prev, TEXT_SECTIONS, dist, curve, delta, offset, 1.5);
    }
  }

  /**
   * The state the update keeps between frames: the smoothed scroll offset
   * (lastScroll.current), the x position of the camera rail group and the
   * position of the camera group.
   */
  class FlightRig {
    const sections: seq<Section>
    var lastScroll: real
    var railX: real
    var camera: Vec3

    /** Refs start at 0 and both groups at the origin (lines 302-305, 467-469). */
    constructor (sections: seq<Section>)
      ensures this.sections == sections
      ensures lastScroll == 0.0 && railX == 0.0 && camera == Vec3(0.0, 0.0, 0.0)
    {
      this.sections := sections;
      lastScroll := 0.0;
      railX := 0.0;
      camera := Vec3(0.0, 0.0, 0.0);
    }

    function State(): RigState
      reads this
    {
      RigState(lastScroll, railX, camera)
    }

    /**
     * The proximity pass (lines 311-331): visits the sections in order,
     * measuring each from the camera group, and returns the friction, the
     * rail position after one lerp per in-range section, and whether no
     * section was in range.
     */
    method ScanSections(rail: real, delta: real, dist: (Vec3, Vec3) -> real)
      returns (friction: real, railOut: real, resetCameraRail: bool)
      ensures var ps := Probes(sections, camera, dist);
        friction == Friction(ps) && railOut == RailScan(rail, ps, delta) && resetCameraRail == !AnyInRange(ps)
    {
      friction := 1.0;
      railOut := rail;
      resetCameraRail := true;
      ghost var ps := Probes(sections, camera, dist);

      for i := 0 to |sections|
        invariant friction == Friction(ps[..i])
        invariant railOut == RailScan(rail, ps[..i], delta)
        invariant resetCameraRail == !AnyInRange(ps[..i])
      {
        assert ps[..i + 1][..i] == ps[..i];
        var distance := dist(sections[i].position, camera);
        if distance < FRICTION_DISTANCE {
          friction := Max(distance / FRICTION_DISTANCE, FRICTION_FLOOR);
          var targetCameraRail := (1.0 - distance / FRICTION_DISTANCE) * sections[i].cameraRailDist;
          railOut := Lerp(railOut, targetCameraRail, delta);
          resetCameraRail := false;
        } else if AnyInRange(ps[..i + 1]) {
          ghost var j :| 0 <= j < i + 1 && InRange(ps[..i + 1][j]);
          assert j < i && ps[..i][j] == ps[..i + 1][j];
        }
      }
      assert ps[..|sections|] == ps;
    }

    /**
     * One frame of delta seconds with raw scroll offset offset. Returns the
     * timeline cursor, the camera's look-ahead parameter and the bank angle
     * the airplane turns towards.
     */
    method Tick(delta: real, offset: real, dist: (Vec3, Vec3) -> real,
                curve: real -> Vec3, rawBankAt: real -> real)
      returns (cursor: real, lookAhead: real, bank: real)
      modifies this
      ensures State() == Frame(old(State()), sections, dist, curve, delta, offset)
      ensures cursor == Cursor(lastScroll, Duration(TWEENS))
      ensures lookAhead == LookAheadParam(lastScroll)
      ensures bank == BankAngle(rawBankAt(lastScroll))
    {
      ghost var ps := Probes(sections, camera, dist);
      var scrollOffset := Max(0.0, offset);
      var friction, resetCameraRail;
      friction, railX, resetCameraRail := ScanSections(railX, delta, dist);

      if resetCameraRail {
        RailScanNoneInRange(old(railX), ps, delta);
        railX := Lerp(railX, 0.0, delta);
      }
      assert railX == RailAfter(old(railX), ps, delta);

      var step := delta * friction;
      assert step == delta * Friction(ps) && scrollOffset == ScrollTarget(offset);
      SmoothByStep(old(lastScroll), offset, delta, Friction(ps), step);
      var lerpedScrollOffset := Lerp(lastScroll, scrollOffset, step);
      lerpedScrollOffset := Min(lerpedScrollOffset, 1.0);
      lerpedScrollOffset := Max(lerpedScrollOffset, 0.0);
      assert lerpedScrollOffset == Smooth(old(lastScroll), offset, delta, Friction(ps));
      lastScroll := lerpedScrollOffset;

      var curPoint := curve(lerpedScrollOffset);
      cursor := Cursor(lerpedScrollOffset, Duration(TWEENS));

      camera := LerpVec(camera, curPoint, delta * CAMERA_FOLLOW_RATE);
      lookAhead := LookAheadParam(lerpedScrollOffset);

      bank := BankAngle(rawBankAt(lerpedScrollOffset));
    }
  }

  /** Two frames with no elapsed time leave the rig where it was, whatever the raw offset. */
  method ZeroDeltaClient(sections: seq<Section>, dist: (Vec3, Vec3) -> real,
                         curve: real -> Vec3, rawBankAt: real -> real, offset: real)
  {
    var rig := new FlightRig(sections);
    var c, l, b := rig.Tick(0.0, offset, dist, curve, rawBankAt);
    FrameZeroDelta(RigState(0.0, 0.0, Vec3(0.0, 0.0, 0.0)), sections, dist, curve, offset);
    assert rig.State() == RigState(0.0, 0.0, Vec3(0.0, 0.0, 0.0));
    assert c == 0.0 && l == CURVE_AHEAD_CAMERA;
  }
}
