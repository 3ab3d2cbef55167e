/**
 * The proximity pass at the start of every frame: each text section close to
 * the camera group slows the scroll down ("friction") and pulls the lateral
 * camera rail towards that section's side of the path
 * (src/components/Experience.jsx, lines 311-338).
 */
module Proximity {
  import opened FlightMath

  /** A section closer than this (in world units) is "in range". */
  const FRICTION_DISTANCE: real := 42.0
  /** Friction never drops below this, so the scroll never stalls. */
  const FRICTION_FLOOR: real := 0.1

  /** A text section: where it stands, and how far sideways it pulls the rail. */
  datatype Section = Section(position: Vec3, cameraRailDist: real)

  /** One section as the loop sees it: its distance to the camera group and its rail offset. */
  datatype Probe = Probe(distance: real, railDist: real)

  /** What the loop measures, section by section, from the camera group at cam. */
  function Probes(sections: seq<Section>, cam: Vec3, dist: (Vec3, Vec3) -> real): (ps: seq<Probe>)
    ensures |ps| == |sections|
    ensures forall i :: 0 <= i < |ps| ==>
      ps[i].distance == dist(sections[i].position, cam) && ps[i].railDist == sections[i].cameraRailDist
  {
    seq(|sections|, i requires 0 <= i < |sections| =>
      Probe(dist(sections[i].position, cam), sections[i].cameraRailDist))
  }

  predicate InRange(p: Probe) { p.distance < FRICTION_DISTANCE }

  predicate AnyInRange(ps: seq<Probe>) { exists i :: 0 <= i < |ps| && InRange(ps[i]) }

  /** The friction an in-range section sets (line 322). */
  function SectionFriction(p: Probe): (r: real)
    ensures FRICTION_FLOOR <= r
    ensures InRange(p) ==> r < 1.0
    ensures 0.0 <= p.distance ==> p.distance / FRICTION_DISTANCE <= r
    ensures p.distance <= FRICTION_FLOOR * FRICTION_DISTANCE ==> r == FRICTION_FLOOR
  {
    Max(p.distance / FRICTION_DISTANCE, FRICTION_FLOOR)
  }

  /** Where an in-range section pulls the rail (lines 323-327). */
  function RailTarget(p: Probe): (r: real)
    ensures 0.0 <= p.distance && InRange(p) ==> Abs(r) <= Abs(p.railDist)
    ensures p.distance == 0.0 ==> r == p.railDist
    ensures p.distance == FRICTION_DISTANCE ==> r == 0.0
  {
    var k := 1.0 - p.distance / FRICTION_DISTANCE;
    if 0.0 <= p.distance && InRange(p) then
      ScaleShrinks(k, p.railDist);
      k * p.railDist
    else
      k * p.railDist
  }

  /** The friction once the loop has visited ps in order: 1 unless an in-range section overwrote it. */
  function Friction(ps: seq<Probe>): real
  {
    if ps == [] then 1.0
    else if InRange(ps[|ps| - 1]) then SectionFriction(ps[|ps| - 1])
    else Friction(ps[..|ps| - 1])
  }

  /** The rail once the loop has visited ps in order: one lerp per in-range section (line 328). */
  function RailScan(rail: real, ps: seq<Probe>, delta: real): real
  {
    if ps == [] then rail
    else
      var r := RailScan(rail, ps[..|ps| - 1], delta);
      if InRange(ps[|ps| - 1]) then Lerp(r, RailTarget(ps[|ps| - 1]), delta) else r
  }

  /** The rail after the loop and the reset towards 0 when no section was in range (lines 334-338). */
  function RailAfter(rail: real, ps: seq<Probe>, delta: real): real
  {
    if AnyInRange(ps) then RailScan(rail, ps, delta) else Lerp(rail, 0.0, delta)
  }

  // ---------------------------------------------------------------------------
  // An independent reading of the rail rule: keep the targets of the in-range
  // sections, in order, and lerp towards each of them in turn.

  function InRangeTargets(ps: seq<Probe>): seq<real>
  {
    if ps == [] then []
    else if InRange(ps[0]) then [RailTarget(ps[0])] + InRangeTargets(ps[1..])
    else InRangeTargets(ps[1..])
  }

  function LerpAll(rail: real, targets: seq<real>, t: real): real
    decreases |targets|
  {
    if targets == [] then rail else LerpAll(Lerp(rail, targets[0], t), targets[1..], t)
  }

  // ---------------------------------------------------------------------------
  // Friction

  /**
   * Friction lies in [0.1, 1], and it is exactly 1 when, and only when, no
   * section is in range.
   */
  lemma {:induction false} FrictionRange(ps: seq<Probe>)
    ensures FRICTION_FLOOR <= Friction(ps) <= 1.0
    ensures Friction(ps) == 1.0 <==> !AnyInRange(ps)
  {
    if ps != [] {
      var init := ps[..|ps| - 1];
      FrictionRange(init);
      if !InRange(ps[|ps| - 1]) {
        if AnyInRange(ps) {
          var i :| 0 <= i < |ps| && InRange(ps[i]);
          assert init[i] == ps[i];
        }
        if AnyInRange(init) {
          var i :| 0 <= i < |init| && InRange(init[i]);
          assert ps[i] == init[i];
        }
      }
    }
  }

  /**
   * The last in-range section in array order decides the friction, whatever
   * the sections before it measured.
   */
  lemma {:induction false} FrictionLastWins(ps: seq<Probe>, i: nat)
    requires i < |ps| && InRange(ps[i])
    requires forall j :: i < j < |ps| ==> !InRange(ps[j])
    ensures Friction(ps) == SectionFriction(ps[i])
  {
    if i < |ps| - 1 {
      var init := ps[..|ps| - 1];
      assert init[i] == ps[i];
      FrictionLastWins(init, i);
    }
  }

  /**
   * With no section in range friction is 1; otherwise it is the friction of
   * some in-range section at distance below 42.
   */
  lemma {:induction false} FrictionFromSomeSection(ps: seq<Probe>)
    ensures !AnyInRange(ps) ==> Friction(ps) == 1.0
    ensures AnyInRange(ps) ==> exists i :: 0 <= i < |ps| && InRange(ps[i]) && Friction(ps) == SectionFriction(ps[i])
  {
    FrictionRange(ps);
    if AnyInRange(ps) {
      var k := |ps| - 1;
      if InRange(ps[k]) {
        assert Friction(ps) == SectionFriction(ps[k]);
      } else {
        var init := ps[..k];
        assert AnyInRange(init) by {
          var i :| 0 <= i < |ps| && InRange(ps[i]);
          assert i < k && init[i] == ps[i];
        }
        FrictionFromSomeSection(init);
        var i :| 0 <= i < |init| && InRange(init[i]) && Friction(init) == SectionFriction(init[i]);
        assert ps[i] == init[i];
      }
    }
  }

  /** The nearest section does not win: two sections at 10 and 30 give the friction of the one at 30. */
  lemma LastNotNearest()
    ensures Friction([Probe(10.0, -1.0), Probe(30.0, 1.5)]) == 30.0 / FRICTION_DISTANCE
    ensures Friction([Probe(10.0, -1.0), Probe(30.0, 1.5)]) != SectionFriction(Probe(10.0, -1.0))
  {
    var ps := [Probe(10.0, -1.0), Probe(30.0, 1.5)];
    assert ps[..1] == [Probe(10.0, -1.0)];
  }

  // ---------------------------------------------------------------------------
  // Rail

  lemma {:induction false} LerpAllAppend(rail: real, ts: seq<real>, x: real, t: real)
    decreases |ts|
    ensures LerpAll(rail, ts + [x], t) == Lerp(LerpAll(rail, ts, t), x, t)
  {
    if ts != [] {
      assert (ts + [x])[1..] == ts[1..] + [x];
      LerpAllAppend(Lerp(rail, ts[0], t), ts[1..], x, t);
    }
  }

  lemma {:induction false} InRangeTargetsAppend(ps: seq<Probe>, p: Probe)
    ensures InRangeTargets(ps + [p]) == InRangeTargets(ps) + (if InRange(p) then [RailTarget(p)] else [])
  {
    if ps != [] {
      assert (ps + [p])[1..] == ps[1..] + [p];
      InRangeTargetsAppend(ps[1..], p);
    }
  }

  /** The loop's rail pass is "lerp towards each in-range target in turn". */
  lemma {:induction false} RailScanIsLerpAll(rail: real, ps: seq<Probe>, delta: real)
    ensures RailScan(rail, ps, delta) == LerpAll(rail, InRangeTargets(ps), delta)
  {
    if ps != [] {
      var init, last := ps[..|ps| - 1], ps[|ps| - 1];
      assert ps == init + [last];
      RailScanIsLerpAll(rail, init, delta);
      InRangeTargetsAppend(init, last);
      if InRange(last) {
        LerpAllAppend(rail, InRangeTargets(init), RailTarget(last), delta);
      } else {
        assert InRangeTargets(init) + [] == InRangeTargets(init);
      }
    }
  }

  lemma {:induction false} InRangeTargetsNonEmpty(ps: seq<Probe>)
    ensures |InRangeTargets(ps)| > 0 <==> AnyInRange(ps)
  {
    if ps != [] {
      InRangeTargetsNonEmpty(ps[1..]);
      if AnyInRange(ps) && !InRange(ps[0]) {
        var i :| 0 <= i < |ps| && InRange(ps[i]);
        assert ps[1..][i - 1] == ps[i];
      }
      if AnyInRange(ps[1..]) {
        var i :| 0 <= i < |ps[1..]| && InRange(ps[1..][i]);
        assert ps[i + 1] == ps[1..][i];
      }
    }
  }

  /**
   * The rail rule: with no section in range the rail is lerped once towards 0
   * by delta; otherwise it is never reset, and it is lerped once per in-range
   * section, in array order, towards that section's target.
   */
  lemma RailRule(rail: real, ps: seq<Probe>, delta: real)
    ensures !AnyInRange(ps) ==> RailAfter(rail, ps, delta) == Lerp(rail, 0.0, delta)
    ensures AnyInRange(ps) ==>
      |InRangeTargets(ps)| > 0 && RailAfter(rail, ps, delta) == LerpAll(rail, InRangeTargets(ps), delta)
  {
    InRangeTargetsNonEmpty(ps);
    RailScanIsLerpAll(rail, ps, delta);
  }

  /** Every section's pull is bounded by its own rail distance. */
  predicate WellMeasured(ps: seq<Probe>, bound: real)
  {
    forall i :: 0 <= i < |ps| ==> 0.0 <= ps[i].distance && Abs(ps[i].railDist) <= bound
  }

  lemma {:induction false} RailScanBounded(rail: real, ps: seq<Probe>, delta: real, bound: real)
    requires 0.0 <= delta <= 1.0 && Abs(rail) <= bound && WellMeasured(ps, bound)
    ensures Abs(RailScan(rail, ps, delta)) <= bound
  {
    if ps != [] {
      var init := ps[..|ps| - 1];
      assert WellMeasured(init, bound) by {
        forall i | 0 <= i < |init| ensures 0.0 <= init[i].distance && Abs(init[i].railDist) <= bound {
          assert init[i] == ps[i];
        }
      }
      RailScanBounded(rail, init, delta, bound);
      var last := ps[|ps| - 1];
      if InRange(last) {
        var r := RailScan(rail, init, delta);
        var target := RailTarget(last);
        assert Abs(target) <= bound;
        LerpBetween(r, target, delta);
      }
    }
  }

  /**
   * With a frame step of at most one second, a rail offset bounded by the
   * largest |cameraRailDist| stays bounded by it.
   */
  lemma RailStaysBounded(rail: real, ps: seq<Probe>, delta: real, bound: real)
    requires 0.0 <= delta <= 1.0 && Abs(rail) <= bound && WellMeasured(ps, bound)
    ensures Abs(RailAfter(rail, ps, delta)) <= bound
  {
    if AnyInRange(ps) {
      RailScanBounded(rail, ps, delta, bound);
    } else {
      LerpBetween(rail, 0.0, delta);
    }
  }

  /** With no section in range the loop leaves the rail alone; only the reset moves it. */
  lemma {:induction false} RailScanNoneInRange(rail: real, ps: seq<Probe>, delta: real)
    requires !AnyInRange(ps)
    ensures RailScan(rail, ps, delta) == rail
  {
    if ps != [] {
      var init := ps[..|ps| - 1];
      assert forall i :: 0 <= i < |init| ==> init[i] == ps[i];
      RailScanNoneInRange(rail, init, delta);
    }
  }

  lemma {:induction false} RailScanZeroDelta(rail: real, ps: seq<Probe>)
    ensures RailScan(rail, ps, 0.0) == rail
  {
    if ps != [] {
      RailScanZeroDelta(rail, ps[..|ps| - 1]);
    }
  }

  /** A frame with no elapsed time leaves the rail where it was. */
  lemma RailZeroDelta(rail: real, ps: seq<Probe>)
    ensures RailAfter(rail, ps, 0.0) == rail
  {
    RailScanZeroDelta(rail, ps);
  }

  /**
   * Without the delta <= 1 bound the rail can leave it: a section 0 units
   * away pulling towards 1.5, with a 3-second frame, sends the rail from 0 to 4.5.
   */
  lemma RailLeavesBoundOnLongFrame()
    ensures RailAfter(0.0, [Probe(0.0, 1.5)], 3.0) == 4.5
  {
    var ps := [Probe(0.0, 1.5)];
    assert AnyInRange(ps) by { assert InRange(ps[0]); }
    assert ps[..0] == [];
  }
}
