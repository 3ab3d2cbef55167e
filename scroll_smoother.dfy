/**
 * The scroll smoothing step of each frame (src/components/Experience.jsx,
 * lines 310 and 342-351): the stored offset moves towards the raw scroll
 * offset by the fraction delta * friction, and is then clamped into [0, 1].
 */
module ScrollSmoother {
  import opened FlightMath

  /** Line 310: a negative raw offset counts as 0; nothing caps it at 1 before the lerp. */
  function ScrollTarget(offset: real): (r: real)
    ensures 0.0 <= r
    ensures 0.0 <= offset ==> r == offset
    ensures offset < 0.0 ==> r == 0.0
  {
    Max(0.0, offset)
  }

  /** The new stored offset, from the previous one, the raw offset, the frame time and the friction. */
  function Smooth(last: real, offset: real, delta: real, friction: real): (r: real)
    ensures 0.0 <= r <= 1.0
  {
    SmoothBy(last, offset, delta * friction)
  }

  /** Lines 342-349: lerp by the step factor t, then clamp. */
  function SmoothBy(last: real, offset: real, t: real): real
  {
    Clamp01(Lerp(last, ScrollTarget(offset), t))
  }

  /** Smooth with the lerp factor delta * friction computed beforehand. */
  lemma SmoothByStep(last: real, offset: real, delta: real, friction: real, step: real)
    requires step == delta * friction
    ensures Smooth(last, offset, delta, friction) == Clamp01(Lerp(last, ScrollTarget(offset), step))
  {
  }

  /**
   * A step of at most the whole distance moves the stored offset towards the
   * (clamped) target, never past it: it lands between the old value and the
   * target, and no farther from the target than before. This holds whichever
   * way the scroll moved.
   */
  lemma SmoothMovesToward(last: real, offset: real, delta: real, friction: real)
    requires 0.0 <= last <= 1.0
    requires 0.0 <= delta * friction <= 1.0
    ensures var goal := Clamp01(ScrollTarget(offset));
      Min(last, goal) <= Smooth(last, offset, delta, friction) <= Max(last, goal) &&
      Abs(Smooth(last, offset, delta, friction) - goal) <= Abs(last - goal)
  {
    LerpBetween(last, ScrollTarget(offset), delta * friction);
  }

  /**
   * A step factor t = delta * friction above 1 (a long frame) makes the lerp
   * pass the target and end on its far side, and above 2 end farther from it
   * than before; only the clamp keeps the stored offset in [0, 1].
   */
  lemma OvershootIsClamped(last: real, offset: real, t: real)
    requires 1.0 < t && last != ScrollTarget(offset)
    ensures var g := ScrollTarget(offset);
      (Lerp(last, g, t) - g) * (last - g) < 0.0 &&
      (2.0 < t ==> Abs(Lerp(last, g, t) - g) > Abs(last - g))
    ensures SmoothBy(last, offset, t) == Clamp01(Lerp(last, ScrollTarget(offset), t))
  {
    LerpOvershoots(last, ScrollTarget(offset), t);
  }

  /** For example, half way with the target at 1 and a factor of 3, the lerp reaches 2 and the clamp brings it back to 1. */
  lemma OvershootExample()
    ensures Lerp(0.5, 1.0, 3.0) == 2.0
    ensures Smooth(0.5, 1.0, 3.0, 1.0) == 1.0
  {
  }

  /**
   * With friction at most 1, a frame of delta seconds towards a raw offset
   * in [0, 1] ahead of the stored one closes at most the fraction delta of the
   * remaining distance, and never passes the target.
   */
  lemma SmoothLags(last: real, offset: real, delta: real, friction: real)
    requires 0.0 <= delta <= 1.0 && 0.0 <= friction <= 1.0 && 0.0 <= last <= offset <= 1.0
    ensures last <= Smooth(last, offset, delta, friction) <= offset
    ensures (1.0 - delta) * (offset - last) <= offset - Smooth(last, offset, delta, friction)
  {
    var t := delta * friction;
    StepFactor(delta, friction, t);
    SmoothByStep(last, offset, delta, friction, t);
    LerpBetween(last, offset, t);
    LerpGapFrom(last, offset, t);
    MulLe(1.0 - delta, 1.0 - t, offset - last, offset - last);
  }

  lemma StepFactor(delta: real, friction: real, t: real)
    requires 0.0 <= delta && 0.0 <= friction <= 1.0 && t == delta * friction
    ensures 0.0 <= t <= delta
  {
    MulLe(delta, delta, friction, 1.0);
  }

  /** A frame with no elapsed time keeps a stored offset that is already in [0, 1]. */
  lemma SmoothZeroDelta(last: real, offset: real, friction: real)
    requires 0.0 <= last <= 1.0
    ensures Smooth(last, offset, 0.0, friction) == last
  {
  }

  /** A stored offset that has reached an in-range raw offset stays there, whatever the step. */
  lemma SmoothAtRest(offset: real, delta: real, friction: real)
    requires 0.0 <= offset <= 1.0
    ensures Smooth(offset, offset, delta, friction) == offset
  {
    LerpGap(offset, offset, delta * friction);
  }

  /** n frames with the same step factor t = delta * friction and the same raw offset. */
  function SmoothFrames(last: real, offset: real, t: real, n: nat): (r: real)
    ensures n > 0 ==> 0.0 <= r <= 1.0
  {
    if n == 0 then last else SmoothBy(SmoothFrames(last, offset, t, n - 1), offset, t)
  }

  /**
   * Convergence: for a raw offset already in [0, 1] and a step factor
   * t = delta * friction in [0, 1], the distance to the target shrinks by the
   * factor 1 - t every frame, exactly.
   */
  lemma {:induction false} SmoothConverges(last: real, offset: real, t: real, n: nat)
    requires 0.0 <= last <= 1.0 && 0.0 <= offset <= 1.0 && 0.0 <= t <= 1.0
    ensures SmoothFrames(last, offset, t, n) - offset == Pow(1.0 - t, n) * (last - offset)
  {
    GapDecays(last, offset, t, n);
    PowScales(last - offset, 1.0 - t, n);
    assert Gap(last, offset, t, n) == Pow(1.0 - t, n) * (last - offset);
  }

  /** How far the stored offset still is from the target after n frames. */
  function Gap(last: real, offset: real, t: real, n: nat): real
  {
    SmoothFrames(last, offset, t, n) - offset
  }

  lemma {:induction false} GapDecays(last: real, offset: real, t: real, n: nat)
    requires 0.0 <= last <= 1.0 && 0.0 <= offset <= 1.0 && 0.0 <= t <= 1.0
    ensures Gap(last, offset, t, n) == Shrunk(last - offset, 1.0 - t, n)
  {
    if n > 0 {
      GapStep(last, offset, t, n);
      GapDecays(last, offset, t, n - 1);
    }
  }

  /** One frame shrinks the gap to an in-range target by the factor 1 - t. */
  lemma {:induction false} GapStep(last: real, offset: real, t: real, n: nat)
    requires 0.0 <= last <= 1.0 && 0.0 <= offset <= 1.0 && 0.0 <= t <= 1.0 && n > 0
    ensures Gap(last, offset, t, n) == (1.0 - t) * Gap(last, offset, t, n - 1)
  {
    var prev := SmoothFrames(last, offset, t, n - 1);
    LerpBetween(prev, offset, t);
  }
}
