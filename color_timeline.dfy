/**
 * The background colour timeline (src/components/Experience.jsx, lines
 * 436-456) and the cursor the frame update seeks it to (line 356). The
 * timeline is three colour transitions played one after another; the frame
 * update never plays it, it only seeks to the smoothed scroll offset times the
 * timeline's total length.
 */
module ColorTimeline {
  import opened FlightMath

  /** A background colour pair as the CSS hex strings the timeline animates to. */
  datatype Colors = Colors(colorA: string, colorB: string)

  /** One `to` call: the transition's length in seconds and the colours it ends on. */
  datatype Tween = Tween(duration: real, target: Colors)

  /** The colours the background starts from (lines 431-434). */
  const INITIAL_COLORS: Colors := Colors("#3535cc", "#abaadd")

  /** The three transitions appended in order (lines 439-453). */
  const TWEENS: seq<Tween> := [
    Tween(1.0, Colors("#6f35cc", "#ffad30")),
    Tween(1.0, Colors("#424242", "#ffcc00")),
    Tween(1.0, Colors("#81318b", "#55ab8f"))
  ]

  predicate NonNegativeDurations(steps: seq<Tween>)
  {
    forall i :: 0 <= i < |steps| ==> 0.0 <= steps[i].duration
  }

  /** Steps appended with `to` play back to back, so the timeline lasts their sum. */
  function Duration(steps: seq<Tween>): real
  {
    if steps == [] then 0.0 else Duration(steps[..|steps| - 1]) + steps[|steps| - 1].duration
  }

  /** When the step at index i starts on the timeline. */
  function StartOf(steps: seq<Tween>, i: nat): real
    requires i <= |steps|
  {
    Duration(steps[..i])
  }

  /** The timeline position the frame update seeks to (line 356). */
  function Cursor(progress: real, duration: real): (r: real)
    ensures 0.0 <= progress <= 1.0 && 0.0 <= duration ==> 0.0 <= r <= duration
    ensures progress == 0.0 ==> r == 0.0
    ensures progress == 1.0 ==> r == duration
  {
    if 0.0 <= progress <= 1.0 && 0.0 <= duration then
      MulNonNeg(progress, duration);
      MulNonNeg(1.0 - progress, duration);
      progress * duration
    else
      progress * duration
  }

  /** The cursor moves with the progress: a later offset never seeks earlier. */
  lemma CursorMonotone(p: real, q: real, duration: real)
    requires p <= q && 0.0 <= duration
    ensures Cursor(p, duration) <= Cursor(q, duration)
  {
    assert Cursor(q, duration) - Cursor(p, duration) == (q - p) * duration;
    MulNonNeg(q - p, duration);
  }

  /** A timeline of non-negative steps has a non-negative length that no step start exceeds. */
  lemma {:induction false} DurationBounds(steps: seq<Tween>, i: nat)
    requires NonNegativeDurations(steps) && i <= |steps|
    ensures 0.0 <= StartOf(steps, i) <= Duration(steps)
  {
    if i < |steps| {
      var init := steps[..|steps| - 1];
      assert NonNegativeDurations(init) by {
        forall j | 0 <= j < |init| ensures 0.0 <= init[j].duration {
          assert init[j] == steps[j];
        }
      }
      assert steps[..i] == init[..i];
      DurationBounds(init, i);
    } else {
      assert steps[..i] == steps;
      if steps != [] {
        var init := steps[..|steps| - 1];
        assert NonNegativeDurations(init) by {
          forall j | 0 <= j < |init| ensures 0.0 <= init[j].duration {
            assert init[j] == steps[j];
          }
        }
        DurationBounds(init, |init|);
        assert init[..|init|] == init;
      }
    }
  }

  /**
   * The authored timeline lasts 3 seconds, its steps start at 0, 1 and 2, and
   * the cursor runs from 0 at progress 0 to 3 at progress 1.
   */
  lemma AuthoredTimeline()
    ensures Duration(TWEENS) == 3.0
    ensures StartOf(TWEENS, 0) == 0.0 && StartOf(TWEENS, 1) == 1.0 && StartOf(TWEENS, 2) == 2.0
    ensures Cursor(0.0, Duration(TWEENS)) == 0.0 && Cursor(1.0, Duration(TWEENS)) == 3.0
  {
    assert TWEENS[..1][..0] == [];
    assert Duration(TWEENS[..1]) == 1.0;
    assert TWEENS[..2][..1] == TWEENS[..1];
    assert Duration(TWEENS[..2]) == 2.0;
    assert TWEENS[..|TWEENS| - 1] == TWEENS[..2];
    assert TWEENS[..3] == TWEENS;
  }
}
