/**
 * The interpolation step of a crossfade (the `animate` closure of
 * `transitionOpacity`, lib/justgrainy.js:187-214): the captured endpoints, the
 * clamped progress `t` and the two linearly interpolated opacities.
 */
module Crossfade {

  import opened Config
  import opened Arith

  /**
   * What `transitionOpacity` captures when it starts: the start time, the
   * duration, and the start and target opacity of the fading-out ("from") and
   * fading-in ("to") layer.
   */
  datatype Fade = Fade(
    startTime: real,
    duration: real,
    startFrom: real,
    targetFrom: real,
    startTo: real,
    targetTo: real)

  /** `Math.min(elapsed / duration, 1)`. */
  function Progress(elapsed: real, duration: real): (t: real)
    requires duration != 0.0
    ensures t <= 1.0
    ensures duration > 0.0 && elapsed >= 0.0 ==> 0.0 <= t
    ensures duration > 0.0 ==> (t < 1.0 <==> elapsed < duration)
    ensures elapsed == 0.0 ==> t == 0.0
  {
    var t := Min(elapsed / duration, 1.0);
    assert duration > 0.0 ==> (elapsed < duration <==> elapsed / duration < 1.0) by {
      if duration > 0.0 {
        assert elapsed / duration * duration == elapsed;
      }
    }
    t
  }

  /** `start + (target - start) * t`. */
  function Lerp(start: real, target: real, t: real): (r: real)
    ensures t == 0.0 ==> r == start
    ensures t == 1.0 ==> r == target
    ensures 0.0 <= t <= 1.0 ==> Min(start, target) <= r <= Max(start, target)
  {
    var r := start + (target - start) * t;
    assert 0.0 <= t <= 1.0 ==> Min(start, target) <= r <= Max(start, target) by {
      if 0.0 <= t <= 1.0 {
        var d := target - start;
        if d >= 0.0 {
          ProductNonNegative(d, t);
          ProductNonNegative(d, 1.0 - t);
        } else {
          ProductNonNegative(-d, t);
          ProductNonNegative(-d, 1.0 - t);
        }
      }
    }
    r
  }

  /** The progress of a fade at host time `now`. */
  function T(f: Fade, now: real): real
    requires f.duration != 0.0
  {
    Progress(now - f.startTime, f.duration)
  }

  /** The opacity the fading-out layer is given at `now`. */
  function FromOpacity(f: Fade, now: real): real
    requires f.duration != 0.0
  {
    Lerp(f.startFrom, f.targetFrom, T(f, now))
  }

  /** The opacity the fading-in layer is given at `now`. */
  function ToOpacity(f: Fade, now: real): real
    requires f.duration != 0.0
  {
    Lerp(f.startTo, f.targetTo, T(f, now))
  }

  /** Whether the step at `now` requests one more step: `t < 1`. */
  function Continues(f: Fade, now: real): bool
    requires f.duration != 0.0
  {
    T(f, now) < 1.0
  }

  /** Growing `t` moves a lerp monotonically from its start towards its target. */
  lemma LerpMonotone(start: real, target: real, t1: real, t2: real)
    requires t1 <= t2
    ensures start <= target ==> Lerp(start, target, t1) <= Lerp(start, target, t2)
    ensures target <= start ==> Lerp(start, target, t2) <= Lerp(start, target, t1)
  {
    var d := target - start;
    if d >= 0.0 {
      ProductNonNegative(d, t2 - t1);
    } else {
      ProductNonNegative(-d, t2 - t1);
    }
  }

  /** Progress never decreases as time goes on. */
  lemma ProgressMonotone(e1: real, e2: real, duration: real)
    requires duration > 0.0 && e1 <= e2
    ensures Progress(e1, duration) <= Progress(e2, duration)
  {
    assert e1 / duration <= e2 / duration by {
      assert (e2 - e1) / duration >= 0.0;
      assert e2 / duration - e1 / duration == (e2 - e1) / duration;
    }
  }

  /** At the moment the fade starts, both layers keep their captured opacities. */
  lemma FadeStartsAtCapturedValues(f: Fade)
    requires f.duration != 0.0
    ensures T(f, f.startTime) == 0.0
    ensures FromOpacity(f, f.startTime) == f.startFrom
    ensures ToOpacity(f, f.startTime) == f.startTo
    ensures f.duration > 0.0 ==> Continues(f, f.startTime)
  {
  }

  /** Once the duration has elapsed the layers sit at their targets and no step follows. */
  lemma FadeEndsAtTargets(f: Fade, now: real)
    requires f.duration > 0.0 && now - f.startTime >= f.duration
    ensures T(f, now) == 1.0
    ensures FromOpacity(f, now) == f.targetFrom
    ensures ToOpacity(f, now) == f.targetTo
    ensures !Continues(f, now)
  {
  }

  /** A step requests another step exactly while the duration has not elapsed. */
  lemma FadeContinuesIff(f: Fade, now: real)
    requires f.duration > 0.0
    ensures Continues(f, now) <==> now - f.startTime < f.duration
  {
  }

  /**
   * Between two steps, each opacity moves monotonically from its start towards
   * its target: the fading-out layer never brightens again, and the fading-in
   * layer never moves back.
   */
  lemma FadeMonotone(f: Fade, now1: real, now2: real)
    requires f.duration > 0.0 && now1 <= now2
    ensures f.targetFrom <= f.startFrom ==> FromOpacity(f, now2) <= FromOpacity(f, now1)
    ensures f.startFrom <= f.targetFrom ==> FromOpacity(f, now1) <= FromOpacity(f, now2)
    ensures f.targetTo <= f.startTo ==> ToOpacity(f, now2) <= ToOpacity(f, now1)
    ensures f.startTo <= f.targetTo ==> ToOpacity(f, now1) <= ToOpacity(f, now2)
  {
    ProgressMonotone(now1 - f.startTime, now2 - f.startTime, f.duration);
    LerpMonotone(f.startFrom, f.targetFrom, T(f, now1), T(f, now2));
    LerpMonotone(f.startTo, f.targetTo, T(f, now1), T(f, now2));
  }

  /** From the start on, each opacity stays between its start and its target. */
  lemma FadeStaysBetween(f: Fade, now: real)
    requires f.duration > 0.0 && now >= f.startTime
    ensures Min(f.startFrom, f.targetFrom) <= FromOpacity(f, now) <= Max(f.startFrom, f.targetFrom)
    ensures Min(f.startTo, f.targetTo) <= ToOpacity(f, now) <= Max(f.startTo, f.targetTo)
  {
  }

  /**
   * A negative duration survives the `|| 400` default. Then `t` is negative
   * at every frame after the start, a step always requests another one, and
   * each opacity moves away from its target, past its start: a fade from 1 to
   * 0 rises above 1 and a fade from 0 to 1 drops below 0.
   */
  lemma NegativeDurationNeverEnds(f: Fade, now: real)
    requires f.duration < 0.0 && now > f.startTime
    ensures T(f, now) < 0.0
    ensures Continues(f, now)
    ensures f.targetFrom < f.startFrom ==> FromOpacity(f, now) > f.startFrom
    ensures f.startTo < f.targetTo ==> ToOpacity(f, now) < f.startTo
  {
    var e := now - f.startTime;
    var q := e / f.duration;
    QuotientOfOppositeSigns(e, f.duration);
    assert T(f, now) == q;
    if f.targetFrom < f.startFrom {
      ProductPositive(f.startFrom - f.targetFrom, -q);
      assert (f.startFrom - f.targetFrom) * -q == (f.targetFrom - f.startFrom) * q;
    }
    if f.startTo < f.targetTo {
      ProductPositive(f.targetTo - f.startTo, -q);
      assert (f.targetTo - f.startTo) * -q == -((f.targetTo - f.startTo) * q);
    }
  }

  /** A 400 ms fade given as -400: 100 ms in, the layers sit at 1.25 and -0.25 and the fade goes on. */
  lemma NegativeDurationExample()
    ensures var f := Fade(0.0, -400.0, 1.0, 0.0, 0.0, 1.0);
      && T(f, 100.0) == -0.25
      && FromOpacity(f, 100.0) == 1.25 && ToOpacity(f, 100.0) == -0.25
      && Continues(f, 100.0)
  {
  }
}
