/**
 * The drift-corrected frame scheduler: one invocation of the `animate`
 * closure of `startAnimation` (lib/justgrainy.js:131-153) as a step function
 * of the host time, the closure's `lastFrame`, the frame interval and the
 * engine's enabled flag.
 */
module Scheduler {

  import opened Arith

  /** JavaScript's `Math.trunc`: rounds towards zero. */
  function Trunc(x: real): int
  {
    if x >= 0.0 then x.Floor else -((-x).Floor)
  }

  function Abs(x: real): real { if x < 0.0 then -x else x }

  /** Dividing and multiplying back by the same non-zero number. */
  lemma QuotientTimesDivisor(a: real, m: real)
    requires m != 0.0
    ensures m * (a / m) == a
  {
  }

  lemma ProductOverFactor(m: real, x: real)
    requires m != 0.0
    ensures (m * x) / m == x
  {
  }

  /** The remainder bound, stated for any x with m * x == a and any q with q <= x < q + 1. */
  lemma RemainderBoundsAt(a: real, m: real, x: real, q: real)
    requires m > 0.0 && m * x == a && q <= x < q + 1.0
    ensures 0.0 <= a - m * q < m
  {
    var low, high := x - q, q + 1.0 - x;
    ProductNonNegative(m, low);
    ProductPositive(m, high);
    Spread(m, x, q, low, high);
    Between(a, m, m * x, m * q, m * low, m * high);
  }

  /** Multiplication distributes over the two differences used above. */
  lemma Spread(m: real, x: real, q: real, low: real, high: real)
    requires low == x - q && high == q + 1.0 - x
    ensures m * low == m * x - m * q
    ensures m * high == m * q + m - m * x
  {
  }

  /** The linear step of the remainder bound, with the products as plain numbers. */
  lemma Between(a: real, m: real, mx: real, mq: real, below: real, above: real)
    requires mx == a && below == mx - mq && above == mq + m - mx
    requires below >= 0.0 && above > 0.0
    ensures 0.0 <= a - mq < m
  {
  }

  /** `a - m * floor(a / m)` lies in [0, m) for a positive modulus. */
  lemma FloorRemainderBounds(a: real, m: real)
    requires m > 0.0
    ensures 0.0 <= a - m * ((a / m).Floor as real) < m
  {
    QuotientTimesDivisor(a, m);
    RemainderBoundsAt(a, m, a / m, (a / m).Floor as real);
  }

  /** The quotient of a non-negative number by a positive one is non-negative. */
  lemma QuotientNonNegative(a: real, m: real)
    requires a >= 0.0 && m > 0.0
    ensures a / m >= 0.0
  {
    QuotientTimesDivisor(a, m);
  }

  /** Dividing by a negative number is dividing by its absolute value and negating. */
  lemma QuotientByNegative(a: real, b: real)
    requires b < 0.0
    ensures a / b == -(a / -b)
  {
    QuotientTimesDivisor(a, b);
    QuotientTimesDivisor(a, -b);
    assert b * (a / b) == b * -(a / -b);
  }

  /** On a non-negative dividend the truncated remainder lies in [0, |b|). */
  lemma TruncRemainderBounds(a: real, b: real)
    requires b != 0.0 && a >= 0.0
    ensures 0.0 <= a - b * (Trunc(a / b) as real) < Abs(b)
  {
    if b > 0.0 {
      QuotientNonNegative(a, b);
      var q := (a / b).Floor;
      assert Trunc(a / b) == q;
      FloorRemainderBounds(a, b);
      assert a - b * (Trunc(a / b) as real) == a - b * (q as real);
    } else {
      QuotientByNegative(a, b);
      QuotientNonNegative(a, -b);
      assert Trunc(a / b) == -((a / -b).Floor);
      assert a - b * (Trunc(a / b) as real) == a - (-b) * ((a / -b).Floor as real);
      FloorRemainderBounds(a, -b);
    }
  }

  /**
   * JavaScript's `%` on numbers: the remainder of a division truncated towards
   * zero, so it takes the sign of the dividend.
   */
  function JsRem(a: real, b: real): (r: real)
    requires b != 0.0
    ensures a >= 0.0 ==> 0.0 <= r < Abs(b)
  {
    if a >= 0.0 then
      TruncRemainderBounds(a, b);
      a - b * (Trunc(a / b) as real)
    else
      a - b * (Trunc(a / b) as real)
  }

  /** `1000 / fps`: the milliseconds between two rendered frames. */
  function FrameInterval(fps: real): (interval: real)
    requires fps != 0.0
    ensures interval != 0.0
    ensures fps > 0.0 ==> interval > 0.0
    ensures interval * fps == 1000.0
  {
    1000.0 / fps
  }

  /** What one tick does: stop the loop, or request the next tick after rendering or not. */
  datatype Tick = Stop | Next(render: bool, lastFrame: real)

  /**
   * One invocation of the scheduler at host time `now` (lib/justgrainy.js:136-150).
   * A disabled engine stops the loop. Otherwise a frame is rendered exactly when
   * more than one interval has elapsed, and the new `lastFrame` keeps the
   * overshoot past the last whole interval, so that after a render less than
   * one interval of lag is left.
   */
  function TickStep(now: real, lastFrame: real, interval: real, enabled: bool): (r: Tick)
    requires interval != 0.0
    ensures r.Stop? <==> !enabled
    ensures r.Next? ==> (r.render <==> now - lastFrame > interval)
    ensures r.Next? && !r.render ==> r.lastFrame == lastFrame
    ensures r.Next? && r.render && interval > 0.0 ==> 0.0 <= now - r.lastFrame < interval
    ensures r.Next? && r.render && interval > 0.0 ==> lastFrame < r.lastFrame <= now
  {
    if !enabled then Stop
    else
      var elapsed := now - lastFrame;
      if elapsed > interval then Next(true, now - JsRem(elapsed, interval))
      else Next(false, lastFrame)
  }

  predicate IsWhole(x: real)
  {
    x == x.Floor as real
  }

  /**
   * Drift correction keeps the schedule on the grid of the first `lastFrame`:
   * a render advances `lastFrame` by a whole, positive number of intervals.
   */
  lemma {:induction false} TickStaysOnGrid(now: real, lastFrame: real, interval: real)
    requires interval > 0.0 && now - lastFrame > interval
    ensures var r := TickStep(now, lastFrame, interval, true);
      && IsWhole((r.lastFrame - lastFrame) / interval)
      && (r.lastFrame - lastFrame) / interval >= 1.0
  {
    var elapsed := now - lastFrame;
    RatioAboveOne(elapsed, interval);
    var q := Trunc(elapsed / interval);
    assert q >= 1;
    var r := TickStep(now, lastFrame, interval, true);
    assert r.lastFrame == now - (elapsed - interval * (q as real));
    assert r.lastFrame - lastFrame == interval * (q as real);
    ProductOverFactor(interval, q as real);
    assert (r.lastFrame - lastFrame) / interval == q as real;
    assert (q as real).Floor == q;
  }

  lemma RatioAboveOne(e: real, m: real)
    requires m > 0.0 && e > m
    ensures e / m > 1.0
  {
    QuotientTimesDivisor(e, m);
  }

  /**
   * With a negative interval (the code accepts a negative `fps`), every enabled
   * tick whose clock has not gone backwards renders.
   */
  lemma NegativeIntervalRendersEveryTick(now: real, lastFrame: real, interval: real)
    requires interval < 0.0 && now >= lastFrame
    ensures var r := TickStep(now, lastFrame, interval, true);
      r.Next? && r.render && now + interval < r.lastFrame <= now
  {
  }

  /**
   * At 2 frames per second the interval is 500 ms; callbacks that arrive 510 ms
   * and then a further 505 ms later both render, and the second is measured from
   * the corrected 500, not from 510: lastFrame goes 0, 500, 1000.
   */
  lemma DriftExample()
    ensures FrameInterval(2.0) == 500.0
    ensures TickStep(510.0, 0.0, 500.0, true) == Next(true, 500.0)
    ensures TickStep(1015.0, 500.0, 500.0, true) == Next(true, 1000.0)
    ensures TickStep(1400.0, 1000.0, 500.0, true) == Next(false, 1000.0)
  {
    assert (510.0 / 500.0).Floor == 1;
    assert (515.0 / 500.0).Floor == 1;
  }
}
