/**
 * The flight pass of mountMoonAndSanta in public/scene.js: a figure crosses the
 * viewport from fully off-screen left to fully off-screen right along an
 * eased path, the greeting is scheduled the first time the figure's centre
 * passes the viewport's centre, and a completion timer re-arms that one-shot
 * latch before the next pass starts.
 *
 * Frame callbacks and timers are the methods of FlightLoop, called with the
 * timestamps the browser would pass.
 */
module Flight {

  /** `duration` of line 209, in milliseconds. */
  const Duration: real := 4200.0

  /** easeInOutQuad (line 207). */
  function Ease(t: real): (e: real)
    ensures 0.0 <= t <= 1.0 ==> 0.0 <= e <= 1.0
  {
    if t < 0.5 then
      SquareBounds(t);
      2.0 * t * t
    else
      SquareBounds(1.0 - t);
      assert -1.0 + (4.0 - 2.0 * t) * t == 1.0 - 2.0 * (1.0 - t) * (1.0 - t);
      -1.0 + (4.0 - 2.0 * t) * t
  }

  lemma SquareBounds(u: real)
    ensures 0.0 <= u <= 0.5 ==> 0.0 <= u * u <= 0.5 * u <= 0.25
  {
    if 0.0 <= u <= 0.5 {
      assert 0.5 * u - u * u == u * (0.5 - u);
      MulNonNegative(u, 0.5 - u);
    }
  }

  lemma MulNonNegative(a: real, b: real)
    requires a >= 0.0 && b >= 0.0
    ensures a * b >= 0.0
  {
  }

  /** The pass starts at 0, ends at 1, and both branches give 1/2 at t = 1/2. */
  lemma EaseEndpoints()
    ensures Ease(0.0) == 0.0
    ensures Ease(0.5) == 0.5 && 2.0 * 0.5 * 0.5 == 0.5
    ensures Ease(1.0) == 1.0
  {
  }

  /** Easing is symmetric about the middle of the pass. */
  lemma EaseSymmetric(t: real)
    ensures Ease(1.0 - t) == 1.0 - Ease(t)
  {
  }

  /** Easing never moves the figure backwards during a pass. */
  lemma EaseMonotone(s: real, t: real)
    requires 0.0 <= s <= t <= 1.0
    ensures Ease(s) <= Ease(t)
  {
    if t < 0.5 {
      assert t * t - s * s == (t - s) * (t + s);
      MulNonNegative(t - s, t + s);
    } else if s >= 0.5 {
      assert (1.0 - s) * (1.0 - s) - (1.0 - t) * (1.0 - t) == (t - s) * (2.0 - s - t);
      MulNonNegative(t - s, 2.0 - s - t);
      assert Ease(s) == 1.0 - 2.0 * (1.0 - s) * (1.0 - s);
      assert Ease(t) == 1.0 - 2.0 * (1.0 - t) * (1.0 - t);
    } else {
      SquareBounds(s);
      SquareBounds(1.0 - t);
      assert Ease(s) == 2.0 * (s * s) <= 0.5;
      assert Ease(t) == 1.0 - 2.0 * ((1.0 - t) * (1.0 - t)) >= 0.5;
    }
  }

  /** `t = Math.min(1, (now - startTime) / duration)` (line 218). */
  function TimeFraction(now: real, startTime: real): (t: real)
    ensures t <= 1.0
    ensures t == 1.0 <==> now - startTime >= Duration
    ensures now >= startTime ==> 0.0 <= t
  {
    var q := (now - startTime) / Duration;
    if q < 1.0 then q else 1.0
  }

  /** `santaWidth = Math.max(rectEstimate.width || 140, 80)` (line 214). */
  function SantaWidth(measured: real): (w: real)
    ensures w >= 80.0
    ensures measured >= 80.0 ==> w == measured
    ensures measured == 0.0 ==> w == 140.0
    ensures measured != 0.0 && measured < 80.0 ==> w == 80.0
  {
    var m := if measured == 0.0 then 140.0 else measured;
    if m < 80.0 then 80.0 else m
  }

  /** `x = -santaWidth + (innerWidth + santaWidth * 2) * eased` (line 220). */
  function PositionX(e: real, innerWidth: nat, w: real): real {
    -w + (innerWidth as real + 2.0 * w) * e
  }

  /**
   * The figure starts fully off-screen left, ends fully off-screen right, and
   * at e = 1/2 its left edge is at the viewport centre.
   */
  lemma PositionEnds(innerWidth: nat, w: real)
    ensures PositionX(0.0, innerWidth, w) == -w
    ensures PositionX(1.0, innerWidth, w) == innerWidth as real + w
    ensures PositionX(0.5, innerWidth, w) == innerWidth as real / 2.0
  {
  }

  /** With duration 4200, width 1000 and figure 140 the pass runs from -140 to 1140. */
  lemma PositionExample(start: real)
    ensures PositionX(Ease(TimeFraction(start, start)), 1000, 140.0) == -140.0
    ensures PositionX(Ease(TimeFraction(start + 4200.0, start)), 1000, 140.0) == 1140.0
  {
  }

  /** For a positive width the position grows with the eased fraction. */
  lemma PositionMonotone(e1: real, e2: real, innerWidth: nat, w: real)
    requires w > 0.0 && e1 <= e2
    ensures PositionX(e1, innerWidth, w) <= PositionX(e2, innerWidth, w)
  {
    var span := innerWidth as real + 2.0 * w;
    assert span * e2 - span * e1 == span * (e2 - e1);
  }

  /** The latch condition of line 226: the figure's centre is right of the viewport's. */
  predicate PastMidpoint(x: real, w: real, innerWidth: nat) {
    x + w / 2.0 > innerWidth as real / 2.0
  }

  /**
   * The centre crosses exactly when the eased fraction exceeds
   * (innerWidth + w) / (2 (innerWidth + 2 w)): never at the start, before the
   * middle of the pass, and always by its end.
   */
  lemma MidpointThreshold(e: real, innerWidth: nat, w: real)
    requires w > 0.0
    ensures PastMidpoint(PositionX(e, innerWidth, w), w, innerWidth)
            <==> 2.0 * (innerWidth as real + 2.0 * w) * e > innerWidth as real + w
    ensures !PastMidpoint(PositionX(0.0, innerWidth, w), w, innerWidth)
    ensures PastMidpoint(PositionX(0.5, innerWidth, w), w, innerWidth)
    ensures PastMidpoint(PositionX(1.0, innerWidth, w), w, innerWidth)
  {
  }

  /** The timers a pass is waiting for. */
  datatype Phase =
    | Waiting     // the 300 ms start timer of line 344
    | Flying      // a frame callback is requested
    | Settling    // the 1200 ms completion timer of line 228
    | Restarting  // the 2200 ms restart timer of line 228

  /** The state startAnimation and frame share across frames and timers. */
  class FlightLoop {
    var phase: Phase
    var messageShown: bool
    var santaWidth: real
    var startTime: real
    /** The passes started so far. */
    ghost var passes: nat
    /** The `setTimeout(showGreeting, 220)` calls so far. */
    ghost var greetings: nat

    /**
     * The latch is clear whenever no pass is under way, and each pass schedules
     * the greeting once: every finished pass has scheduled exactly one, and the
     * pass in flight has scheduled one exactly when the latch is set.
     */
    ghost predicate Valid()
      reads this
    {
      && santaWidth >= 80.0
      && (phase == Waiting ==> passes == 0 && greetings == 0 && !messageShown)
      && (phase == Flying ==> passes >= 1 && greetings + (if messageShown then 0 else 1) == passes)
      && (phase == Settling ==> messageShown && greetings == passes)
      && (phase == Restarting ==> !messageShown && greetings == passes)
    }

    /** Lines 208-210 and the start timer of line 344. */
    constructor ()
      ensures Valid() && phase == Waiting
      ensures !messageShown && santaWidth == 140.0 && passes == 0 && greetings == 0
    {
      phase := Waiting;
      messageShown := false;
      santaWidth := 140.0;
      startTime := 0.0;
      passes := 0;
      greetings := 0;
    }

    /** startAnimation (lines 212-231): measure the figure and request the first frame. */
    method StartAnimation(now: real, measuredWidth: real)
      requires Valid() && (phase == Waiting || phase == Restarting)
      modifies this
      ensures Valid() && phase == Flying
      ensures startTime == now && santaWidth == SantaWidth(measuredWidth)
      ensures !messageShown && messageShown == old(messageShown)
      ensures passes == old(passes) + 1 && greetings == old(greetings)
    {
      santaWidth := SantaWidth(measuredWidth);
      startTime := now;
      phase := Flying;
      passes := passes + 1;
    }

    /**
     * frame (lines 217-229) without the styling: compute the position, schedule
     * the greeting when the latch is clear and the centre has crossed, and
     * request another frame until t reaches 1.
     */
    method Frame(now: real, innerWidth: nat) returns (x: real, scheduled: bool)
      requires Valid() && phase == Flying
      modifies this
      ensures Valid()
      ensures x == PositionX(Ease(TimeFraction(now, startTime)), innerWidth, santaWidth)
      ensures scheduled == (!old(messageShown) && PastMidpoint(x, santaWidth, innerWidth))
      ensures messageShown == (old(messageShown) || scheduled)
      ensures phase == if TimeFraction(now, startTime) < 1.0 then Flying else Settling
      ensures startTime == old(startTime) && santaWidth == old(santaWidth)
      ensures passes == old(passes) && greetings == old(greetings) + (if scheduled then 1 else 0)
    {
      var t := TimeFraction(now, startTime);
      var eased := Ease(t);
      x := -santaWidth + (innerWidth as real + santaWidth * 2.0) * eased;
      scheduled := false;
      if !messageShown && x + santaWidth / 2.0 > innerWidth as real / 2.0 {
        messageShown := true;
        scheduled := true;
        greetings := greetings + 1;
      }
      if t < 1.0 {
        phase := Flying;
      } else {
        MidpointThreshold(eased, innerWidth, santaWidth);
        phase := Settling;
      }
    }

    /** The 1200 ms completion timer of line 228: clear the latch and arm the restart timer. */
    method SettleTimer()
      requires Valid() && phase == Settling
      modifies this
      ensures Valid() && phase == Restarting && !messageShown
      ensures startTime == old(startTime) && santaWidth == old(santaWidth)
      ensures passes == old(passes) && greetings == old(greetings)
    {
      messageShown := false;
      phase := Restarting;
    }
  }

  /**
   * A complete pass from a cleared latch: the frames at the start and at the
   * midpoint of the pass, then the last frame. The greeting is scheduled once,
   * by the time the pass is half over, and the latch is clear again afterwards.
   */
  method OnePass(loop: FlightLoop, start: real, measuredWidth: real, innerWidth: nat)
    requires loop.Valid() && (loop.phase == Waiting || loop.phase == Restarting)
    modifies loop
    ensures loop.Valid() && loop.phase == Restarting
    ensures loop.passes == old(loop.passes) + 1 && loop.greetings == old(loop.greetings) + 1
  {
    loop.StartAnimation(start, measuredWidth);
    var x0, g0 := loop.Frame(start, innerWidth);
    MidpointThreshold(0.0, innerWidth, loop.santaWidth);
    assert !g0;
    var x1, g1 := loop.Frame(start + Duration / 2.0, innerWidth);
    MidpointThreshold(0.5, innerWidth, loop.santaWidth);
    assert g1;
    var x2, g2 := loop.Frame(start + Duration, innerWidth);
    assert !g2;
    loop.SettleTimer();
  }
}
