/**
 * The snow-flake population of public/scene.js: a population created once,
 * sized from the viewport area and clamped to a device-class range, and a
 * per-frame step that moves every flake by the clamped elapsed time and applies
 * the respawn and wrap rules.
 *
 * Positions and speeds are exact reals. Every `Math.random()` result is passed
 * in as a number in [0, 1).
 */
module Snow {

  /** One flake record `{x, y, r, d, vx, a, tw}` (line 56). */
  datatype Flake = Flake(x: real, y: real, r: real, d: real, vx: real, a: real, tw: real)

  /** The seven `Math.random()` results createFlake consumes, in evaluation order. */
  datatype FlakeDraw = FlakeDraw(ux: real, uy: real, ur: real, ud: real, uvx: real, ua: real, utw: real)

  /** The two `Math.random()` results a respawn consumes: first for y, then for x (line 80). */
  datatype Respawn = Respawn(uy: real, ux: real)

  predicate Unit(u: real) { 0.0 <= u < 1.0 }

  predicate UnitDraw(g: FlakeDraw) {
    Unit(g.ux) && Unit(g.uy) && Unit(g.ur) && Unit(g.ud) && Unit(g.uvx) && Unit(g.ua) && Unit(g.utw)
  }

  predicate UnitRespawn(s: Respawn) { Unit(s.uy) && Unit(s.ux) }

  /** `rand(min, max)` of line 53 applied to the random number `u`. */
  function Rand(u: real, lo: real, hi: real): (r: real)
    ensures Unit(u) && lo <= hi ==> lo <= r <= hi
    ensures Unit(u) && lo < hi ==> r < hi
  {
    var w := hi - lo;
    ScaleBelow(u, w);
    u * w + lo
  }

  lemma ScaleBelow(u: real, w: real)
    ensures Unit(u) && w >= 0.0 ==> 0.0 <= u * w <= w
    ensures Unit(u) && w > 0.0 ==> u * w < w
  {
    if Unit(u) && w >= 0.0 {
      assert (1.0 - u) * w >= 0.0;
      if w > 0.0 {
        assert (1.0 - u) * w > 0.0;
      }
    }
  }

  /** The ranges createFlake gives a flake's size, speeds, opacity and twinkle period. */
  predicate FlakeShape(f: Flake) {
    && 0.6 <= f.r < 3.6
    && 0.4 <= f.d < 1.9
    && -0.6 <= f.vx < 0.6
    && 0.5 <= f.a < 1.0
    && 600.0 <= f.tw < 2800.0
  }

  /**
   * createFlake (lines 55-57) on a canvas of `pw` by `ph` pixels: x in [0, pw),
   * y in [-ph, 0), and the remaining fields in the ranges of FlakeShape.
   */
  function CreateFlake(g: FlakeDraw, pw: nat, ph: nat): (f: Flake)
    ensures UnitDraw(g) ==> FlakeShape(f)
    ensures UnitDraw(g) ==> 0.0 <= f.x <= pw as real && (pw > 0 ==> f.x < pw as real)
    ensures UnitDraw(g) ==> -(ph as real) <= f.y <= 0.0 && (ph > 0 ==> f.y < 0.0)
  {
    Flake(Rand(g.ux, 0.0, pw as real), Rand(g.uy, -(ph as real), 0.0), Rand(g.ur, 0.6, 3.6),
          Rand(g.ud, 0.4, 1.9), Rand(g.uvx, -0.6, 0.6), Rand(g.ua, 0.5, 1.0), Rand(g.utw, 600.0, 2800.0))
  }

  // ---------------------------------------------------------------------------
  // Population size (lines 61-66)
  // ---------------------------------------------------------------------------

  /** Touch devices and screens narrower than 640 get the lower density (line 62). */
  function Density(innerWidth: nat, isTouch: bool): real {
    if isTouch || innerWidth < 640 then 0.00035 else 0.0007
  }

  /** The bounds follow the device class only (lines 64-65). */
  function MinFlakes(isTouch: bool): nat { if isTouch then 80 else 150 }
  function MaxFlakes(isTouch: bool): nat { if isTouch then 400 else 1000 }

  /** `Math.floor(innerWidth * innerHeight * DENSITY)`, with exact rational arithmetic. */
  function RawCount(innerWidth: nat, innerHeight: nat, isTouch: bool): (n: nat)
    ensures n as real <= (innerWidth * innerHeight) as real * Density(innerWidth, isTouch) < n as real + 1.0
  {
    ((innerWidth * innerHeight) as real * Density(innerWidth, isTouch)).Floor
  }

  /**
   * `count` of line 66: the floored product clamped to the device-class range.
   * It is the floored product itself whenever that lies in the range.
   */
  function FlakeCount(innerWidth: nat, innerHeight: nat, isTouch: bool): (count: nat)
    ensures MinFlakes(isTouch) <= count <= MaxFlakes(isTouch)
    ensures isTouch ==> 80 <= count <= 400
    ensures !isTouch ==> 150 <= count <= 1000
    ensures MinFlakes(isTouch) <= RawCount(innerWidth, innerHeight, isTouch) <= MaxFlakes(isTouch) ==>
              count == RawCount(innerWidth, innerHeight, isTouch)
  {
    var n := RawCount(innerWidth, innerHeight, isTouch);
    var capped := if MaxFlakes(isTouch) < n then MaxFlakes(isTouch) else n;
    if MinFlakes(isTouch) > capped then MinFlakes(isTouch) else capped
  }

  /** A narrow non-touch screen gets the touch density but keeps the 150..1000 bounds. */
  lemma NarrowDesktopCount(innerWidth: nat, innerHeight: nat)
    requires innerWidth < 640
    ensures Density(innerWidth, false) == Density(innerWidth, true)
    ensures RawCount(innerWidth, innerHeight, false) == RawCount(innerWidth, innerHeight, true)
    ensures 150 <= FlakeCount(innerWidth, innerHeight, false) <= 1000
  {
  }

  /** A larger viewport never gets fewer flakes (for a fixed width and device class). */
  lemma {:induction false} CountGrowsWithHeight(innerWidth: nat, h1: nat, h2: nat, isTouch: bool)
    requires h1 <= h2
    ensures FlakeCount(innerWidth, h1, isTouch) <= FlakeCount(innerWidth, h2, isTouch)
  {
    ProductGrows(innerWidth, h1, h2);
    var d := Density(innerWidth, isTouch);
    var a1 := (innerWidth * h1) as real;
    var a2 := (innerWidth * h2) as real;
    assert a2 * d - a1 * d == (a2 - a1) * d;
    ScaleNonNegative(a2 - a1, d);
    assert RawCount(innerWidth, h1, isTouch) <= RawCount(innerWidth, h2, isTouch);
  }

  lemma ProductGrows(a: nat, b1: nat, b2: nat)
    requires b1 <= b2
    ensures a * b1 <= a * b2
  {
    assert a * b2 - a * b1 == a * (b2 - b1);
  }

  lemma ScaleNonNegative(a: real, d: real)
    requires a >= 0.0 && d >= 0.0
    ensures a * d >= 0.0
  {
  }

  /** On the same viewport a touch device never gets more flakes than a non-touch one. */
  lemma TouchNeverMore(innerWidth: nat, innerHeight: nat)
    ensures FlakeCount(innerWidth, innerHeight, true) <= FlakeCount(innerWidth, innerHeight, false)
  {
    var area := (innerWidth * innerHeight) as real;
    assert area * Density(innerWidth, true) <= area * Density(innerWidth, false);
  }

  // ---------------------------------------------------------------------------
  // The frame step of update (lines 71-86), without the drawing
  // ---------------------------------------------------------------------------

  /** `dt = Math.min(40, now - last)`: a long pause moves flakes only as far as 40 ms does. */
  function FrameDelta(now: real, last: real): (dt: real)
    ensures dt <= 40.0
    ensures now - last >= 40.0 ==> dt == 40.0
    ensures now - last <= 40.0 ==> dt == now - last
  {
    if now - last < 40.0 then now - last else 40.0
  }

  /** A flake whose fall carries it below the viewport respawns at the top (line 80). */
  predicate Respawns(f: Flake, dt: real, innerHeight: nat) {
    f.y + f.d * (dt / 16.0) > innerHeight as real
  }

  /**
   * One flake's step (lines 78-82): move by `dt / 16` frames, respawn above the
   * top edge at a random x when below the bottom edge, then wrap x. Afterwards
   * x lies in [0, innerWidth] and y is at most innerHeight; a respawned flake has
   * y in [-50, 0) and x in [0, innerWidth); size, speeds and twinkle are kept.
   */
  function StepFlake(f: Flake, dt: real, innerWidth: nat, innerHeight: nat, s: Respawn): (g: Flake)
    ensures g == f.(x := g.x, y := g.y)
    ensures 0.0 <= g.x <= innerWidth as real
    ensures UnitRespawn(s) ==> g.y <= innerHeight as real
    ensures !Respawns(f, dt, innerHeight) ==> g.y == f.y + f.d * (dt / 16.0)
    ensures Respawns(f, dt, innerHeight) && UnitRespawn(s) ==>
              -50.0 <= g.y < 0.0 && (innerWidth > 0 ==> g.x < innerWidth as real)
    ensures !Respawns(f, dt, innerHeight) ==>
              var moved := f.x + f.vx * (dt / 16.0);
              g.x == if moved > innerWidth as real then 0.0 else if moved < 0.0 then innerWidth as real else moved
  {
    var w := innerWidth as real;
    var x1 := f.x + f.vx * (dt / 16.0);
    var y1 := f.y + f.d * (dt / 16.0);
    var y2 := if y1 > innerHeight as real then Rand(s.uy, -50.0, 0.0) else y1;
    var x2 := if y1 > innerHeight as real then Rand(s.ux, 0.0, w) else x1;
    var x3 := if x2 > w then 0.0 else x2;
    var x4 := if x3 < 0.0 then w else x3;
    f.(x := x4, y := y2)
  }

  /** Any elapsed time of at least 40 ms moves a flake exactly as 40 ms does. */
  lemma LongPauseMovesAsFortyMs(f: Flake, now: real, last: real, innerWidth: nat, innerHeight: nat, s: Respawn)
    requires now - last >= 40.0
    ensures StepFlake(f, FrameDelta(now, last), innerWidth, innerHeight, s)
            == StepFlake(f, FrameDelta(last + 40.0, last), innerWidth, innerHeight, s)
  {
  }

  /**
   * The wrap at line 82 puts every flake that leaves on the left exactly on the
   * right edge, so x ranges over the closed interval [0, innerWidth].
   */
  lemma LeftWrapLandsOnRightEdge(f: Flake, dt: real, innerWidth: nat, innerHeight: nat, s: Respawn)
    requires !Respawns(f, dt, innerHeight) && f.x + f.vx * (dt / 16.0) < 0.0
    ensures StepFlake(f, dt, innerWidth, innerHeight, s).x == innerWidth as real
  {
  }

  /** A flake at the left edge drifting left for one 16 ms frame lands on x = innerWidth. */
  lemma LeftWrapExample(innerWidth: nat, innerHeight: nat, s: Respawn)
    requires innerHeight >= 1
    ensures StepFlake(Flake(0.0, 0.0, 1.0, 0.5, -0.5, 0.75, 1000.0), 16.0, innerWidth, innerHeight, s).x
            == innerWidth as real
  {
    LeftWrapLandsOnRightEdge(Flake(0.0, 0.0, 1.0, 0.5, -0.5, 0.75, 1000.0), 16.0, innerWidth, innerHeight, s);
  }

  /** The population of line 54 and the timestamp `last` of line 70. */
  class SnowField {
    var flakes: array<Flake>
    var last: real

    /** Every flake keeps the size, speed, opacity and twinkle createFlake gave it. */
    ghost predicate Valid()
      reads this, flakes
    {
      forall i :: 0 <= i < flakes.Length ==> FlakeShape(flakes[i])
    }

    /**
     * initFlakes (lines 59-68) and line 70: exactly `count` flakes, each made by
     * createFlake from its own draws.
     */
    constructor (innerWidth: nat, innerHeight: nat, pw: nat, ph: nat, isTouch: bool,
                 draws: seq<FlakeDraw>, now: real)
      requires |draws| >= FlakeCount(innerWidth, innerHeight, isTouch)
      requires forall i :: 0 <= i < |draws| ==> UnitDraw(draws[i])
      ensures Valid() && fresh(flakes)
      ensures flakes.Length == FlakeCount(innerWidth, innerHeight, isTouch)
      ensures forall i :: 0 <= i < flakes.Length ==> flakes[i] == CreateFlake(draws[i], pw, ph)
      ensures last == now
    {
      var count := FlakeCount(innerWidth, innerHeight, isTouch);
      var a := new Flake[count];
      for i := 0 to count
        invariant forall k :: 0 <= k < i ==> a[k] == CreateFlake(draws[k], pw, ph)
      {
        a[i] := CreateFlake(draws[i], pw, ph);
      }
      flakes := a;
      last := now;
    }

    /** Line 134: the clock restarts when preloading has settled. */
    method ResetClock(now: real)
      modifies this`last
      ensures last == now
    {
      last := now;
    }

    /**
     * update (lines 71-86) without drawing: every flake takes one StepFlake with
     * the clamped elapsed time, `last` becomes `now`, and the population keeps
     * its array and its length.
     */
    method Update(now: real, innerWidth: nat, innerHeight: nat, respawns: seq<Respawn>)
      requires Valid()
      requires |respawns| == flakes.Length
      requires forall i :: 0 <= i < |respawns| ==> UnitRespawn(respawns[i])
      modifies this`last, flakes
      ensures Valid() && flakes == old(flakes) && last == now
      ensures forall i :: 0 <= i < flakes.Length ==>
                flakes[i] == StepFlake(old(flakes[i]), FrameDelta(now, old(last)), innerWidth, innerHeight, respawns[i])
      ensures forall i :: 0 <= i < flakes.Length ==>
                0.0 <= flakes[i].x <= innerWidth as real && flakes[i].y <= innerHeight as real
    {
      var dt := FrameDelta(now, last);
      last := now;
      for i := 0 to flakes.Length
        invariant last == now
        invariant forall k :: 0 <= k < i ==>
                    flakes[k] == StepFlake(old(flakes[k]), dt, innerWidth, innerHeight, respawns[k])
        invariant forall k :: i <= k < flakes.Length ==> flakes[k] == old(flakes[k])
      {
        flakes[i] := StepFlake(flakes[i], dt, innerWidth, innerHeight, respawns[i]);
      }
    }
  }
}
