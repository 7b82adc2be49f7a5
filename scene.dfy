/** The per-frame movement rules of scene.cpp (`scene_update`) and the colour
    stride of `_draw_ball`. Positions, velocities and the angle are `float`s
    in the program and reals here: the rules are modelled exactly, rounding is
    not. The keyboard is read through `kbdPressing`. */
module Scene {
  import opened Utils
  import opened Keyboard

  /** Sprite and teapot speed, in units per second. */
  const PIXEL_SPEED: real := 0.5
  /** Ball acceleration and deceleration, per-frame values scaled to 60 frames. */
  const ACCEL: real := 0.02 * 60.0
  const DECEL: real := 0.015 * 60.0
  /** The ball's top speed per unit of `dt`. */
  const TOP_SPEED: real := 180.0
  /** Teapot spin, in degrees per second. */
  const SPIN: real := 45.0

  /** A constant-speed coordinate: `+d` when the positive button is held, then
      `-d` when the negative one is. */
  function Walk(p: real, plus: bool, minus: bool, d: real): (r: real)
    ensures plus == minus ==> r == p
    ensures d >= 0.0 && plus && !minus ==> r >= p
    ensures d >= 0.0 && minus && !plus ==> r <= p
  {
    var p1 := if plus then p + d else p;
    if minus then p1 - d else p1
  }

  /** The decay applied when no button of an axis is held: a step of `DECEL * dt`
      against `signbit(v)`, snapped to zero once within `ACCEL * dt` of it. */
  function Decay(v: real, dt: real): (r: real)
    ensures dt >= 0.0 ==> Abs(r) <= Abs(v)
    ensures dt >= 0.0 && v == 0.0 ==> r == 0.0
  {
    var d := v - DECEL * SignBit(v) * dt;
    if Abs(d) <= ACCEL * dt then 0.0 else d
  }

  /** The velocity before the speed limit: `+ACCEL * dt` for the positive
      button, `-ACCEL * dt` for the negative one, decay when neither is held. */
  function Accelerate(v: real, plus: bool, minus: bool, dt: real): (r: real)
    ensures plus && minus ==> r == v
    ensures dt >= 0.0 && plus && !minus ==> r >= v
    ensures dt >= 0.0 && minus && !plus ==> r <= v
    ensures dt >= 0.0 && !plus && !minus ==> Abs(r) <= Abs(v)
  {
    var v1 := if plus then v + ACCEL * dt else v;
    var v2 := if minus then v1 - ACCEL * dt else v1;
    if !plus && !minus then Decay(v2, dt) else v2
  }

  /** One axis of the ball's velocity: accelerate, then clamp to
      `[-TOP_SPEED * dt, TOP_SPEED * dt]`. */
  function AxisVelocity(v: real, plus: bool, minus: bool, dt: real): (r: real)
    ensures dt >= 0.0 ==> -TOP_SPEED * dt <= r <= TOP_SPEED * dt
    ensures dt >= 0.0 ==> Abs(r) <= TOP_SPEED * dt
  {
    Clamp(Accelerate(v, plus, minus, dt), -TOP_SPEED * dt, TOP_SPEED * dt)
  }

  /** The teapot angle reduced by whole turns, as `a - floor(a / 360) * 360`. */
  function WrapAngle(a: real): (r: real)
    ensures 0.0 <= r < 360.0
    ensures 0.0 <= a < 360.0 ==> r == a
  {
    a - (a / 360.0).Floor as real * 360.0
  }

  /** The statics that `scene_update` changes. */
  datatype Bodies = Bodies(
    x: real, y: real,
    ballX: real, ballY: real, speedX: real, speedY: real,
    teapotAngle: real, teapotZ: real)

  /** The six buttons `scene_update` asks `kbdPressing` about. */
  datatype Held = Held(up: bool, down: bool, left: bool, right: bool, action1: bool, action2: bool)

  /** What `kbdPressing` answers for each of them in keyboard state `k`. */
  function HeldIn(k: Snapshot): (h: Held)
    requires k.Valid()
    ensures h.up == k.current[BTN_UP] && h.down == k.current[BTN_DOWN]
    ensures h.left == k.current[BTN_LEFT] && h.right == k.current[BTN_RIGHT]
    ensures h.action1 == k.current[BTN_ACTION1] && h.action2 == k.current[BTN_ACTION2]
    ensures k == Cleared() ==> h == Held(false, false, false, false, false, false)
  {
    Held(k.Pressing(BTN_UP), k.Pressing(BTN_DOWN), k.Pressing(BTN_LEFT), k.Pressing(BTN_RIGHT),
         k.Pressing(BTN_ACTION1), k.Pressing(BTN_ACTION2))
  }

  /** One `scene_update(dt)` with the buttons `h` held. */
  function Step(s: Bodies, dt: real, h: Held): (t: Bodies)
    ensures 0.0 <= t.teapotAngle < 360.0
    ensures dt >= 0.0 ==> Abs(t.speedX) <= TOP_SPEED * dt && Abs(t.speedY) <= TOP_SPEED * dt
  {
    var walk := PIXEL_SPEED * dt;
    var speedX := AxisVelocity(s.speedX, h.right, h.left, dt);
    var speedY := AxisVelocity(s.speedY, h.up, h.down, dt);
    Bodies(
      Walk(s.x, h.right, h.left, walk), Walk(s.y, h.up, h.down, walk),
      s.ballX + speedX * dt, s.ballY + speedY * dt, speedX, speedY,
      WrapAngle(s.teapotAngle + SPIN * dt),
      Walk(s.teapotZ, h.action2, h.action1, walk))
  }

  /** Each held button moves its coordinate by `d`; opposite buttons held
      together cancel. */
  lemma WalkMoves(p: real, plus: bool, minus: bool, d: real)
    ensures Walk(p, plus, minus, d) == p + (if plus then d else 0.0) - (if minus then d else 0.0)
    ensures plus == minus ==> Walk(p, plus, minus, d) == p
  {
  }

  /** Decay never crosses zero: a zero velocity stays exactly zero, and any
      other one moves toward zero without passing it, because `DECEL` does not
      exceed `ACCEL`. */
  lemma DecayTowardZero(v: real, dt: real)
    requires dt >= 0.0
    ensures v == 0.0 ==> Decay(v, dt) == 0.0
    ensures v > 0.0 ==> 0.0 <= Decay(v, dt) <= v
    ensures v < 0.0 ==> v <= Decay(v, dt) <= 0.0
  {
  }

  /** Each step of decay takes exactly `DECEL * dt` off the magnitude, or
      reaches zero. */
  lemma DecayStep(v: real, dt: real)
    requires dt >= 0.0
    ensures Abs(Decay(v, dt)) == 0.0 || Abs(Decay(v, dt)) == Abs(v) - DECEL * dt
  {
  }

  /** With neither button of an axis held, the velocity becomes zero or keeps
      its sign and does not grow, the speed limit included. */
  lemma ReleasedAxisKeepsSign(v: real, dt: real)
    requires dt >= 0.0
    ensures v == 0.0 ==> AxisVelocity(v, false, false, dt) == 0.0
    ensures v > 0.0 ==> 0.0 <= AxisVelocity(v, false, false, dt) <= v
    ensures v < 0.0 ==> v <= AxisVelocity(v, false, false, dt) <= 0.0
  {
    DecayTowardZero(v, dt);
    ClampSymmetric(Decay(v, dt), TOP_SPEED * dt);
  }

  /** With a button of the axis held, the velocity gains `ACCEL * dt` for the
      positive button and loses it for the negative one, before the limit;
      with neither held it decays. */
  lemma AccelerateHeld(v: real, plus: bool, minus: bool, dt: real)
    ensures plus || minus ==>
      Accelerate(v, plus, minus, dt) == v + (if plus then ACCEL * dt else 0.0) - (if minus then ACCEL * dt else 0.0)
    ensures !plus && !minus ==> Accelerate(v, plus, minus, dt) == Decay(v, dt)
  {
  }

  /** Holding only the positive button never lowers a velocity that is within
      the speed limit. */
  lemma AcceleratingNeverSlows(v: real, dt: real)
    requires dt >= 0.0 && Abs(v) <= TOP_SPEED * dt
    ensures AxisVelocity(v, true, false, dt) >= v
  {
  }

  /** `n` frames of one axis with neither button held. */
  function Released(v: real, dt: real, n: nat): (r: real)
    ensures dt >= 0.0 ==> Abs(r) <= Abs(v)
    ensures dt >= 0.0 && v >= 0.0 ==> r >= 0.0
    ensures dt >= 0.0 && v <= 0.0 ==> r <= 0.0
  {
    if n == 0 then v
    else
      var w := Released(v, dt, n - 1);
      assert dt >= 0.0 ==>
        Abs(AxisVelocity(w, false, false, dt)) <= Abs(w)
        && (w >= 0.0 ==> AxisVelocity(w, false, false, dt) >= 0.0)
        && (w <= 0.0 ==> AxisVelocity(w, false, false, dt) <= 0.0) by {
        if dt >= 0.0 {
          ReleasedAxisKeepsSign(w, dt);
        }
      }
      AxisVelocity(w, false, false, dt)
  }

  /** One released frame, speed limit included, takes at least `DECEL * dt`
      off the magnitude of the velocity or brings it to zero. */
  lemma ReleasedFrame(v: real, dt: real)
    requires dt >= 0.0
    ensures var w := AxisVelocity(v, false, false, dt);
      w == 0.0 || Abs(w) <= Abs(v) - DECEL * dt
  {
    DecayStep(v, dt);
    ClampSymmetric(Decay(v, dt), TOP_SPEED * dt);
  }

  /** Released buttons bring the velocity to exactly zero within any number
      of frames whose total decay `n * DECEL * dt` covers its magnitude. */
  lemma {:induction false} ReleasedReachesZero(v: real, dt: real, n: nat)
    requires dt > 0.0
    requires n as real * (DECEL * dt) >= Abs(v)
    ensures Released(v, dt, n) == 0.0
    decreases n
  {
    if n == 0 {
      assert v == 0.0;
    } else {
      var w := AxisVelocity(v, false, false, dt);
      var m: nat := n - 1;
      assert m as real * (DECEL * dt) >= Abs(w) by {
        ReleasedFrame(v, dt);
        BudgetAfterFrame(m, DECEL * dt, Abs(v), Abs(w));
      }
      assert Released(v, dt, n) == Released(w, dt, m) by {
        ReleasedOnVelocity(v, dt, m);
      }
      ReleasedReachesZero(w, dt, m);
    }
  }

  /** If `m + 1` steps cover `a` and `b` is zero or at least one step below
      `a`, then `m` steps cover `b`. */
  lemma BudgetAfterFrame(m: nat, step: real, a: real, b: real)
    requires (m + 1) as real * step >= a
    requires b >= 0.0 && (b == 0.0 || b <= a - step)
    requires step >= 0.0
    ensures m as real * step >= b
  {
    assert (m + 1) as real * step == m as real * step + step;
    assert m as real * step >= 0.0 by {
      assert m as real >= 0.0;
    }
  }

  /** Releasing for `n + 1` frames is one frame, then `n` more. */
  lemma {:induction false} ReleasedOnVelocity(v: real, dt: real, n: nat)
    ensures Released(v, dt, n + 1) == Released(AxisVelocity(v, false, false, dt), dt, n)
    decreases n
  {
    if n > 0 {
      ReleasedOnVelocity(v, dt, n - 1);
    }
  }

  /** After a frame with `dt >= 0`, the sprite has moved `PIXEL_SPEED * dt`
      along each axis whose button is held, both ball velocities are within
      `TOP_SPEED * dt`, the ball moves by its new velocity times `dt`, the angle
      is in [0, 360), and the teapot moves by `PIXEL_SPEED * dt` toward the
      viewer on ACTION2 and away on ACTION1. */
  lemma StepProperties(s: Bodies, dt: real, h: Held)
    requires dt >= 0.0
    ensures Step(s, dt, h).x == s.x
      + (if h.right then PIXEL_SPEED * dt else 0.0) - (if h.left then PIXEL_SPEED * dt else 0.0)
    ensures Step(s, dt, h).y == s.y
      + (if h.up then PIXEL_SPEED * dt else 0.0) - (if h.down then PIXEL_SPEED * dt else 0.0)
    ensures Abs(Step(s, dt, h).speedX) <= TOP_SPEED * dt && Abs(Step(s, dt, h).speedY) <= TOP_SPEED * dt
    ensures Step(s, dt, h).ballX == s.ballX + Step(s, dt, h).speedX * dt
    ensures Step(s, dt, h).ballY == s.ballY + Step(s, dt, h).speedY * dt
    ensures 0.0 <= Step(s, dt, h).teapotAngle < 360.0
    ensures Step(s, dt, h).teapotZ == s.teapotZ
      + (if h.action2 then PIXEL_SPEED * dt else 0.0) - (if h.action1 then PIXEL_SPEED * dt else 0.0)
  {
  }

  /** A ball at rest on an axis whose buttons are not held stays at rest, and
      its coordinate on that axis does not move. */
  lemma RestingAxisStays(s: Bodies, dt: real, h: Held)
    requires dt >= 0.0
    ensures s.speedX == 0.0 && !h.left && !h.right ==>
      Step(s, dt, h).speedX == 0.0 && Step(s, dt, h).ballX == s.ballX
    ensures s.speedY == 0.0 && !h.up && !h.down ==>
      Step(s, dt, h).speedY == 0.0 && Step(s, dt, h).ballY == s.ballY
  {
    ReleasedAxisKeepsSign(0.0, dt);
  }

  /** At `dt = 0.016`: five frames holding the positive button from rest give
      a velocity of 0.096, below the limit of 2.88; one released frame then
      takes off 0.0144 and, 0.0816 being above 0.0192, does not snap to zero. */
  lemma HoldThenReleaseScenario()
    ensures var dt := 0.016;
      var v5 := AxisVelocity(AxisVelocity(AxisVelocity(AxisVelocity(AxisVelocity(
        0.0, true, false, dt), true, false, dt), true, false, dt), true, false, dt), true, false, dt);
      v5 == 0.096 && AxisVelocity(v5, false, false, dt) == 0.0816
  {
  }

  /** The colour table of `_draw_ball`: eleven RGB triples. */
  const COLORS: seq<real> := [
    1.0, 0.0, 0.0,
    0.0, 1.0, 0.0,
    0.3, 0.2, 1.0,
    0.0, 0.0, 1.0,
    0.7, 0.0, 0.5,
    0.5, 0.2, 0.0,
    0.6, 0.0, 0.8,
    0.0, 0.4, 0.3,
    0.0, 1.0, 1.0,
    1.0, 0.0, 1.0,
    1.0, 1.0, 0.0
  ]

  /** The stride cycles over the first six colours: indices `0, 3, ..., 15`. */
  const STRIDE_CYCLE: int := 6 * 3
  /** Milliseconds between two stride advances. */
  const STRIDE_PERIOD_MS: int := 50
  /** The triangle fan's steps: angles 0, 0.25, ... below 360. */
  const FAN_STEPS: nat := 1440

  datatype Rgb = Rgb(r: real, g: real, b: real)

  /** A stride that starts a triple within the cycle. */
  predicate ValidStride(i: int) {
    0 <= i < STRIDE_CYCLE && i % 3 == 0
  }

  /** The triple of `table` starting at index `i`. */
  function Triple(table: seq<real>, i: int): Rgb
    requires 0 <= i && i + 2 < |table|
  {
    Rgb(table[i], table[i + 1], table[i + 2])
  }

  /** The colour table's triple starting at stride `i`. */
  function ColorAt(i: int): Rgb
    requires ValidStride(i)
  {
    Triple(COLORS, i)
  }

  /** Advancing the stride by one triple stays within the cycle, and every
      stride in the cycle starts a triple inside the 33-entry table. */
  function NextStride(i: int): (j: int)
    requires ValidStride(i)
    ensures ValidStride(j)
  {
    (i + 3) % STRIDE_CYCLE
  }

  /** The stride moves to the next triple, and from the last one of the cycle
      back to the first. */
  lemma NextStrideWraps(i: int)
    requires ValidStride(i)
    ensures NextStride(i) == if i == STRIDE_CYCLE - 3 then 0 else i + 3
  {
  }

  /** Every stride is a multiple of three in [0, 15], so its triple lies
      inside the 33-entry table. */
  lemma StrideInsideTable(i: int)
    requires ValidStride(i)
    ensures 0 <= i <= 15 && i % 3 == 0
    ensures i + 2 < |COLORS| && |COLORS| == 33
  {
  }

  /** The stride after `k` advances from `c`. */
  function StrideAfter(c: int, k: nat): (j: int)
    requires ValidStride(c)
    ensures ValidStride(j)
    decreases k
  {
    if k == 0 then c else NextStride(StrideAfter(c, k - 1))
  }

  /** `k` advances move the stride `k` triples on around the six-colour
      cycle. */
  lemma {:induction false} StrideAfterIsMod(c: int, k: nat)
    requires ValidStride(c)
    ensures StrideAfter(c, k) == (c + 3 * k) % STRIDE_CYCLE
    decreases k
  {
    if k > 0 {
      StrideAfterIsMod(c, k - 1);
      StrideModStep(c + 3 * (k - 1));
    }
  }

  /** Reducing before or after a step of one triple gives the same stride. */
  lemma StrideModStep(a: int)
    ensures (a % STRIDE_CYCLE + 3) % STRIDE_CYCLE == (a + 3) % STRIDE_CYCLE
  {
  }

  /** A whole cycle of strides changes nothing. */
  lemma StrideModCycle(a: int)
    ensures (a + STRIDE_CYCLE) % STRIDE_CYCLE == a % STRIDE_CYCLE
  {
  }

  /** Six advances bring the stride back where it was. */
  lemma StrideAfterPeriod(c: int, k: nat)
    requires ValidStride(c)
    ensures StrideAfter(c, k + 6) == StrideAfter(c, k)
  {
    StrideAfterIsMod(c, k);
    StrideAfterIsMod(c, k + 6);
    StrideModCycle(c + 3 * k);
  }

  /** The loop of `_draw_ball` over the angles 0, 0.25, ... below 360: each
      vertex takes the triple of `colors` at the running stride, which then
      advances by one triple. */
  method FanColors(colors: seq<real>, stride: int) returns (fan: seq<Rgb>)
    requires ValidStride(stride) && |colors| >= STRIDE_CYCLE
    ensures |fan| == FAN_STEPS
    ensures forall k :: 0 <= k < |fan| ==> fan[k] == Triple(colors, StrideAfter(stride, k))
  {
    fan := [];
    var angle := 0.0;
    var current := stride;
    while angle < 360.0
      invariant |fan| <= FAN_STEPS && angle == |fan| as real * 0.25
      invariant current == StrideAfter(stride, |fan|)
      invariant forall k :: 0 <= k < |fan| ==> fan[k] == Triple(colors, StrideAfter(stride, k))
      decreases FAN_STEPS - |fan|
    {
      fan := fan + [Rgb(colors[current], colors[current + 1], colors[current + 2])];
      angle := angle + 0.25;
      current := (current + 3) % STRIDE_CYCLE;
    }
  }

  /** One coordinate's constant-speed step, as the `if`s of `scene_update`
      apply it to a static. */
  method Walk1(p: real, plus: bool, minus: bool, d: real) returns (q: real)
    ensures q == Walk(p, plus, minus, d)
    ensures q == p + (if plus then d else 0.0) - (if minus then d else 0.0)
  {
    q := p;
    if plus { q := q + d; }
    if minus { q := q - d; }
  }

  /** One axis of the ball's velocity before the speed limit, as
      `scene_update` steps it. */
  method AccelerateAxis(v: real, plus: bool, minus: bool, dt: real) returns (w: real)
    ensures w == Accelerate(v, plus, minus, dt)
  {
    w := v;
    if plus { w := w + ACCEL * dt; }
    if minus { w := w - ACCEL * dt; }
    if !plus && !minus {
      w := w - DECEL * SignBit(w) * dt;
      if Abs(w) <= ACCEL * dt {
        w := 0.0;
      }
    }
  }

  /** The eight components of `Step`. */
  lemma StepFields(s: Bodies, dt: real, h: Held)
    ensures Step(s, dt, h).x == Walk(s.x, h.right, h.left, PIXEL_SPEED * dt)
    ensures Step(s, dt, h).y == Walk(s.y, h.up, h.down, PIXEL_SPEED * dt)
    ensures Step(s, dt, h).ballX == s.ballX + AxisVelocity(s.speedX, h.right, h.left, dt) * dt
    ensures Step(s, dt, h).ballY == s.ballY + AxisVelocity(s.speedY, h.up, h.down, dt) * dt
    ensures Step(s, dt, h).speedX == AxisVelocity(s.speedX, h.right, h.left, dt)
    ensures Step(s, dt, h).speedY == AxisVelocity(s.speedY, h.up, h.down, dt)
    ensures Step(s, dt, h).teapotAngle == WrapAngle(s.teapotAngle + SPIN * dt)
    ensures Step(s, dt, h).teapotZ == Walk(s.teapotZ, h.action2, h.action1, PIXEL_SPEED * dt)
  {
  }

  /** `Step` recognised from its eight components. */
  lemma StepIs(s: Bodies, dt: real, h: Held, t: Bodies)
    requires t.x == Walk(s.x, h.right, h.left, PIXEL_SPEED * dt)
    requires t.y == Walk(s.y, h.up, h.down, PIXEL_SPEED * dt)
    requires t.ballX == s.ballX + AxisVelocity(s.speedX, h.right, h.left, dt) * dt
    requires t.ballY == s.ballY + AxisVelocity(s.speedY, h.up, h.down, dt) * dt
    requires t.speedX == AxisVelocity(s.speedX, h.right, h.left, dt)
    requires t.speedY == AxisVelocity(s.speedY, h.up, h.down, dt)
    requires t.teapotAngle == WrapAngle(s.teapotAngle + SPIN * dt)
    requires t.teapotZ == Walk(s.teapotZ, h.action2, h.action1, PIXEL_SPEED * dt)
    ensures Step(s, dt, h) == t
  {
    StepFields(s, dt, h);
  }

  /** The teapot's turn, as `scene_update` steps its angle: add `SPIN * dt`,
      then remove whole turns. */
  method Spin(a: real, dt: real) returns (b: real)
    ensures b == WrapAngle(a + SPIN * dt)
    ensures 0.0 <= b < 360.0
  {
    b := a + SPIN * dt;
    b := b - (b / 360.0).Floor as real * 360.0;
  }

  /** One axis of the ball, as `scene_update` steps it: accelerate or decay,
      limit the speed to `TOP_SPEED * dt`, then advance the position. */
  method MoveBallAxis(p: real, v: real, plus: bool, minus: bool, dt: real) returns (p1: real, v1: real)
    ensures v1 == AxisVelocity(v, plus, minus, dt)
    ensures p1 == p + AxisVelocity(v, plus, minus, dt) * dt
  {
    var topspeed := TOP_SPEED * dt;
    v1 := AccelerateAxis(v, plus, minus, dt);
    v1 := Clamp(v1, -topspeed, topspeed);
    p1 := p + v1 * dt;
  }

  /** The body of `scene_update` on the statics `s` with the buttons `h`
      held, in the source's order: the sprite, the ball, then the teapot. */
  method Advance(s: Bodies, dt: real, h: Held) returns (t: Bodies)
    ensures t == Step(s, dt, h)
  {
    var walkdist := PIXEL_SPEED * dt;

    // Constant movement
    var y1 := Walk1(s.y, h.up, h.down, walkdist);
    var x1 := Walk1(s.x, h.right, h.left, walkdist);

    // Accelerated movement
    var bx1, vx := MoveBallAxis(s.ballX, s.speedX, h.right, h.left, dt);
    var by1, vy := MoveBallAxis(s.ballY, s.speedY, h.up, h.down, dt);

    // Teapot
    var angle := Spin(s.teapotAngle, dt);
    var z1 := Walk1(s.teapotZ, h.action2, h.action1, walkdist);

    t := Bodies(x1, y1, bx1, by1, vx, vy, angle, z1);
    StepIs(s, dt, h, t);
  }

  /** The six buttons `scene_update` reads, read from `kbd`. */
  method ReadHeld(kbd: Keyboard) returns (h: Held)
    requires kbd.Valid()
    ensures h == HeldIn(kbd.Model())
  {
    h := Held(kbd.Pressing(BTN_UP), kbd.Pressing(BTN_DOWN), kbd.Pressing(BTN_LEFT),
              kbd.Pressing(BTN_RIGHT), kbd.Pressing(BTN_ACTION1), kbd.Pressing(BTN_ACTION2));
  }

  /** The statics of scene.cpp that the frame updates and `_draw_ball` uses. */
  class Scene {
    var x: real
    var y: real
    var ballX: real
    var ballY: real
    var speedX: real
    var speedY: real
    var teapotAngle: real
    var teapotZ: real
    var colorStride: int
    var colorTime: int

    ghost predicate Valid()
      reads this
    {
      ValidStride(colorStride)
    }

    function State(): Bodies
      reads this
    {
      Bodies(x, y, ballX, ballY, speedX, speedY, teapotAngle, teapotZ)
    }

    /** The statics' zero initial values. */
    constructor ()
      ensures Valid()
      ensures State() == Bodies(0.0, 0.0, 0.0, 0.0, 0.0, 0.0, 0.0, 0.0)
      ensures colorStride == 0 && colorTime == 0
    {
      x, y := 0.0, 0.0;
      ballX, ballY, speedX, speedY := 0.0, 0.0, 0.0, 0.0;
      teapotAngle, teapotZ := 0.0, 0.0;
      colorStride, colorTime := 0, 0;
    }

    /** `scene_update(dt)`, reading the keyboard `kbd`. The statics and the
        buttons are read into locals, stepped in the source's order, and the
        statics written back. */
    method Update(dt: real, kbd: Keyboard)
      requires Valid() && kbd.Valid()
      modifies this
      ensures Valid()
      ensures State() == Step(old(State()), dt, HeldIn(kbd.Model()))
      ensures colorStride == old(colorStride) && colorTime == old(colorTime)
    {
      var h := ReadHeld(kbd);
      var t := Advance(State(), dt, h);
      x, y, ballX, ballY, speedX, speedY, teapotAngle, teapotZ := t.x, t.y, t.ballX, t.ballY, t.speedX, t.speedY, t.teapotAngle, t.teapotZ;
    }

    /** The stride step at the top of `_draw_ball`: with `currTime` the
        elapsed-time reading, advance by one triple when more than 50 ms have
        passed since the last advance. */
    method AdvanceColor(currTime: int)
      requires Valid()
      modifies this`colorStride, this`colorTime
      ensures Valid()
      ensures if currTime - old(colorTime) > STRIDE_PERIOD_MS
        then colorStride == NextStride(old(colorStride)) && colorTime == currTime
        else colorStride == old(colorStride) && colorTime == old(colorTime)
    {
      if currTime - colorTime > STRIDE_PERIOD_MS {
        colorTime := currTime;
        colorStride := (colorStride + 3) % STRIDE_CYCLE;
      }
    }

    /** The colours `_draw_ball` gives the fan's vertices: vertex `k` takes
        the triple `k` advances on from the stride. */
    method BallColors() returns (fan: seq<Rgb>)
      requires Valid()
      ensures |fan| == FAN_STEPS
      ensures forall k :: 0 <= k < |fan| ==> fan[k] == ColorAt(StrideAfter(colorStride, k))
    {
      fan := FanColors(COLORS, colorStride);
    }
  }
}
