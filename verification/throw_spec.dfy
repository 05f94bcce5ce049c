/** BallThrow as values: a swipe of the primary finger becomes one impulse on the
    ball, a latch keeps further swipes out until the ball has been smoothly reset
    to its anchor, and the reset is a per-frame resumable task. */
module ThrowSpec {
  import opened Numeric

  /** A screen position or a screen displacement. */
  datatype Vec2 = Vec2(x: real, y: real) {
    function Minus(other: Vec2): Vec2 {
      Vec2(x - other.x, y - other.y)
    }

    /** `v == Vector2.zero`: Unity's equality holds when the squared length is
        below the square of its tolerance, not only for the exact zero vector. */
    predicate NearZero() {
      x * x + y * y < VectorEpsilon * VectorEpsilon
    }
  }

  const Zero2: Vec2 := Vec2(0.0, 0.0)

  /** A float that may have left the finite range: dividing by a zero interval
      yields an infinity (or NaN), which the engine receives as is. */
  datatype Depth = Finite(value: real) | NonFinite

  /** One Rigidbody.AddForce(x, y, z) call. */
  datatype Force = Force(x: real, y: real, z: Depth)

  /** Where the ball's transform hangs: the scene root or the agent's hand. */
  datatype Parent = World | Hand

  /** The SmoothReset coroutine: either not running, or suspended with the
      positions it captured and the time elapsed so far. */
  datatype Coroutine = NotRunning | Running(start: real, target: real, elapsed: real)

  const ResetDuration: real := 1.0
  const MinSwipeInterval: real := 0.1
  const MaxSwipeSpeed: real := 500.0

  /** The serialized settings: lateral and depth force scales, and the anchor
      position (`ballPosition`) the ball is reset to. */
  datatype ThrowConfig = ThrowConfig(forceXY: real, forceZ: real, anchor: real)

  /** The state of the ball object: the gesture fields, the latch, the rigidbody
      (its kinematic flag and the forces applied to it), the transform, and the
      reset coroutine. */
  datatype Ball = Ball(
    startPos: Vec2, endPos: Vec2, direction: Vec2,
    touchTimeStart: real, touchTimeFinish: real, timeInterval: real,
    thrown: bool,
    isKinematic: bool, forces: seq<Force>,
    parent: Parent, localPosition: real, position: real,
    smoothReset: Coroutine)

  /** Finger down: only finger 0 counts, and it always overwrites the recorded start. */
  function FingerDown(b: Ball, index: int, screenPosition: Vec2, time: real): (r: Ball)
    ensures index != 0 ==> r == b
    ensures index == 0 ==> r.startPos == screenPosition && r.touchTimeStart == time
    ensures r.thrown == b.thrown && r.isKinematic == b.isKinematic && r.forces == b.forces
  {
    if index != 0 then b
    else b.(touchTimeStart := time, startPos := screenPosition)
  }

  predicate Opposite(f: real, d: real) {
    (f < 0.0 <==> 0.0 < d) && (0.0 < f <==> d < 0.0)
  }

  /** The impulse of a swipe: lateral components against the displacement, depth
      component the depth scale divided by the raw swipe interval. */
  function ThrowForce(direction: Vec2, interval: real, cfg: ThrowConfig): (f: Force)
    ensures 0.0 < cfg.forceXY ==> Opposite(f.x, direction.x) && Opposite(f.y, direction.y)
    ensures f.z.NonFinite? <==> interval == 0.0
    ensures 0.0 < interval && 0.0 < cfg.forceZ ==> f.z.Finite? && 0.0 < f.z.value
  {
    ProductSign(direction.x, cfg.forceXY);
    ProductSign(direction.y, cfg.forceXY);
    Force(-direction.x * cfg.forceXY, -direction.y * cfg.forceXY,
          if interval == 0.0 then NonFinite else Finite(cfg.forceZ / interval))
  }

  lemma ProductSign(d: real, k: real)
    ensures 0.0 < k ==> Opposite(-d * k, d)
  {
    if k <= 0.0 {
    } else if d < 0.0 {
      assert 0.0 < -d * k by { MulPositive(-d, k); }
    } else if 0.0 < d {
      assert 0.0 < d * k by { MulPositive(d, k); }
    }
  }

  /** A longer swipe pushes more gently in depth. */
  lemma DepthForceDecreasesWithInterval(direction: Vec2, i1: real, i2: real, cfg: ThrowConfig)
    requires 0.0 < i1 < i2 && 0.0 < cfg.forceZ
    ensures ThrowForce(direction, i1, cfg).z.value > ThrowForce(direction, i2, cfg).z.value
  {
    QuotientDecreasing(cfg.forceZ, i1, i2);
  }

  lemma QuotientDecreasing(k: real, i1: real, i2: real)
    requires 0.0 < i1 < i2 && 0.0 < k
    ensures k / i1 > k / i2
  {
    var a, b := k / i1, k / i2;
    assert a * i1 == k;
    assert b * i2 == k;
    assert 0.0 < b;
    MulPositive(b, i2 - i1);
    assert b * i1 < k;
    assert (a - b) * i1 > 0.0;
    if a - b <= 0.0 {
      assert false;
    }
  }

  /** The diagnostic swipe speed: displacement over the interval floored at 0.1,
      clamped to [0, 500]. It is only logged; nothing in the state depends on it. */
  function SwipeSpeed(magnitude: real, interval: real): (s: real)
    ensures 0.0 <= s <= MaxSwipeSpeed
  {
    Clamp(magnitude / Max(interval, MinSwipeInterval), 0.0, MaxSwipeSpeed)
  }

  /** The zero vector counts as zero, and so does every displacement shorter than
      the tolerance; a displacement of at least the tolerance along either axis does not. */
  lemma NearZeroBounds(v: Vec2)
    ensures v == Zero2 ==> v.NearZero()
    ensures Abs(v.x) < VectorEpsilon / 2.0 && Abs(v.y) < VectorEpsilon / 2.0 ==> v.NearZero()
    ensures VectorEpsilon <= Abs(v.x) || VectorEpsilon <= Abs(v.y) ==> !v.NearZero()
  {
    var e := VectorEpsilon;
    var ax, ay := Abs(v.x), Abs(v.y);
    assert v.x * v.x == ax * ax && v.y * v.y == ay * ay;
    MulNonNegative(ax, ax);
    MulNonNegative(ay, ay);
    if ax < e / 2.0 && ay < e / 2.0 {
      SquareMonotone(ax, e / 2.0);
      SquareMonotone(ay, e / 2.0);
    }
    if e <= ax {
      SquareMonotone(e, ax);
    }
    if e <= ay {
      SquareMonotone(e, ay);
    }
  }

  lemma SquareMonotone(a: real, c: real)
    requires 0.0 <= a <= c
    ensures a * a <= c * c
  {
    MulNonNegative(a, c - a);
    MulNonNegative(c, c - a);
  }

  /** A finger-up that releases the ball: finger 0, latch open, and a displacement
      that Unity's approximate vector equality does not take for zero. */
  predicate Releases(b: Ball, index: int, screenPosition: Vec2) {
    index == 0 && !b.thrown && !b.startPos.Minus(screenPosition).NearZero()
  }

  /** Finger up: ignored for other fingers and while the latch is set; otherwise
      the gesture fields are recorded, and a displacement that is not (nearly) zero makes the body
      dynamic, applies one force and sets the latch. */
  function FingerUp(b: Ball, cfg: ThrowConfig, index: int, screenPosition: Vec2, time: real): (r: Ball)
    ensures index != 0 || b.thrown ==> r == b
    ensures r.startPos == b.startPos && r.touchTimeStart == b.touchTimeStart
    ensures r.position == b.position && r.parent == b.parent && r.localPosition == b.localPosition
    ensures r.smoothReset == b.smoothReset
    ensures Releases(b, index, screenPosition) ==>
              && r.forces == b.forces + [ThrowForce(b.startPos.Minus(screenPosition), time - b.touchTimeStart, cfg)]
              && !r.isKinematic && r.thrown
    ensures !Releases(b, index, screenPosition) ==>
              r.forces == b.forces && r.thrown == b.thrown && r.isKinematic == b.isKinematic
  {
    if index != 0 then b
    else if b.thrown then b
    else
      var interval := time - b.touchTimeStart;
      var direction := b.startPos.Minus(screenPosition);
      var recorded := b.(touchTimeFinish := time, timeInterval := interval,
                         endPos := screenPosition, direction := direction);
      if direction.NearZero() then recorded
      else recorded.(isKinematic := false,
                     forces := b.forces + [ThrowForce(direction, interval, cfg)],
                     thrown := true)
  }

  /** A swipe of a millionth of a pixel is taken for no swipe at all: the gesture
      is recorded, but no force is applied and the latch stays open. */
  lemma SubToleranceSwipeIgnored(b: Ball, cfg: ThrowConfig, time: real)
    requires b.startPos == Zero2 && !b.thrown
    ensures var r := FingerUp(b, cfg, 0, Vec2(0.000001, 0.0), time);
              && r.endPos == Vec2(0.000001, 0.0) && r.touchTimeFinish == time
              && r.forces == b.forces && !r.thrown
  {
    NearZeroBounds(b.startPos.Minus(Vec2(0.000001, 0.0)));
  }

  /** A pointer event as the touch system delivers it. */
  datatype FingerEvent =
    | Down(index: int, screenPosition: Vec2, time: real)
    | Up(index: int, screenPosition: Vec2, time: real)

  /** A run of pointer events with no reset in between. */
  function Replay(b: Ball, cfg: ThrowConfig, events: seq<FingerEvent>): Ball
    decreases |events|
  {
    if events == [] then b
    else
      var next := match events[0]
        case Down(i, p, t) => FingerDown(b, i, p, t)
        case Up(i, p, t) => FingerUp(b, cfg, i, p, t);
      Replay(next, cfg, events[1..])
  }

  /** Once the latch is set, no run of pointer events applies a force, unsets the
      latch or touches the kinematic flag. */
  lemma {:induction false} LatchBlocksThrows(b: Ball, cfg: ThrowConfig, events: seq<FingerEvent>)
    requires b.thrown
    ensures Replay(b, cfg, events).forces == b.forces
    ensures Replay(b, cfg, events).thrown
    ensures Replay(b, cfg, events).isKinematic == b.isKinematic
    decreases |events|
  {
    if events != [] {
      var next := match events[0]
        case Down(i, p, t) => FingerDown(b, i, p, t)
        case Up(i, p, t) => FingerUp(b, cfg, i, p, t);
      LatchBlocksThrows(next, cfg, events[1..]);
    }
  }

  /** Between two resets, pointer events apply at most one force, and any force
      applied comes after the earlier ones. */
  lemma {:induction false} AtMostOneThrow(b: Ball, cfg: ThrowConfig, events: seq<FingerEvent>)
    ensures |b.forces| <= |Replay(b, cfg, events).forces| <= |b.forces| + 1
    ensures Replay(b, cfg, events).forces[..|b.forces|] == b.forces
    ensures b.thrown ==> |Replay(b, cfg, events).forces| == |b.forces|
    decreases |events|
  {
    if events != [] {
      var next := match events[0]
        case Down(i, p, t) => FingerDown(b, i, p, t)
        case Up(i, p, t) => FingerUp(b, cfg, i, p, t);
      if b.thrown {
        LatchBlocksThrows(b, cfg, events);
      } else if next.thrown {
        LatchBlocksThrows(next, cfg, events[1..]);
      } else {
        AtMostOneThrow(next, cfg, events[1..]);
      }
    }
  }

  /** One frame of the SmoothReset coroutine: while the elapsed time is below the
      duration the ball is placed on the segment from start to target and the
      frame time is added; after that the latch is cleared and the ball is put
      exactly on the target. */
  function ResetFrame(b: Ball, dt: real): (r: Ball)
    ensures b.smoothReset.NotRunning? ==> r == b
    ensures b.smoothReset.Running? && b.smoothReset.elapsed < ResetDuration ==>
              && Between(b.smoothReset.start, r.position, b.smoothReset.target)
              && r.smoothReset == b.smoothReset.(elapsed := b.smoothReset.elapsed + dt)
              && r.thrown == b.thrown
    ensures b.smoothReset.Running? && ResetDuration <= b.smoothReset.elapsed ==>
              r.position == b.smoothReset.target && !r.thrown && r.smoothReset.NotRunning?
    ensures r.isKinematic == b.isKinematic && r.forces == b.forces && r.parent == b.parent
  {
    match b.smoothReset
    case NotRunning => b
    case Running(start, target, elapsed) =>
      if elapsed < ResetDuration then
        b.(position := Lerp(start, target, elapsed / ResetDuration),
           smoothReset := Running(start, target, elapsed + dt))
      else
        b.(thrown := false, position := target, smoothReset := NotRunning)
  }

  /** Reset(): the body becomes kinematic and the coroutine starts from the
      current position toward the anchor; its first frame runs at once. */
  function StartReset(b: Ball, cfg: ThrowConfig, dt: real): (r: Ball)
    ensures r.isKinematic
    ensures r.position == b.position
    ensures r.smoothReset == Running(b.position, cfg.anchor, dt)
    ensures r.thrown == b.thrown && r.forces == b.forces && r.parent == b.parent
  {
    ResetFrame(b.(isKinematic := true, smoothReset := Running(b.position, cfg.anchor, 0.0)), dt)
  }

  /** `n` frames of the coroutine, each `dt` long. */
  function ResetFrames(b: Ball, dt: real, n: nat): Ball
    decreases n
  {
    if n == 0 then b else ResetFrames(ResetFrame(b, dt), dt, n - 1)
  }

  /** With a positive frame time the reset always completes: after enough frames
      the ball sits exactly on the target and the latch is open again. */
  lemma {:induction false} ResetCompletes(b: Ball, dt: real, n: nat)
    requires b.smoothReset.Running? && 0.0 < dt
    requires 1 <= n && ResetDuration - b.smoothReset.elapsed <= (n - 1) as real * dt
    ensures ResetFrames(b, dt, n).position == b.smoothReset.target
    ensures !ResetFrames(b, dt, n).thrown
    ensures ResetFrames(b, dt, n).smoothReset.NotRunning?
    ensures ResetFrames(b, dt, n).isKinematic == b.isKinematic
    decreases n
  {
    var next := ResetFrame(b, dt);
    if ResetDuration <= b.smoothReset.elapsed {
      ResetFramesIdle(next, dt, n - 1);
    } else {
      assert 2 <= n;
      assert ResetDuration - next.smoothReset.elapsed <= (n - 2) as real * dt;
      ResetCompletes(next, dt, n - 1);
    }
  }

  /** Frames of a coroutine that is not running change nothing. */
  lemma {:induction false} ResetFramesIdle(b: Ball, dt: real, n: nat)
    requires b.smoothReset.NotRunning?
    ensures ResetFrames(b, dt, n) == b
    decreases n
  {
    if n > 0 {
      ResetFramesIdle(ResetFrame(b, dt), dt, n - 1);
    }
  }

  /** PickUpBall's effect on the ball: kinematic, parented to the hand at local zero. */
  function AttachToHand(b: Ball): Ball {
    b.(isKinematic := true, parent := Hand, localPosition := 0.0)
  }

  /** DeliverBall's effect on the ball: unparented, then reset to the anchor. */
  function ReleaseAndReset(b: Ball, cfg: ThrowConfig, dt: real): Ball {
    StartReset(b.(parent := World), cfg, dt)
  }
}
