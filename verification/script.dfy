/** The two scene components that call each other: the ball (BallThrow), whose
    ground contact starts the chase, and the agent (BabyStateManager), whose
    delivery resets the ball. Each method is proved against the functions of
    ThrowSpec and FetchSpec. */
module Script {
  import opened Numeric
  import Animation
  import opened ThrowSpec
  import opened FetchSpec

  /** The ball: its swipe handling, its rigidbody and transform, and its reset coroutine. */
  class BallThrow {
    var startPos: Vec2
    var endPos: Vec2
    var direction: Vec2
    var touchTimeStart: real
    var touchTimeFinish: real
    var timeInterval: real
    const throwForceInXandY: real
    const throwForceInZ: real
    /** The latch: set by a throw, cleared when the reset coroutine finishes. */
    var ballThrown: bool
    /** The reset target, `ballPosition.position`. */
    const anchor: real
    // Rigidbody
    var isKinematic: bool
    var forces: seq<Force>
    // Transform
    var parent: Parent
    var localPosition: real
    var position: real
    /** The SmoothReset coroutine, advanced once per frame. */
    var smoothReset: Coroutine

    function State(): Ball
      reads this
    {
      Ball(startPos, endPos, direction, touchTimeStart, touchTimeFinish, timeInterval,
           ballThrown, isKinematic, forces, parent, localPosition, position, smoothReset)
    }

    function Settings(): ThrowConfig {
      ThrowConfig(throwForceInXandY, throwForceInZ, anchor)
    }

    /** A ball at rest at `position`, with no gesture recorded and no force applied. */
    constructor (forceXY: real, forceZ: real, anchor: real, position: real, isKinematic: bool)
      ensures Settings() == ThrowConfig(forceXY, forceZ, anchor)
      ensures State() == Ball(Zero2, Zero2, Zero2, 0.0, 0.0, 0.0, false, isKinematic, [],
                              World, position, position, NotRunning)
    {
      startPos, endPos, direction := Zero2, Zero2, Zero2;
      touchTimeStart, touchTimeFinish, timeInterval := 0.0, 0.0, 0.0;
      throwForceInXandY, throwForceInZ := forceXY, forceZ;
      ballThrown := false;
      this.anchor := anchor;
      this.isKinematic := isKinematic;
      forces := [];
      parent, localPosition, this.position := World, position, position;
      smoothReset := NotRunning;
    }

    method OnFingerDown(index: int, screenPosition: Vec2, time: real)
      modifies this`touchTimeStart, this`startPos
      ensures State() == FingerDown(old(State()), index, screenPosition, time)
    {
      if index != 0 {
        return;
      }
      touchTimeStart := time;
      startPos := screenPosition;
    }

    method OnFingerUp(index: int, screenPosition: Vec2, time: real)
      modifies this
      ensures State() == FingerUp(old(State()), Settings(), index, screenPosition, time)
    {
      if index != 0 {
        return;
      }
      if ballThrown {
        return;
      }
      touchTimeFinish := time;
      timeInterval := touchTimeFinish - touchTimeStart;
      endPos := screenPosition;
      direction := startPos.Minus(endPos);
      if direction.NearZero() {
        return;
      }
      // The swipe speed (ThrowSpec.SwipeSpeed) is only logged.
      isKinematic := false;
      var depth := if timeInterval == 0.0 then NonFinite else Finite(throwForceInZ / timeInterval);
      var force := Force(-direction.x * throwForceInXandY, -direction.y * throwForceInXandY, depth);
      assert force == ThrowForce(direction, timeInterval, Settings());
      forces := forces + [force];
      ballThrown := true;
    }

    /** Makes the body kinematic and starts SmoothReset, whose first frame runs at once. */
    method Reset(dt: real)
      modifies this
      ensures State() == StartReset(old(State()), Settings(), dt)
    {
      isKinematic := true;
      smoothReset := Running(position, anchor, 0.0);
      SmoothResetFrame(dt);
    }

    /** One frame of the SmoothReset coroutine (a no-op when it is not running). */
    method SmoothResetFrame(dt: real)
      modifies this
      ensures State() == ResetFrame(old(State()), dt)
    {
      match smoothReset
      case NotRunning =>
      case Running(start, target, elapsed) =>
        if elapsed < ResetDuration {
          position := Lerp(start, target, elapsed / ResetDuration);
          smoothReset := Running(start, target, elapsed + dt);
        } else {
          ballThrown := false;
          position := target;
          smoothReset := NotRunning;
        }
    }

    /** Contact with a "Ground"-tagged object asks the agent to chase the ball. */
    method OnCollisionEnter(tag: string, agent: BabyStateManager)
      modifies agent`currentState, agent.anim`currentAnimation, agent.anim`crossFades
      ensures tag == "Ground" ==>
                var t := Activate(old(agent.AgentState()));
                && agent.AgentState() == t.agent
                && agent.AnimationsPlayed(old(agent.anim.currentAnimation), old(agent.anim.crossFades), t.effects)
      ensures tag != "Ground" ==> unchanged(agent, agent.anim)
    {
      if tag == "Ground" {
        agent.ActivateBallChase();
      }
    }
  }

  /** The agent: its state, transform and settings, and the ball and animation
      controller it drives. */
  class BabyStateManager {
    var currentState: BabyState
    var position: real
    var heading: real
    /** Captured once, when the component starts. */
    const originalPosition: real
    /** Inspector settings, never written by the component. */
    const catchRange: real
    const acceleration: real
    const maxSpeed: real
    const rotationSpeed: real
    /** `ballSubmitLocation.position`, which nothing in the core moves. */
    const submitPosition: real
    const hasHand: bool
    const ball: BallThrow
    const anim: Animation.BabyAnimationController

    function Settings(): Config {
      Config(catchRange, acceleration, maxSpeed, rotationSpeed)
    }

    function AgentState(): Agent
      reads this
    {
      Agent(currentState, position, heading)
    }

    function View(): Scene
      reads this, ball
    {
      Scene(ball.position, submitPosition, originalPosition, hasHand)
    }

    /** Awake and Start: idle, at home where it stands. */
    constructor (ball: BallThrow, anim: Animation.BabyAnimationController, position: real, heading: real,
                 submitPosition: real, hasHand: bool, cfg: Config)
      ensures AgentState() == Agent(Idle, position, heading)
      ensures originalPosition == position && this.submitPosition == submitPosition && Settings() == cfg
      ensures this.ball == ball && this.anim == anim && this.hasHand == hasHand
    {
      this.ball, this.anim := ball, anim;
      this.position, this.heading := position, heading;
      originalPosition := position;
      currentState := Idle;
      this.submitPosition, this.hasHand := submitPosition, hasHand;
      catchRange, acceleration, maxSpeed, rotationSpeed := cfg.catchRange, cfg.acceleration, cfg.maxSpeed, cfg.rotationSpeed;
    }

    /** The effect of a tick's or a trigger's animation requests on the controller. */
    ghost predicate AnimationsPlayed(oldCurrent: Animation.BabyAnimation, oldFades: seq<Animation.CrossFade>, effects: seq<Effect>)
      reads anim
    {
      var r := Animation.PlayAll(oldCurrent, Plays(effects), anim.crossFadeDuration);
      anim.currentAnimation == r.current && anim.crossFades == oldFades + r.fades
    }

    method Update(dt: real)
      modifies this`currentState, this`position, this`heading, ball, anim`currentAnimation, anim`crossFades
      ensures var t := Tick(Settings(), old(View()), old(AgentState()), dt);
              && AgentState() == t.agent
              && AnimationsPlayed(old(anim.currentAnimation), old(anim.crossFades), t.effects)
              && ball.State() == BallAfter(old(ball.State()), t.effects, ball.Settings(), dt)
    {
      match currentState
      case Idle =>
        SmoothRotate(submitPosition - position, dt);
      case Chase =>
        ChaseBall(dt);
      case PickBall =>
        // handled at once by PickUpBall
      case Deliver =>
        DeliverBall(dt);
      case ReturnToIdle =>
        ReturnHome(dt);
    }

    method ActivateBallChase()
      modifies this`currentState, anim`currentAnimation, anim`crossFades
      ensures var t := Activate(old(AgentState()));
              AgentState() == t.agent && AnimationsPlayed(old(anim.currentAnimation), old(anim.crossFades), t.effects)
    {
      if currentState != Idle {
        return;
      }
      currentState := Chase;
      anim.PlayAnimation(Animation.Crawl);
    }

    /** Called by Update in the Chase state. */
    method ChaseBall(dt: real)
      requires currentState == Chase
      modifies this`currentState, this`position, this`heading, ball, anim`currentAnimation, anim`crossFades
      ensures var t := Tick(Settings(), old(View()), old(AgentState()), dt);
              && AgentState() == t.agent
              && AnimationsPlayed(old(anim.currentAnimation), old(anim.crossFades), t.effects)
              && ball.State() == BallAfter(old(ball.State()), t.effects, ball.Settings(), dt)
    {
      TickEffects(Settings(), View(), AgentState(), dt, ball.State(), ball.Settings());
      TickMoves(Settings(), View(), AgentState(), dt);
      ghost var c0 := anim.currentAnimation;
      anim.PlayAnimation(Animation.Crawl);
      ghost var c1 := anim.currentAnimation;
      Animation.PlayAllSingle(c0, Animation.Crawl, anim.crossFadeDuration);
      var arrived := MoveBabyTowards(ball.position, catchRange, dt);
      if !arrived {
        return;
      }
      currentState := PickBall;
      PickUpBall();
      Animation.PlayAllSingle(c1, Animation.PickBall, anim.crossFadeDuration);
      Animation.PlayAllAppend(c0, [Animation.Crawl], [Animation.PickBall], anim.crossFadeDuration);
    }

    method PickUpBall()
      modifies this`currentState, ball, anim`currentAnimation, anim`crossFades
      ensures currentState == Deliver
      ensures anim.currentAnimation == Animation.PickBall
      ensures anim.crossFades == old(anim.crossFades)
                                 + Animation.Play(old(anim.currentAnimation), Animation.PickBall, anim.crossFadeDuration).fades
      ensures ball.State() == if hasHand then AttachToHand(old(ball.State())) else old(ball.State())
    {
      anim.PlayAnimation(Animation.PickBall);
      if hasHand {
        ball.isKinematic := true;
        ball.parent := Hand;
        ball.localPosition := 0.0;
      }
      currentState := Deliver;
    }

    /** Called by Update in the Deliver state. */
    method DeliverBall(dt: real)
      requires currentState == Deliver
      modifies this`currentState, this`position, this`heading, ball, anim`currentAnimation, anim`crossFades
      ensures var t := Tick(Settings(), old(View()), old(AgentState()), dt);
              && AgentState() == t.agent
              && AnimationsPlayed(old(anim.currentAnimation), old(anim.crossFades), t.effects)
              && ball.State() == BallAfter(old(ball.State()), t.effects, ball.Settings(), dt)
    {
      TickEffects(Settings(), View(), AgentState(), dt, ball.State(), ball.Settings());
      TickMoves(Settings(), View(), AgentState(), dt);
      ghost var c0 := anim.currentAnimation;
      anim.PlayAnimation(Animation.Crawl);
      Animation.PlayAllSingle(c0, Animation.Crawl, anim.crossFadeDuration);
      var arrived := MoveBabyTowards(submitPosition, DeliverRange, dt);
      if !arrived {
        return;
      }
      ball.parent := World;
      ball.Reset(dt);
      currentState := ReturnToIdle;
    }

    /** Called by Update in the ReturnToIdle state. */
    method ReturnHome(dt: real)
      requires currentState == ReturnToIdle
      modifies this`currentState, this`position, this`heading, ball, anim`currentAnimation, anim`crossFades
      ensures var t := Tick(Settings(), old(View()), old(AgentState()), dt);
              && AgentState() == t.agent
              && AnimationsPlayed(old(anim.currentAnimation), old(anim.crossFades), t.effects)
              && ball.State() == BallAfter(old(ball.State()), t.effects, ball.Settings(), dt)
    {
      TickEffects(Settings(), View(), AgentState(), dt, ball.State(), ball.Settings());
      TickMoves(Settings(), View(), AgentState(), dt);
      ghost var c0 := anim.currentAnimation;
      anim.PlayAnimation(Animation.Crawl);
      ghost var c1 := anim.currentAnimation;
      Animation.PlayAllSingle(c0, Animation.Crawl, anim.crossFadeDuration);
      var arrived := MoveBabyTowards(originalPosition, ReturnRange, dt);
      if !arrived {
        return;
      }
      anim.PlayAnimation(Animation.CrawlToSit);
      currentState := Idle;
      Animation.PlayAllSingle(c1, Animation.CrawlToSit, anim.crossFadeDuration);
      Animation.PlayAllAppend(c0, [Animation.Crawl], [Animation.CrawlToSit], anim.crossFadeDuration);
    }

    method MoveBabyTowards(target: real, threshold: real, dt: real) returns (arrived: bool)
      modifies this`position, this`heading
      ensures var m := FetchSpec.MoveBabyTowards(Settings(), old(position), old(heading), target, threshold, dt);
              position == m.position && heading == m.heading && arrived == m.arrived
    {
      ghost var cfg, p0, h0 := Settings(), position, heading;
      var direction := target - position;
      var distance := Abs(direction);
      var speed := Speed(Settings(), distance);
      var next := MoveTowards(position, target, speed * dt);
      FetchSpec.MoveBabyTowardsPosition(cfg, p0, h0, target, threshold, dt, speed, next);
      position := next;
      SmoothRotate(direction, dt);
      arrived := distance <= threshold;
    }

    method SmoothRotate(direction: real, dt: real)
      modifies this`heading
      ensures heading == FetchSpec.SmoothRotate(old(heading), direction, Settings(), dt)
    {
      if NearZero(direction) {
        return;
      }
      heading := Lerp(heading, Sign(direction), rotationSpeed * dt);
    }
  }
}
