# Baby-and-Ball fetch game: a Dafny model of its core

The game has three scripts that work together. The player swipes to throw a
ball. When the ball touches the ground, a crawling baby chases it, picks it up,
carries it to a delivery point, drops it there and crawls home again. The
dropped ball glides back to its anchor and can be thrown again. This project
models those three scripts and proves properties of them:

- `BallThrow.cs` lines 1-147. The swipe gesture, the one impulse a swipe
  applies, the "already thrown" latch, the SmoothReset coroutine, and ground
  contact starting the chase.
- `BabyStateManager.cs`. The five-state fetch machine (Idle, Chase, PickBall,
  Deliver, ReturnToIdle), the distance-proportional crawl speed, arrival
  thresholds, and turning toward the direction of travel.
- `BabyAnimationController.cs`. The clip-to-state-hash table and the
  cross-fade that is skipped when the requested clip is already playing.

The project is laid out as follows:

- `numeric.dfy` (module `Numeric`) restates the engine helpers the scripts use:
  `Mathf.Clamp`, `Vector3.Lerp` and `Vector3.MoveTowards`.
- `animation.dfy` (module `Animation`) holds the animation controller. It is a
  class whose `PlayAnimation` appends to a log of cross-fades. That method is
  proved against the pure function `Play`.
- `throw_spec.dfy` (module `ThrowSpec`) models the ball's state as a `Ball`
  value. Finger events, the impulse and the reset frames are functions of that
  value.
- `fetch_spec.dfy` (module `FetchSpec`) defines one `Update` of the agent as
  the function `Tick`. It returns the new agent state and the calls made on
  other objects: clip requests, attaching the ball to the hand, and releasing
  and resetting the ball.
- `script.dfy` (module `Script`) holds the two MonoBehaviours as classes,
  `BallThrow` and `BabyStateManager`. Their fields are updated in place. Each
  method is proved to leave exactly the state that the `ThrowSpec` or
  `FetchSpec` function gives. The two classes share a module because each one
  calls the other.

Modelling decisions:

- **Positions** are points on the line the agent travels along. A distance
  (`magnitude`) is therefore an absolute difference.
- **Rotation.** The agent's rotation is reduced to a heading in [-1, 1]. It is
  moved toward the facing of the travel direction by the same clamped fraction
  `rotationSpeed * deltaTime` that `Quaternion.Slerp` receives.
- **Screen positions** of the swipe stay two-dimensional.
- **Frame time.** `Time.deltaTime` and `Time.time` become parameters.
- **The coroutine.** The SmoothReset coroutine is a resumable task stored in
  the ball (`Coroutine`) and advanced one frame at a time by
  `SmoothResetFrame`. `Reset` runs its first frame at once, as `StartCoroutine`
  does.
- **Singletons.** The static `instance` references become explicit object
  references: `BabyStateManager.ball`, and the `agent` argument of
  `OnCollisionEnter`.
- **Vector equality.** Unity's `==` on vectors is approximate: a vector equals
  zero when its squared length is below the square of 1e-5
  (`VectorEpsilon`). The swipe test compares `x*x + y*y` with that square
  (`Vec2.NearZero`). On the line, the squared length of a direction is below
  it exactly when the direction's absolute value is below 1e-5
  (`Numeric.NearZero`).
- **Division by a zero interval.** The depth impulse divides by the raw swipe
  interval. When that interval is zero, the result is the marker `NonFinite`
  and not a number.

## Model

| member | source | states |
|---|---|---|
| `Numeric.Clamp` | Assets/Script/BabyStateManager.cs:171 | with min <= max the result lies in [min, max]; a value already inside is returned unchanged |
| `Numeric.Lerp` | Assets/Script/BallThrow.cs:88 | the interpolation parameter is clamped, so the result never leaves the segment between the two ends |
| `Numeric.MoveTowardsApproaches` | Assets/Script/BabyStateManager.cs:173 | a non-negative step stays on the segment to the target, closes exactly the step or reaches the target, and never moves farther than the step |
| `Animation.HashTableComplete` | Assets/Script/BabyAnimationController.cs:21-27 | every clip has a hash entry and no two clips share one, so the not-found branch of PlayAnimation is never taken |
| `Animation.Play` | Assets/Script/BabyAnimationController.cs:50-68 | a cross-fade is issued if and only if the clip differs from the remembered one and has a hash; then exactly one cross-fade to that hash with the configured duration is issued and the clip is remembered |
| `Animation.PlaySwitchesClip` | Assets/Script/BabyAnimationController.cs:53-67 | with the table as declared, any request leaves its clip remembered, and a cross-fade is issued exactly when the clip changes |
| `Animation.PlayAllAppend` | Assets/Script/BabyAnimationController.cs:50-68 | requests played in two runs give the same remembered clip and cross-fade log as the concatenated run |
| `Animation.PlayAllEndsOnLastRequest` | Assets/Script/BabyAnimationController.cs:50-68 | after a run of requests the controller remembers the last one and has issued at most one cross-fade per request |
| `Animation.RepeatedRequestFadesAtMostOnce` | Assets/Script/BabyAnimationController.cs:45-56 | requesting the same clip any number of times in a row issues at most one cross-fade, and none when the clip was already playing |
| `Animation.BabyAnimationController.constructor` | Assets/Script/BabyAnimationController.cs:29 | the controller starts on CrawlToSit with an empty cross-fade log |
| `Animation.BabyAnimationController.PlayAnimation` | Assets/Script/BabyAnimationController.cs:50-68 | the remembered clip becomes the request, the log grows by exactly Play's cross-fades, and a repeated request leaves the log unchanged |
| `Animation.BabyAnimationController.PlayCrawl` | Assets/Script/BabyAnimationController.cs:31-34 | requests Crawl |
| `Animation.BabyAnimationController.PlayPickBall` | Assets/Script/BabyAnimationController.cs:36-39 | requests PickBall |
| `Animation.BabyAnimationController.PlaySit` | Assets/Script/BabyAnimationController.cs:41-44 | requests SitToCrawl, not CrawlToSit |
| `ThrowSpec.FingerDown` | Assets/Script/BallThrow.cs:101-109 | only finger 0 records a start position and time; the latch, the body and the forces are untouched |
| `ThrowSpec.ThrowForce` | Assets/Script/BallThrow.cs:136-138 | the lateral force opposes the swipe displacement on each axis; the depth force is non-finite exactly when the interval is zero and positive for a positive interval |
| `ThrowSpec.DepthForceDecreasesWithInterval` | Assets/Script/BallThrow.cs:138 | a slower swipe (longer interval) gives a strictly smaller depth force |
| `ThrowSpec.NearZeroBounds` | Assets/Script/BallThrow.cs:126 | the zero vector compares equal to zero, and so does every displacement under half the 1e-5 tolerance on both axes; a displacement of at least the tolerance on either axis does not |
| `ThrowSpec.SubToleranceSwipeIgnored` | Assets/Script/BallThrow.cs:120-127 | a swipe of 0.000001 from the origin is recorded as the gesture's end but applies no force and leaves the latch open |
| `ThrowSpec.SwipeSpeed` | Assets/Script/BallThrow.cs:130 | the diagnostic swipe speed lies in [0, 500] |
| `ThrowSpec.FingerUp` | Assets/Script/BallThrow.cs:111-140 | other fingers and a set latch change nothing; a release (finger 0, latch open, a displacement whose squared length is at least the square of the 1e-5 vector tolerance) appends exactly the ThrowForce of the displacement and interval, makes the body dynamic and sets the latch; otherwise no force is applied and the latch and body are unchanged; the start of the gesture, the transform and the coroutine are never touched |
| `ThrowSpec.LatchBlocksThrows` | Assets/Script/BallThrow.cs:117-118 | once the latch is set, no sequence of finger events applies a force, clears the latch or changes the body |
| `ThrowSpec.AtMostOneThrow` | Assets/Script/BallThrow.cs:111-140 | between resets any sequence of finger events applies at most one force, after the earlier ones, and none while latched |
| `ThrowSpec.ResetFrame` | Assets/Script/BallThrow.cs:79-98 | while the elapsed time is below one second the ball lies on the segment from start to anchor and the frame time is added; afterwards the ball is exactly on the anchor, the latch is open and the coroutine has ended; the body and forces are untouched |
| `ThrowSpec.StartReset` | Assets/Script/BallThrow.cs:65-69 | the body becomes kinematic, the ball stays where it is for the first frame, and the coroutine runs from there toward the anchor with one frame elapsed |
| `ThrowSpec.ResetCompletes` | Assets/Script/BallThrow.cs:86-97 | with a positive frame time the reset ends within the stated number of frames, leaving the ball on its target with the latch open |
| `ThrowSpec.ResetFramesIdle` | Assets/Script/BallThrow.cs:79-98 | frames of a coroutine that is not running change nothing |
| `FetchSpec.Speed` | Assets/Script/BabyStateManager.cs:171 | the crawl speed lies in [0, maxSpeed] |
| `FetchSpec.SmoothRotate` | Assets/Script/BabyStateManager.cs:182-189 | a direction shorter than the 1e-5 vector tolerance leaves the heading alone; otherwise the heading moves toward the facing of the direction without overshooting it |
| `FetchSpec.MoveBabyTowards` | Assets/Script/BabyStateManager.cs:167-176 | arrival is decided on the distance before the step (within the threshold), and the heading turns toward the target |
| `FetchSpec.MoveBabyTowardsApproaches` | Assets/Script/BabyStateManager.cs:169-173 | the step stays between the agent and the target, closes exactly speed times frame time or reaches the target, and never exceeds maxSpeed times frame time |
| `FetchSpec.Tick` | Assets/Script/BabyStateManager.cs:59-86 | Idle neither moves nor changes state; PickBall does nothing; a tick keeps the state or advances it by one step of the cycle, and never enters PickBall |
| `FetchSpec.TickMoves` | Assets/Script/BabyStateManager.cs:103-158 | every moving state takes the same step toward its own target (ball, delivery point, home) with its own range (catchRange, 1, 2), and hands over exactly on arrival |
| `FetchSpec.TickHandOver` | Assets/Script/BabyStateManager.cs:103-158 | a moving state hands over if and only if it started the tick within range; every moving tick first requests Crawl; attaching the ball, PickBall, releasing the ball and CrawlToSit each happen if and only if their own transition happens |
| `FetchSpec.TickEffects` | Assets/Script/BabyStateManager.cs:103-158 | the clips a moving tick requests, in order, and its exact effect on the ball: attached to the hand after a chase when there is a hand, released and reset after a delivery, untouched otherwise |
| `FetchSpec.Activate` | Assets/Script/BabyStateManager.cs:91-98 | only an idle agent starts a chase, requesting Crawl; any other state is left alone |
| `FetchSpec.ActivateTwiceIsOnce` | Assets/Script/BabyStateManager.cs:93-94 | a second ground contact during a fetch changes nothing |
| `FetchSpec.ApproachProgress` | Assets/Script/BabyStateManager.cs:169-173 | outside the threshold each tick closes at least the ramped speed at the threshold times the frame time, which is never negative while the cap is not negative |
| `FetchSpec.PhaseEnds` | Assets/Script/BabyStateManager.cs:103-158 | a moving state hands over within n + 1 ticks when n times the progress floor covers the distance beyond the threshold |
| `FetchSpec.PhaseWithin` | Assets/Script/BabyStateManager.cs:103-158 | with positive settings and frame time, every moving state hands over to the next after finitely many ticks |
| `FetchSpec.FullCycle` | Assets/Script/BabyStateManager.cs:59-158 | with positive settings and frame time, a chase after a resting ball always ends with the agent idle again |
| `FetchSpec.DefaultSettingsCompleteCycle` | Assets/Script/BabyStateManager.cs:24-32 | with the inspector defaults (catch range 1, acceleration 1, maximum speed 5, rotation speed 5) and any positive frame time, a chase ends with the agent idle again |
| `Script.BallThrow.constructor` | Assets/Script/BallThrow.cs:11-19 | a ball at rest with no gesture, force or latch, and the configured force scales and anchor |
| `Script.BallThrow.OnFingerDown` | Assets/Script/BallThrow.cs:101-109 | updates the ball's fields exactly as FingerDown |
| `Script.BallThrow.OnFingerUp` | Assets/Script/BallThrow.cs:111-140 | updates the ball's fields exactly as FingerUp |
| `Script.BallThrow.Reset` | Assets/Script/BallThrow.cs:65-69 | updates the ball exactly as StartReset |
| `Script.BallThrow.SmoothResetFrame` | Assets/Script/BallThrow.cs:79-98 | advances the coroutine exactly as ResetFrame |
| `Script.BallThrow.OnCollisionEnter` | Assets/Script/BallThrow.cs:142-145 | ground contact activates the agent as Activate says; any other contact leaves the agent and its animation controller unchanged |
| `Script.BabyStateManager.constructor` | Assets/Script/BabyStateManager.cs:52-57 | the agent starts idle at its home position |
| `Script.BabyStateManager.Update` | Assets/Script/BabyStateManager.cs:59-86 | the agent ends in Tick's agent state, the controller has played Tick's clip requests in order, and the ball has undergone Tick's hand-overs |
| `Script.BabyStateManager.ActivateBallChase` | Assets/Script/BabyStateManager.cs:91-98 | the agent and controller change exactly as Activate says |
| `Script.BabyStateManager.ChaseBall` | Assets/Script/BabyStateManager.cs:103-110 | the Chase tick: Crawl, a step toward the ball, and on arrival PickUpBall |
| `Script.BabyStateManager.PickUpBall` | Assets/Script/BabyStateManager.cs:116-128 | requests PickBall, attaches the ball to the hand when there is one, and enters Deliver |
| `Script.BabyStateManager.DeliverBall` | Assets/Script/BabyStateManager.cs:134-145 | the Deliver tick: Crawl, a step toward the delivery point, and on arrival the ball is released and reset |
| `Script.BabyStateManager.ReturnHome` | Assets/Script/BabyStateManager.cs:151-158 | the ReturnToIdle tick: Crawl, a step toward home, and on arrival CrawlToSit and Idle |
| `Script.BabyStateManager.MoveBabyTowards` | Assets/Script/BabyStateManager.cs:167-176 | position, heading and the arrival result are exactly those of FetchSpec.MoveBabyTowards |
| `Script.BabyStateManager.SmoothRotate` | Assets/Script/BabyStateManager.cs:182-189 | the heading becomes FetchSpec.SmoothRotate of the old heading |

## Left out

- Three dimensions: positions are points on the agent's line of travel, so `magnitude` is an absolute difference and no square root is taken.
- Quaternion rotation: `Quaternion.LookRotation` and `Slerp` are reduced to a heading in [-1, 1] that is interpolated toward the sign of the direction.
- Physics: what the engine does with the force from `AddForce` is not modelled. The ball's position changes only through the reset coroutine. Where the ball lands after a throw is a free input, namely its `position` field.
- Physics time steps: `Time.deltaTime` and `Time.time` are parameters, and floating-point rounding is not modelled.
- A ball parented to the hand: its world position is not carried along with the agent. The reset that follows a delivery therefore starts from the ball's last recorded position.
- Overlapping resets: a `Reset` while an earlier SmoothReset is still running replaces that coroutine. In the engine both would keep running.
- `ResetScene` (scene reload), `OnEnable`/`OnDisable` (touch subscription), `Start`'s `GetComponent` and the singleton `Awake` logic are not modelled. They are engine plumbing with no state of their own.
- `Debug.Log` output is not modelled. `OnFingerUp` does not compute the swipe speed, because the value is only logged and needs a vector magnitude; `ThrowSpec.SwipeSpeed` states its formula separately.
- Null references: the scene references (`ballSubmitLocation`, `babyAnimationController`, the ball, the animator) are assumed to be set. The hand may be absent (`hasHand`). The Idle case's null check on the delivery point and DeliverBall's check on the ball are therefore always true.
- `default: throw new ArgumentOutOfRangeException()` in `Update` cannot be reached over the closed state type.
- `FetchSpec.FullCycle`, `FetchSpec.PhaseEnds` and `FetchSpec.PhaseWithin` assume the ball and the delivery point stay where they are during the cycle, and that every frame of the cycle has the same `Time.deltaTime`; `FetchSpec.Run` repeats `Tick` with one frame time.
- `Script.BabyStateManager.ChaseBall`, `DeliverBall` and `ReturnHome` require the state that `Update` calls them in. They are private and have no other caller.
- BabyLookAtController.cs, ThrowObject.cs, SimpleRoom.cs and the commented-out code after line 147 of BallThrow.cs are not part of this model.
