/** Unity's scalar helpers (Mathf.Clamp, Vector3.Lerp, Vector3.MoveTowards)
    restated on the one-dimensional line the agent travels along. */
module Numeric {

  function Abs(x: real): (r: real)
    ensures 0.0 <= r && (r == x || r == -x)
  {
    if x < 0.0 then -x else x
  }

  /** Distance between two points of the line (the `magnitude` of their difference). */
  function Dist(a: real, b: real): real {
    Abs(b - a)
  }

  function Max(a: real, b: real): real { if a < b then b else a }

  function Min(a: real, b: real): real { if a < b then a else b }

  /** x lies on the closed segment between a and b, in either orientation. */
  predicate Between(a: real, x: real, b: real) {
    (a <= x <= b) || (b <= x <= a)
  }

  /** Mathf.Clamp: the lower bound is tested first, so with min > max the result is max or min. */
  function Clamp(value: real, min: real, max: real): (r: real)
    ensures min <= max ==> min <= r <= max
    ensures min <= value <= max ==> r == value
  {
    if value < min then min else if value > max then max else value
  }

  /** Vector3.Lerp / Quaternion.Slerp on the line: the parameter is clamped to [0, 1],
      so the result never leaves the segment between the two ends. */
  function Lerp(a: real, b: real, t: real): (r: real)
    ensures Between(a, r, b)
  {
    if t <= 0.0 then a
    else if 1.0 <= t then b
    else
      LerpBetween(a, b, t);
      a + (b - a) * t
  }

  lemma LerpBetween(a: real, b: real, t: real)
    requires 0.0 <= t <= 1.0
    ensures Between(a, a + (b - a) * t, b)
  {
    var k := b - a;
    ScaledBetween(k, t);
    var x := k * t;
    assert Between(0.0, x, k);
    assert a + (b - a) * t == a + x;
  }

  /** A fraction c in [0, 1] of k lies between 0 and k. */
  lemma ScaledBetween(k: real, c: real)
    requires 0.0 <= c <= 1.0
    ensures Between(0.0, k * c, k)
  {
    MulNonNegative(Abs(k), c);
    MulNonNegative(Abs(k), 1.0 - c);
    if k < 0.0 {
      assert k * c == -(Abs(k) * c);
      assert k - k * c == -(Abs(k) * (1.0 - c));
    }
  }

  lemma MulNonNegative(x: real, y: real)
    requires 0.0 <= x && 0.0 <= y
    ensures 0.0 <= x * y
  {
  }

  lemma MulPositive(x: real, y: real)
    requires 0.0 < x && 0.0 < y
    ensures 0.0 < x * y
  {
  }

  /** The tolerance of Unity's vector equality: two vectors compare equal when
      their difference has a squared length below the square of this constant. */
  const VectorEpsilon: real := 0.00001

  /** `v == Vector3.zero` for a displacement along the line: its squared length
      is below the tolerance's square exactly when its length is below the tolerance. */
  predicate NearZero(x: real) {
    Abs(x) < VectorEpsilon
  }

  function Sign(x: real): real {
    if x < 0.0 then -1.0 else if x > 0.0 then 1.0 else 0.0
  }

  /** Vector3.MoveTowards: the target itself when it is already reached or within
      one non-negative step; otherwise a step of `maxDelta` along the direction to
      the target (away from it when `maxDelta` is negative). */
  function MoveTowards(current: real, target: real, maxDelta: real): real {
    var d := target - current;
    if d == 0.0 || (0.0 <= maxDelta && Abs(d) <= maxDelta) then target
    else current + Sign(d) * maxDelta
  }

  /** A non-negative step stays on the segment to the target and closes exactly
      `maxDelta` of the distance or reaches the target; no step moves farther than |maxDelta|. */
  lemma MoveTowardsApproaches(current: real, target: real, maxDelta: real)
    ensures 0.0 <= maxDelta ==> Between(current, MoveTowards(current, target, maxDelta), target)
    ensures 0.0 <= maxDelta ==>
              Dist(MoveTowards(current, target, maxDelta), target) == Max(Dist(current, target) - maxDelta, 0.0)
    ensures Dist(current, MoveTowards(current, target, maxDelta)) <= Abs(maxDelta)
  {
  }
}
