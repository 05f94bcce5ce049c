/** BabyAnimationController: remembers the last requested clip and cross-fades
    only when a different clip is requested. */
module Animation {

  datatype BabyAnimation = Crawl | CrawlToSit | PickBall | SitToCrawl

  /** Animator.StringToHash(name): an engine handle, modelled as the state name it hashes. */
  datatype StateHash = StateHash(name: string)

  /** One Animator.CrossFade(hash, duration) call issued to the engine. */
  datatype CrossFade = CrossFade(stateHash: StateHash, duration: real)

  /** The precomputed table from clip to state hash. */
  const AnimationHashes: map<BabyAnimation, StateHash> :=
    map[Crawl := StateHash("Crawl"),
        CrawlToSit := StateHash("CrawlToSit"),
        PickBall := StateHash("PickBall"),
        SitToCrawl := StateHash("SitToCrawl")]

  /** The clip the controller starts with. */
  const InitialAnimation: BabyAnimation := CrawlToSit

  /** The table has an entry for every clip and no two clips share a hash, so the
      lookup in PlayAnimation always succeeds and each clip reaches its own state. */
  lemma HashTableComplete()
    ensures forall a: BabyAnimation :: a in AnimationHashes
    ensures forall a: BabyAnimation, b: BabyAnimation
      :: a != b ==> AnimationHashes[a] != AnimationHashes[b]
  {
    forall a: BabyAnimation ensures a in AnimationHashes {
      match a
      case Crawl =>
      case CrawlToSit =>
      case PickBall =>
      case SitToCrawl =>
    }
  }

  /** What a run of PlayAnimation calls leaves behind: the remembered clip and the
      cross-fades issued, in order. */
  datatype PlayResult = PlayResult(current: BabyAnimation, fades: seq<CrossFade>)

  /** One PlayAnimation(animation) call on a controller remembering `current`:
      nothing happens for the remembered clip or for a clip missing from the
      table; otherwise the clip is remembered and exactly one cross-fade to its
      hash is issued. */
  function Play(current: BabyAnimation, animation: BabyAnimation, duration: real): (r: PlayResult)
    ensures r.fades == [] <==> (current == animation || animation !in AnimationHashes)
    ensures r.fades == [] ==> r.current == current
    ensures r.fades != [] ==>
              r.current == animation && r.fades == [CrossFade(AnimationHashes[animation], duration)]
  {
    if current == animation then PlayResult(current, [])
    else if animation !in AnimationHashes then PlayResult(current, [])  // logged as an error
    else PlayResult(animation, [CrossFade(AnimationHashes[animation], duration)])
  }

  /** With the table complete, a request always leaves its clip remembered, and a
      cross-fade is issued exactly when that clip differs from the remembered one. */
  lemma PlaySwitchesClip(current: BabyAnimation, animation: BabyAnimation, duration: real)
    ensures Play(current, animation, duration).current == animation
    ensures Play(current, animation, duration).fades
         == (if current == animation then [] else [CrossFade(AnimationHashes[animation], duration)])
  {
    HashTableComplete();
  }

  /** A sequence of PlayAnimation calls, first request first. */
  function PlayAll(current: BabyAnimation, requests: seq<BabyAnimation>, duration: real): (r: PlayResult)
    decreases |requests|
  {
    if requests == [] then PlayResult(current, [])
    else
      var first := Play(current, requests[0], duration);
      var rest := PlayAll(first.current, requests[1..], duration);
      PlayResult(rest.current, first.fades + rest.fades)
  }

  /** Playing two runs of requests one after the other is playing their concatenation. */
  lemma {:induction false} PlayAllAppend(current: BabyAnimation, first: seq<BabyAnimation>, second: seq<BabyAnimation>, duration: real)
    ensures var p := PlayAll(current, first, duration);
            var q := PlayAll(p.current, second, duration);
            PlayAll(current, first + second, duration) == PlayResult(q.current, p.fades + q.fades)
    decreases |first|
  {
    if first == [] {
      assert first + second == second;
    } else {
      var head := Play(current, first[0], duration);
      assert (first + second)[1..] == first[1..] + second;
      PlayAllAppend(head.current, first[1..], second, duration);
    }
  }

  /** A single request through PlayAll is one Play. */
  lemma PlayAllSingle(current: BabyAnimation, a: BabyAnimation, duration: real)
    ensures PlayAll(current, [a], duration) == Play(current, a, duration)
  {
    assert [a][1..] == [];
  }

  /** `n` copies of the same request. */
  function Repeat(a: BabyAnimation, n: nat): (s: seq<BabyAnimation>)
    ensures |s| == n
    ensures forall i :: 0 <= i < n ==> s[i] == a
  {
    if n == 0 then [] else [a] + Repeat(a, n - 1)
  }

  /** The controller ends on the last request, and issues at most one cross-fade per request. */
  lemma {:induction false} PlayAllEndsOnLastRequest(current: BabyAnimation, requests: seq<BabyAnimation>, duration: real)
    ensures requests == [] ==> PlayAll(current, requests, duration) == PlayResult(current, [])
    ensures requests != [] ==> PlayAll(current, requests, duration).current == requests[|requests| - 1]
    ensures |PlayAll(current, requests, duration).fades| <= |requests|
    decreases |requests|
  {
    if requests != [] {
      var first := Play(current, requests[0], duration);
      PlaySwitchesClip(current, requests[0], duration);
      PlayAllEndsOnLastRequest(first.current, requests[1..], duration);
    }
  }

  /** However many times the same clip is requested in a row, at most one
      cross-fade is issued: one if the controller was on another clip, none otherwise. */
  lemma {:induction false} RepeatedRequestFadesAtMostOnce(current: BabyAnimation, a: BabyAnimation, n: nat, duration: real)
    ensures PlayAll(current, Repeat(a, n), duration).current == (if n == 0 then current else a)
    ensures PlayAll(current, Repeat(a, n), duration).fades
         == (if n == 0 || current == a then [] else [CrossFade(AnimationHashes[a], duration)])
    decreases n
  {
    if n > 0 {
      PlaySwitchesClip(current, a, duration);
      var s := Repeat(a, n);
      assert s[1..] == Repeat(a, n - 1);
      RepeatedRequestFadesAtMostOnce(a, a, n - 1, duration);
    }
  }

  /** The controller as the engine sees it: the remembered clip and the log of
      cross-fades issued to the Animator. */
  class BabyAnimationController {
    var currentAnimation: BabyAnimation
    var crossFadeDuration: real
    var crossFades: seq<CrossFade>

    constructor (duration: real)
      ensures currentAnimation == InitialAnimation && crossFadeDuration == duration && crossFades == []
    {
      currentAnimation := InitialAnimation;
      crossFadeDuration := duration;
      crossFades := [];
    }

    /** Cross-fades to `animation` unless it is already the remembered clip. */
    method PlayAnimation(animation: BabyAnimation)
      modifies this`currentAnimation, this`crossFades
      ensures currentAnimation == animation
      ensures crossFades == old(crossFades) + Play(old(currentAnimation), animation, crossFadeDuration).fades
      ensures old(currentAnimation) == animation ==> crossFades == old(crossFades)
    {
      if currentAnimation == animation {
        return;
      }
      if animation !in AnimationHashes {
        return;
      }
      var hash := AnimationHashes[animation];
      currentAnimation := animation;
      crossFades := crossFades + [CrossFade(hash, crossFadeDuration)];
    }

    method PlayCrawl()
      modifies this`currentAnimation, this`crossFades
      ensures currentAnimation == Crawl
      ensures crossFades == old(crossFades) + Play(old(currentAnimation), Crawl, crossFadeDuration).fades
    {
      PlayAnimation(Crawl);
    }

    method PlayPickBall()
      modifies this`currentAnimation, this`crossFades
      ensures currentAnimation == PickBall
      ensures crossFades == old(crossFades) + Play(old(currentAnimation), PickBall, crossFadeDuration).fades
    {
      PlayAnimation(PickBall);
    }

    /** Despite its name, plays the sit-to-crawl clip. */
    method PlaySit()
      modifies this`currentAnimation, this`crossFades
      ensures currentAnimation == SitToCrawl
      ensures crossFades == old(crossFades) + Play(old(currentAnimation), SitToCrawl, crossFadeDuration).fades
    {
      PlayAnimation(SitToCrawl);
    }
  }
}
