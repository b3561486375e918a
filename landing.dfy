/**
 * The landing section (components/sections/Landing.tsx): a twinkling
 * starfield with sizes, the motion variants, and the two flags that run the
 * explosion intro overlay and its quote.
 */
module Landing {
  import opened Wrappers
  import opened Numeric
  import opened Starfield
  import Scene

  // ---------------------------------------------------------------- starfield

  const StarCount: nat := 1200
  const Cyan: Vec3 := Vec3(0.4, 0.9, 1.0)
  const White: Vec3 := Vec3(1.0, 1.0, 1.0)

  /** Five draws per star: radius, azimuth, polar angle, colour, size. */
  function StarColor(rnd: Random, k: nat): Vec3
  {
    if rnd(5 * k + 3) > 0.92 then Cyan else White
  }

  /** `Math.random() * 0.15 + 0.05`. */
  function StarSize(rnd: Random, k: nat): (s: real)
    ensures 0.05 <= s < 0.2
  {
    assert rnd(5 * k + 4) * 0.15 < 1.0 * 0.15;
    rnd(5 * k + 4) * 0.15 + 0.05
  }

  /** The first n stars of the three buffers hold their point, colour and size. */
  predicate Built(p: seq<real>, c: seq<real>, s: seq<real>, n: nat, rnd: Random, trig: Trig)
  {
    |p| == |c| == 3 * StarCount && |s| == StarCount && n <= StarCount &&
    forall k :: 0 <= k < n ==>
      At(p, k) == Star(rnd, trig, 5, k, 60.0, 40.0) && At(c, k) == StarColor(rnd, k) && s[k] == StarSize(rnd, k)
  }

  lemma BuiltStep(p: seq<real>, c: seq<real>, s: seq<real>, n: nat, rnd: Random, trig: Trig)
    requires Built(p, c, s, n, rnd, trig) && n < StarCount
    ensures Built(Put3(p, n, Star(rnd, trig, 5, n, 60.0, 40.0)), Put3(c, n, StarColor(rnd, n)),
                  s[n := StarSize(rnd, n)], n + 1, rnd, trig)
  {
    var p', c' := Put3(p, n, Star(rnd, trig, 5, n, 60.0, 40.0)), Put3(c, n, StarColor(rnd, n));
    forall k | 0 <= k < n
      ensures At(p', k) == Star(rnd, trig, 5, k, 60.0, 40.0) && At(c', k) == StarColor(rnd, k)
    {
      assert At(p', k) == At(p, k) && At(c', k) == At(c, k);
    }
  }

  /** The loop body for star i: the point, the colour draw and its writes, then the size draw. */
  method WriteStar(positions: array<real>, colors: array<real>, sizes: array<real>, i: nat, rnd: Random, trig: Trig)
    requires positions != colors && sizes != positions && sizes != colors
    requires 3 * i + 2 < positions.Length && 3 * i + 2 < colors.Length && i < sizes.Length
    modifies positions, colors, sizes
    ensures positions[..] == Put3(old(positions[..]), i, Star(rnd, trig, 5, i, 60.0, 40.0))
    ensures colors[..] == Put3(old(colors[..]), i, StarColor(rnd, i))
    ensures sizes[..] == old(sizes[..])[i := StarSize(rnd, i)]
  {
    var point := Place(rnd, trig, 5, i, 60.0, 40.0);
    Put(positions, i, point);
    var isCyan := rnd(5 * i + 3) > 0.92;
    if isCyan {
      Put(colors, i, Cyan);
    } else {
      Put(colors, i, White);
    }
    sizes[i] := rnd(5 * i + 4) * 0.15 + 0.05;
  }

  /**
   * The three buffers of 1200 stars: each star lies in the shell [60, 100),
   * is cyan exactly when its colour draw exceeds 0.92 and white otherwise,
   * and has a size in [0.05, 0.2).
   */
  method FillStarfield(rnd: Random, trig: Trig) returns (positions: array<real>, colors: array<real>, sizes: array<real>)
    ensures positions.Length == 3 * StarCount && colors.Length == 3 * StarCount && sizes.Length == StarCount
    ensures forall k :: 0 <= k < StarCount ==> At(positions[..], k) == Star(rnd, trig, 5, k, 60.0, 40.0)
    ensures forall k :: 0 <= k < StarCount ==> 3600.0 <= NormSq(At(positions[..], k)) < 10000.0
    ensures forall k :: 0 <= k < StarCount ==> (At(colors[..], k) == Cyan <==> rnd(5 * k + 3) > 0.92)
    ensures forall k :: 0 <= k < StarCount ==> At(colors[..], k) == Cyan || At(colors[..], k) == White
    ensures forall k :: 0 <= k < StarCount ==> sizes[k] == StarSize(rnd, k) && 0.05 <= sizes[k] < 0.2
  {
    positions := new real[3 * StarCount];
    colors := new real[3 * StarCount];
    sizes := new real[StarCount];
    var i := 0;
    while i < StarCount
      invariant Built(positions[..], colors[..], sizes[..], i, rnd, trig)
    {
      BuiltStep(positions[..], colors[..], sizes[..], i, rnd, trig);
      WriteStar(positions, colors, sizes, i, rnd, trig);
      i := i + 1;
    }
    forall k | 0 <= k < StarCount
      ensures 3600.0 <= NormSq(At(positions[..], k)) < 10000.0
    {
      StarInShell(rnd, trig, 5, k, 60.0, 40.0);
    }
    assert forall k :: 0 <= k < StarCount ==> sizes[k] == sizes[..][k];
  }

  /** `0.8 + Math.sin(elapsed * 0.5) * 0.1`. */
  function Twinkle(trig: Trig, elapsed: real): (o: real)
    ensures 0.7 <= o <= 0.9
  {
    WaveBounds(trig.sin(elapsed * 0.5), 0.1, 0.8);
    0.8 + trig.sin(elapsed * 0.5) * 0.1
  }

  /** The frame callback, if the ref is attached: spin by delta * 0.02 and delta * 0.005 and set the twinkling opacity. */
  method StarfieldFrame(stars: Scene.Object3D?, trig: Trig, delta: real, elapsed: real)
    modifies stars
    ensures stars != null ==> stars.rotationY == old(stars.rotationY) + delta * 0.02
    ensures stars != null ==> stars.rotationX == old(stars.rotationX) + delta * 0.005
    ensures stars != null ==> stars.opacity == Twinkle(trig, elapsed) && stars.positionY == old(stars.positionY)
    ensures stars != null ==> stars.scaleX == old(stars.scaleX) && stars.scaleY == old(stars.scaleY) && stars.scaleZ == old(stars.scaleZ)
  {
    Scene.Spin(stars, delta, 0.02, 0.005);
    if stars != null {
      stars.opacity := 0.8 + trig.sin(elapsed * 0.5) * 0.1;
    }
  }

  // ---------------------------------------------------------------- variants

  /** A motion pose: opacity and the offsets it sets (an absent offset is not animated). */
  datatype Pose = Pose(opacity: real, x: Option<real>, y: Option<real>)

  datatype Motion = Motion(initial: Pose, animate: Pose)

  datatype Variants = Variants(fadeInUp: Motion, fadeInLeft: Motion, fadeIn: Motion)

  /** `createVariants`. */
  function CreateVariants(shouldReduce: bool): Variants
  {
    Variants(
      Motion(Pose(0.0, None, Some(if shouldReduce then 0.0 else 30.0)), Pose(1.0, None, Some(0.0))),
      Motion(Pose(0.0, Some(if shouldReduce then 0.0 else -30.0), None), Pose(1.0, Some(0.0), None)),
      Motion(Pose(0.0, None, None), Pose(1.0, None, None)))
  }

  /** The three variants of a set. */
  function All(v: Variants): seq<Motion>
  {
    [v.fadeInUp, v.fadeInLeft, v.fadeIn]
  }

  /**
   * Every variant fades in from 0 to 1 and comes to rest at offset 0; with
   * reduced motion nothing moves (the start offsets equal the end offsets),
   * and without it the up variant starts 30 below and the left one 30 to the left.
   */
  lemma VariantsFadeIn(shouldReduce: bool)
    ensures forall m :: m in All(CreateVariants(shouldReduce)) ==>
      m.initial.opacity == 0.0 && m.animate.opacity == 1.0 &&
      (m.animate.x == None || m.animate.x == Some(0.0)) && (m.animate.y == None || m.animate.y == Some(0.0))
    ensures shouldReduce ==> forall m :: m in All(CreateVariants(shouldReduce)) ==>
      m.initial.x == m.animate.x && m.initial.y == m.animate.y
    ensures !shouldReduce ==> CreateVariants(shouldReduce).fadeInUp.initial.y == Some(30.0)
    ensures !shouldReduce ==> CreateVariants(shouldReduce).fadeInLeft.initial.x == Some(-30.0)
  {
  }

  /** `useReducedMotion()` may answer null, which `|| false` turns into false. */
  function ReduceMotion(answer: Option<bool>): (r: bool)
    ensures r <==> answer == Some(true)
  {
    answer.Some? && answer.value
  }

  // ---------------------------------------------------------------- intro flags

  const HideAfterMs: nat := 1000

  /** The two hooks and the pending `setShowIntro(false)` timer (the earliest one matters: all of them do the same). */
  class IntroFlags {
    var showIntro: bool
    var introComplete: bool
    var now: nat
    var hideAt: Option<nat>

    ghost predicate Valid()
      reads this
    {
      (!showIntro ==> introComplete) &&
      (hideAt.Some? ==> introComplete && now < hideAt.value <= now + HideAfterMs) &&
      (showIntro && introComplete ==> hideAt.Some?)
    }

    constructor ()
      ensures Valid() && showIntro && !introComplete && now == 0 && hideAt == None
    {
      showIntro, introComplete, now, hideAt := true, false, 0, None;
    }

    /** The overlay is mounted while `showIntro` holds. */
    function OverlayShown(): bool
      reads this
    {
      showIntro
    }

    /** The quote sits inside the overlay, so it shows only while both flags hold. */
    function QuoteShown(): bool
      reads this
    {
      showIntro && introComplete
    }

    /** `handleIntroComplete`: mark complete at once and hide the overlay 1000 ms later. */
    method Complete()
      requires Valid()
      modifies this
      ensures Valid() && introComplete && showIntro == old(showIntro) && now == old(now)
      ensures hideAt == if old(hideAt).Some? then old(hideAt) else Some(now + HideAfterMs)
    {
      introComplete := true;
      if hideAt.None? {
        hideAt := Some(now + HideAfterMs);
      }
    }

    /** `ms` milliseconds pass; a due timer hides the overlay. */
    method Tick(ms: nat)
      requires Valid()
      modifies this
      ensures Valid() && now == old(now) + ms && introComplete == old(introComplete)
      ensures old(hideAt).Some? && old(hideAt).value <= now ==> !showIntro && hideAt == None
      ensures !(old(hideAt).Some? && old(hideAt).value <= now) ==> showIntro == old(showIntro) && hideAt == old(hideAt)
    {
      now := now + ms;
      if hideAt.Some? && hideAt.value <= now {
        showIntro, hideAt := false, None;
      }
    }
  }

  /**
   * Before completion the overlay shows without the quote; after it the
   * quote shows together with the overlay for exactly 1000 ms, and then both
   * are gone.
   */
  method IntroScenario(before: nat, after: nat)
    returns (overlayBefore: bool, quoteBefore: bool, overlayAfter: bool, quoteAfter: bool)
    ensures overlayBefore && !quoteBefore
    ensures overlayAfter == (after < HideAfterMs) && quoteAfter == (after < HideAfterMs)
  {
    var flags := new IntroFlags();
    flags.Tick(before);
    overlayBefore, quoteBefore := flags.OverlayShown(), flags.QuoteShown();
    flags.Complete();
    flags.Tick(after);
    overlayAfter, quoteAfter := flags.OverlayShown(), flags.QuoteShown();
  }
}
