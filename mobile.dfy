/**
 * Viewport classification (lib/utils/mobile.ts). Each helper reads
 * `window.innerWidth` and `window.devicePixelRatio`; during server rendering
 * there is no `window` and each helper returns a fixed default.
 */
module Mobile {
  import opened Wrappers

  /** The two `window` properties the helpers read. */
  datatype Viewport = Viewport(width: int, dpr: real)

  /** `None` stands for `typeof window === 'undefined'`. */
  type Window = Option<Viewport>

  datatype PerformanceLevel = Low | Medium | High

  const MobileMax: int := 768
  const TabletMax: int := 1024
  const SmallMax: int := 640

  function IsMobile(w: Window): bool
  {
    match w
    case None => false
    case Some(v) => v.width < MobileMax
  }

  function IsTablet(w: Window): bool
  {
    match w
    case None => false
    case Some(v) => v.width >= MobileMax && v.width < TabletMax
  }

  /** `window.devicePixelRatio || 1`: a ratio of 0 is falsy and reads as 1. */
  function RawPixelRatio(v: Viewport): (r: real)
    ensures v.dpr > 0.0 ==> r == v.dpr
    ensures v.dpr == 0.0 ==> r == 1.0
  {
    if v.dpr == 0.0 then 1.0 else v.dpr
  }

  /** `getDevicePixelRatio`: the ratio, capped at 2; 1 without a window. */
  function DevicePixelRatio(w: Window): (r: real)
    ensures r <= 2.0
    ensures w.None? ==> r == 1.0
    ensures w.Some? && w.value.dpr >= 0.0 ==> 0.0 < r
    ensures w.Some? && 0.0 < w.value.dpr <= 2.0 ==> r == w.value.dpr
  {
    match w
    case None => 1.0
    case Some(v) => if RawPixelRatio(v) <= 2.0 then RawPixelRatio(v) else 2.0
  }

  /** `getOptimizedParticleCount`: 30% of the base count on small screens, 50% below 1024 px, all of it otherwise. */
  function OptimizedParticleCount(w: Window, base: int): int
  {
    match w
    case None => base
    case Some(v) =>
      if v.width < SmallMax then (base as real * 0.3).Floor
      else if v.width < TabletMax then (base as real * 0.5).Floor
      else base
  }

  /** `getPerformanceLevel`. */
  function Performance(w: Window): PerformanceLevel
  {
    match w
    case None => Medium
    case Some(v) =>
      if v.width < SmallMax && RawPixelRatio(v) > 2.0 then Low
      else if v.width < TabletMax then Medium
      else High
  }

  /** A viewport is mobile, tablet or desktop (width at least 1024), and exactly one of them. */
  lemma ViewportClasses(v: Viewport)
    ensures IsMobile(Some(v)) <==> v.width < 768
    ensures IsTablet(Some(v)) <==> 768 <= v.width < 1024
    ensures !(IsMobile(Some(v)) && IsTablet(Some(v)))
    ensures IsMobile(Some(v)) || IsTablet(Some(v)) || v.width >= 1024
  {
  }

  /** Without a window nothing is mobile or tablet. */
  lemma NoWindowDefaults(base: int)
    ensures !IsMobile(None) && !IsTablet(None)
    ensures DevicePixelRatio(None) == 1.0
    ensures OptimizedParticleCount(None, base) == base
    ensures Performance(None) == Medium
  {
  }

  lemma FloorMonotone(x: real, y: real)
    requires x <= y
    ensures x.Floor <= y.Floor
  {
    assert x.Floor as real <= x;
    assert y < y.Floor as real + 1.0;
  }

  /** For a non-negative base the optimised count lies in [0, base]. */
  lemma ParticleCountBounded(w: Window, base: int)
    requires base >= 0
    ensures 0 <= OptimizedParticleCount(w, base) <= base
  {
    var b := base as real;
    FloorMonotone(0.0, b * 0.3);
    FloorMonotone(b * 0.3, b);
    FloorMonotone(0.0, b * 0.5);
    FloorMonotone(b * 0.5, b);
    assert b.Floor == base;
  }

  /** A wider viewport never gets fewer particles. */
  lemma ParticleCountMonotone(v1: Viewport, v2: Viewport, base: int)
    requires base >= 0 && v1.width <= v2.width
    ensures OptimizedParticleCount(Some(v1), base) <= OptimizedParticleCount(Some(v2), base)
  {
    var b := base as real;
    FloorMonotone(b * 0.3, b * 0.5);
    FloorMonotone(b * 0.3, b);
    FloorMonotone(b * 0.5, b);
    assert b.Floor == base;
  }

  /** The three performance levels and exactly when each is chosen. */
  lemma PerformanceLevels(w: Window)
    ensures Performance(w) == Low <==> w.Some? && w.value.width < 640 && RawPixelRatio(w.value) > 2.0
    ensures Performance(w) == High <==> w.Some? && w.value.width >= 1024
    ensures Performance(w) == Medium <==> w.None? || (w.value.width < 1024 && !(w.value.width < 640 && RawPixelRatio(w.value) > 2.0))
  {
  }
}
