/**
 * Numbers, randomness and trigonometry shared by every scene.
 *
 * JavaScript numbers are modelled as mathematical reals (an idealisation of
 * IEEE-754 doubles and Float32Array entries). `Math.random()` is an oracle:
 * the k-th call of a generator returns `rnd(k)`, a value in [0, 1).
 * `Math.sin`, `Math.cos` and `Math.acos` are uninterpreted, except that sine
 * and cosine lie in [-1, 1] and satisfy sin^2 + cos^2 = 1.
 */
module Numeric {

  /** `Math.PI`. */
  const Pi: real := 3.141592653589793

  /** A stream of `Math.random()` results, each in [0, 1). */
  type Random = f: nat -> real | forall k :: 0.0 <= f(k) < 1.0 witness (k: nat) => 0.0

  datatype TrigFns = TrigFns(sin: real -> real, cos: real -> real, acos: real -> real)

  ghost predicate IsTrig(t: TrigFns)
  {
    forall x :: -1.0 <= t.sin(x) <= 1.0 && -1.0 <= t.cos(x) <= 1.0 && t.sin(x) * t.sin(x) + t.cos(x) * t.cos(x) == 1.0
  }

  /** `Math.sin`, `Math.cos` and `Math.acos`, known only through `IsTrig`. */
  type Trig = t: TrigFns | IsTrig(t) witness TrigFns((x: real) => 0.0, (x: real) => 1.0, (x: real) => 0.0)

  datatype Vec3 = Vec3(x: real, y: real, z: real)

  function NormSq(v: Vec3): real
  {
    v.x * v.x + v.y * v.y + v.z * v.z
  }

  function Max(a: real, b: real): real
  {
    if a >= b then a else b
  }

  /**
   * One step of three.js `lerp` with factor `alpha` (applied to each
   * component of a uniform scale): the distance left to the target shrinks
   * by the factor 1 - alpha, and for alpha in [0, 1] the new value lies
   * between the old value and the target.
   */
  function Lerp(s: real, target: real, alpha: real): (r: real)
    ensures target - r == (1.0 - alpha) * (target - s)
    ensures 0.0 <= alpha <= 1.0 && s <= target ==> s <= r <= target
    ensures 0.0 <= alpha <= 1.0 && target <= s ==> target <= r <= s
  {
    LerpBetween(s, target, alpha);
    s + (target - s) * alpha
  }

  lemma LerpBetween(s: real, target: real, alpha: real)
    ensures 0.0 <= alpha <= 1.0 && s <= target ==> 0.0 <= (target - s) * alpha <= target - s
    ensures 0.0 <= alpha <= 1.0 && target <= s ==> target - s <= (target - s) * alpha <= 0.0
  {
    if 0.0 <= alpha <= 1.0 {
      var d := target - s;
      if d >= 0.0 {
        MulNonNegative(d, alpha);
        MulNonNegative(d, 1.0 - alpha);
        assert d * alpha + d * (1.0 - alpha) == d;
      } else {
        MulNonNegative(-d, alpha);
        MulNonNegative(-d, 1.0 - alpha);
        assert (-d) * alpha + (-d) * (1.0 - alpha) == -d;
        assert d * alpha == -((-d) * alpha);
      }
    }
  }

  lemma MulNonNegative(a: real, b: real)
    requires a >= 0.0 && b >= 0.0
    ensures a * b >= 0.0
  {
  }

  /** b raised to the n-th power. */
  function Power(b: real, n: nat): real
  {
    if n == 0 then 1.0 else Power(b, n - 1) * b
  }

  /** n lerp steps towards a fixed target, as n frames of a `scale.lerp` call make them. */
  function LerpSteps(s: real, target: real, alpha: real, n: nat): real
  {
    if n == 0 then s else Lerp(LerpSteps(s, target, alpha, n - 1), target, alpha)
  }

  /** After n steps the distance left to the target is (1 - alpha)^n times the initial one. */
  lemma {:induction false} LerpConverges(s: real, target: real, alpha: real, n: nat)
    ensures target - LerpSteps(s, target, alpha, n) == Power(1.0 - alpha, n) * (target - s)
  {
    if n > 0 {
      LerpConverges(s, target, alpha, n - 1);
      var prev := LerpSteps(s, target, alpha, n - 1);
      var q, p, d := 1.0 - alpha, Power(1.0 - alpha, n - 1), target - s;
      assert LerpSteps(s, target, alpha, n) == Lerp(prev, target, alpha);
      assert Power(1.0 - alpha, n) == p * q;
      MulRegroup(q, p, d);
    }
  }

  lemma MulRegroup(q: real, p: real, d: real)
    ensures q * (p * d) == (p * q) * d
  {
  }

  /** `w * k + c` stays within `c - |k|` .. `c + |k|` when `w` is a sine value. */
  lemma WaveBounds(w: real, k: real, c: real)
    requires -1.0 <= w <= 1.0 && k >= 0.0
    ensures c - k <= w * k + c <= c + k
  {
    assert -k <= w * k <= k by {
      if w >= 0.0 { assert w * k <= 1.0 * k; } else { assert w * k >= -1.0 * k; }
    }
  }

  /** Squaring is monotone on the non-negative reals. */
  lemma SquareBounds(lo: real, r: real, hi: real)
    requires 0.0 <= lo <= r < hi
    ensures lo * lo <= r * r < hi * hi
  {
    var below, mixed, above := r * r, r * hi, hi * hi;
    assert below <= mixed;
    assert mixed < above by { assert (hi - r) * hi > 0.0; }
    assert lo * lo <= r * r;
  }

  /**
   * The point of the sphere of the given radius that the starfield loops
   * compute from two draws: theta = uTheta * 2 pi and phi = acos(2 uPhi - 1).
   */
  function SpherePoint(trig: Trig, radius: real, uTheta: real, uPhi: real): Vec3
  {
    var theta := uTheta * Pi * 2.0;
    var phi := trig.acos(2.0 * uPhi - 1.0);
    Vec3(radius * trig.sin(phi) * trig.cos(theta),
         radius * trig.sin(phi) * trig.sin(theta),
         radius * trig.cos(phi))
  }

  /** A sphere point lies at distance `radius` from the origin. */
  lemma SpherePointNorm(trig: Trig, radius: real, uTheta: real, uPhi: real)
    ensures NormSq(SpherePoint(trig, radius, uTheta, uPhi)) == radius * radius
  {
    var theta := uTheta * Pi * 2.0;
    var phi := trig.acos(2.0 * uPhi - 1.0);
    var sp, cp, st, ct := trig.sin(phi), trig.cos(phi), trig.sin(theta), trig.cos(theta);
    assert st * st + ct * ct == 1.0;
    assert sp * sp + cp * cp == 1.0;
    var r := radius;
    calc {
      NormSq(SpherePoint(trig, radius, uTheta, uPhi));
      (r * sp * ct) * (r * sp * ct) + (r * sp * st) * (r * sp * st) + (r * cp) * (r * cp);
      { assert (r * sp * ct) * (r * sp * ct) == (r * r) * (sp * sp) * (ct * ct);
        assert (r * sp * st) * (r * sp * st) == (r * r) * (sp * sp) * (st * st);
        assert (r * cp) * (r * cp) == (r * r) * (cp * cp); }
      (r * r) * ((sp * sp) * (ct * ct + st * st) + cp * cp);
      (r * r) * (sp * sp + cp * cp);
      r * r;
    }
  }

  /** A sphere point whose radius lies in [lo, hi) has squared norm in [lo^2, hi^2). */
  lemma SpherePointInShell(trig: Trig, radius: real, uTheta: real, uPhi: real, lo: real, hi: real)
    requires 0.0 <= lo <= radius < hi
    ensures lo * lo <= NormSq(SpherePoint(trig, radius, uTheta, uPhi)) < hi * hi
  {
    SpherePointNorm(trig, radius, uTheta, uPhi);
    SquareBounds(lo, radius, hi);
  }
}
