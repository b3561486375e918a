/**
 * The spherical-shell starfield that several scenes fill: star i takes the
 * draws `stride * i`, `stride * i + 1` and `stride * i + 2` of its
 * generator for its radius, azimuth and polar angle, and writes its point to
 * entries 3i, 3i + 1 and 3i + 2 of a position buffer. Scenes whose loop
 * draws more per star (a colour, a size) use a larger stride.
 */
module Starfield {
  import opened Numeric

  /** `base + Math.random() * span`. */
  function Radius(rnd: Random, draw: nat, base: real, span: real): (r: real)
    ensures span > 0.0 ==> base <= r < base + span
  {
    assert span > 0.0 ==> rnd(draw) * span < 1.0 * span;
    base + rnd(draw) * span
  }

  /** Star k of a generator that draws `stride` values per star. */
  function Star(rnd: Random, trig: Trig, stride: nat, k: nat, base: real, span: real): Vec3
  {
    SpherePoint(trig, Radius(rnd, stride * k, base, span), rnd(stride * k + 1), rnd(stride * k + 2))
  }

  /** Every star lies in the shell between the radii `base` and `base + span`. */
  lemma StarInShell(rnd: Random, trig: Trig, stride: nat, k: nat, base: real, span: real)
    requires base >= 0.0 && span > 0.0
    ensures base * base <= NormSq(Star(rnd, trig, stride, k, base, span)) < (base + span) * (base + span)
  {
    var r := Radius(rnd, stride * k, base, span);
    SpherePointInShell(trig, r, rnd(stride * k + 1), rnd(stride * k + 2), base, base + span);
  }

  /** Entries 3k .. 3k + 2 of a buffer hold the point v. */
  ghost predicate StoredAt(a: array<real>, k: nat, v: Vec3)
    reads a
  {
    3 * k + 2 < a.Length && a[3 * k] == v.x && a[3 * k + 1] == v.y && a[3 * k + 2] == v.z
  }

  /** The loop body's three writes for one star, as the source spells them out. */
  method WriteStar(positions: array<real>, i: nat, rnd: Random, trig: Trig, stride: nat, base: real, span: real)
    requires 3 * i + 2 < positions.Length
    modifies positions
    ensures StoredAt(positions, i, Star(rnd, trig, stride, i, base, span))
    ensures forall j :: 0 <= j < positions.Length && j / 3 != i ==> positions[j] == old(positions[j])
  {
    var radius := base + rnd(stride * i) * span;
    var theta := rnd(stride * i + 1) * Pi * 2.0;
    var phi := trig.acos(2.0 * rnd(stride * i + 2) - 1.0);
    positions[3 * i] := radius * trig.sin(phi) * trig.cos(theta);
    positions[3 * i + 1] := radius * trig.sin(phi) * trig.sin(theta);
    positions[3 * i + 2] := radius * trig.cos(phi);
  }

  /**
   * A position-only starfield of `count` stars (the lab's 1500 and the
   * planet system's 2000): a buffer of 3 * count entries with star k at
   * entries 3k .. 3k + 2.
   */
  method FillShell(count: nat, rnd: Random, trig: Trig, base: real, span: real) returns (positions: array<real>)
    ensures positions.Length == 3 * count
    ensures forall k :: 0 <= k < count ==> StoredAt(positions, k, Star(rnd, trig, 3, k, base, span))
  {
    positions := new real[3 * count];
    var i := 0;
    while i < count
      invariant 0 <= i <= count
      invariant forall k :: 0 <= k < i ==> StoredAt(positions, k, Star(rnd, trig, 3, k, base, span))
    {
      WriteStar(positions, i, rnd, trig, 3, base, span);
      i := i + 1;
    }
  }

  /** Particle k of a flat buffer of triples. */
  function At(s: seq<real>, k: nat): Vec3
    requires 3 * k + 2 < |s|
  {
    Vec3(s[3 * k], s[3 * k + 1], s[3 * k + 2])
  }

  /** A flat buffer with particle i replaced by v. */
  function Put3(s: seq<real>, i: nat, v: Vec3): (r: seq<real>)
    requires 3 * i + 2 < |s|
    ensures |r| == |s| && At(r, i) == v
    ensures forall j :: 0 <= j < |s| && (j < 3 * i || 3 * i + 3 <= j) ==> r[j] == s[j]
  {
    s[3 * i := v.x][3 * i + 1 := v.y][3 * i + 2 := v.z]
  }

  /** The three component writes of one point. */
  method Put(a: array<real>, i: nat, v: Vec3)
    requires 3 * i + 2 < a.Length
    modifies a
    ensures a[..] == Put3(old(a[..]), i, v)
  {
    a[3 * i], a[3 * i + 1], a[3 * i + 2] := v.x, v.y, v.z;
  }

  /**
   * A starfield whose loop also draws a colour: the fourth draw of each star
   * picks `tint` when it exceeds `threshold` and `plain` otherwise.
   */
  datatype Tinted = Tinted(base: real, span: real, threshold: real, tint: Vec3, plain: Vec3)

  /** The colour of star k of a tinted field (four draws per star). */
  function TintOf(rnd: Random, k: nat, t: Tinted): Vec3
  {
    if rnd(4 * k + 3) > t.threshold then t.tint else t.plain
  }

  /** The first n stars of a field of `count` stars hold their point and colour. */
  predicate TintedBuilt(p: seq<real>, c: seq<real>, count: nat, n: nat, rnd: Random, trig: Trig, t: Tinted)
  {
    |p| == |c| == 3 * count && n <= count &&
    forall k :: 0 <= k < n ==> At(p, k) == Star(rnd, trig, 4, k, t.base, t.span) && At(c, k) == TintOf(rnd, k, t)
  }

  lemma TintedBuiltStep(p: seq<real>, c: seq<real>, count: nat, n: nat, rnd: Random, trig: Trig, t: Tinted)
    requires TintedBuilt(p, c, count, n, rnd, trig, t) && n < count
    ensures TintedBuilt(Put3(p, n, Star(rnd, trig, 4, n, t.base, t.span)), Put3(c, n, TintOf(rnd, n, t)), count, n + 1, rnd, trig, t)
  {
    var p', c' := Put3(p, n, Star(rnd, trig, 4, n, t.base, t.span)), Put3(c, n, TintOf(rnd, n, t));
    forall k | 0 <= k < n
      ensures At(p', k) == Star(rnd, trig, 4, k, t.base, t.span) && At(c', k) == TintOf(rnd, k, t)
    {
      assert At(p', k) == At(p, k) && At(c', k) == At(c, k);
    }
  }

  /** The radius, azimuth and polar-angle draws of star i and the point they give. */
  method Place(rnd: Random, trig: Trig, stride: nat, i: nat, base: real, span: real) returns (point: Vec3)
    ensures point == Star(rnd, trig, stride, i, base, span)
  {
    var radius := base + rnd(stride * i) * span;
    var theta := rnd(stride * i + 1) * Pi * 2.0;
    var phi := trig.acos(2.0 * rnd(stride * i + 2) - 1.0);
    point := Vec3(radius * trig.sin(phi) * trig.cos(theta), radius * trig.sin(phi) * trig.sin(theta), radius * trig.cos(phi));
  }

  /** The loop body of a tinted field: the point, then the colour draw and its three writes. */
  method WriteTintedStar(positions: array<real>, colors: array<real>, i: nat, rnd: Random, trig: Trig, t: Tinted)
    requires positions != colors && 3 * i + 2 < positions.Length && 3 * i + 2 < colors.Length
    modifies positions, colors
    ensures positions[..] == Put3(old(positions[..]), i, Star(rnd, trig, 4, i, t.base, t.span))
    ensures colors[..] == Put3(old(colors[..]), i, TintOf(rnd, i, t))
  {
    var point := Place(rnd, trig, 4, i, t.base, t.span);
    Put(positions, i, point);
    var tinted := rnd(4 * i + 3) > t.threshold;
    if tinted {
      Put(colors, i, t.tint);
    } else {
      Put(colors, i, t.plain);
    }
  }

  /** A tinted field of `count` stars: a position buffer and a colour buffer of 3 * count entries each. */
  method FillTinted(count: nat, rnd: Random, trig: Trig, t: Tinted) returns (positions: array<real>, colors: array<real>)
    ensures TintedBuilt(positions[..], colors[..], count, count, rnd, trig, t)
  {
    positions := new real[3 * count];
    colors := new real[3 * count];
    var i := 0;
    while i < count
      invariant TintedBuilt(positions[..], colors[..], count, i, rnd, trig, t)
    {
      TintedBuiltStep(positions[..], colors[..], count, i, rnd, trig, t);
      WriteTintedStar(positions, colors, i, rnd, trig, t);
      i := i + 1;
    }
  }
}
