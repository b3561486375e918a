/**
 * The opening explosion (components/three/BigBangIntro.tsx): 8000 particles
 * that start at the origin with random velocities, sizes and palette
 * colours; a timer that starts the explosion after 1500 ms and one that
 * reports completion after 10000 ms; and a frame callback that, while the
 * explosion runs and the local clock is below 5 s, integrates every
 * particle in place and fades the material during the last second.
 */
module BigBang {
  import opened Numeric
  import opened Starfield

  const Count: nat := 8000
  const ExplodeAfterMs: nat := 1500
  const CompleteAfterMs: nat := 10000

  /** The five draws of particle k: azimuth, polar angle, speed, size, colour. */
  function Draw(k: nat, which: nat): nat
    requires which < 5
  {
    5 * k + which
  }

  /** `speed = 3 + Math.random() * 6` along a direction on the unit sphere. */
  function Velocity(rnd: Random, trig: Trig, k: nat): Vec3
  {
    SpherePoint(trig, Starfield.Radius(rnd, Draw(k, 2), 3.0, 6.0), rnd(Draw(k, 0)), rnd(Draw(k, 1)))
  }

  /** Every particle flies off with a speed in [3, 9). */
  lemma SpeedBounds(rnd: Random, trig: Trig, k: nat)
    ensures 9.0 <= NormSq(Velocity(rnd, trig, k)) < 81.0
  {
    var speed := Starfield.Radius(rnd, Draw(k, 2), 3.0, 6.0);
    SpherePointInShell(trig, speed, rnd(Draw(k, 0)), rnd(Draw(k, 1)), 3.0, 9.0);
  }

  /** `sizes[i] = 0.1 + Math.random() * 0.4`. */
  function Size(rnd: Random, k: nat): (s: real)
    ensures 0.1 <= s < 0.5
  {
    assert rnd(Draw(k, 3)) * 0.4 < 1.0 * 0.4;
    0.1 + rnd(Draw(k, 3)) * 0.4
  }

  const Cyan: Vec3 := Vec3(0.0, 1.0, 1.0)
  const Purple: Vec3 := Vec3(0.7, 0.0, 1.0)
  const Blue: Vec3 := Vec3(0.2, 0.4, 1.0)
  const Magenta: Vec3 := Vec3(1.0, 0.0, 0.8)
  const White: Vec3 := Vec3(1.0, 1.0, 1.0)
  const Gold: Vec3 := Vec3(1.0, 0.8, 0.0)

  /** The six colours, in the order of the thresholds. */
  const Palette: seq<Vec3> := [Cyan, Purple, Blue, Magenta, White, Gold]

  /** The colour chosen by `colorChoice`: cut points 0.2, 0.4, 0.6, 0.75 and 0.9. */
  function PaletteIndex(u: real): (i: nat)
    ensures i < |Palette|
    ensures u < 0.2 <==> i == 0
    ensures i > 0 ==> u >= [0.0, 0.2, 0.4, 0.6, 0.75, 0.9][i]
    ensures i < 5 ==> u < [0.2, 0.4, 0.6, 0.75, 0.9][i]
  {
    if u < 0.2 then 0
    else if u < 0.4 then 1
    else if u < 0.6 then 2
    else if u < 0.75 then 3
    else if u < 0.9 then 4
    else 5
  }

  /** A higher draw never picks an earlier colour. */
  lemma PaletteMonotone(u: real, w: real)
    requires u <= w
    ensures PaletteIndex(u) <= PaletteIndex(w)
  {
  }

  function Color(rnd: Random, k: nat): (c: Vec3)
    ensures c in Palette
  {
    Palette[PaletteIndex(rnd(Draw(k, 4)))]
  }

  /** The first n particles of the four buffers hold what the creation loop writes for them. */
  predicate Built(p: seq<real>, v: seq<real>, c: seq<real>, s: seq<real>, n: nat, rnd: Random, trig: Trig)
  {
    |p| == |v| == |c| == 3 * Count && |s| == Count && n <= Count &&
    forall k :: 0 <= k < n ==>
      At(p, k) == Vec3(0.0, 0.0, 0.0) && At(v, k) == Velocity(rnd, trig, k) &&
      At(c, k) == Color(rnd, k) && s[k] == Size(rnd, k)
  }

  /** Writing particle n into buffers built up to n builds them up to n + 1. */
  lemma BuiltStep(p: seq<real>, v: seq<real>, c: seq<real>, s: seq<real>, n: nat, rnd: Random, trig: Trig)
    requires Built(p, v, c, s, n, rnd, trig) && n < Count
    ensures Built(Put3(p, n, Vec3(0.0, 0.0, 0.0)), Put3(v, n, Velocity(rnd, trig, n)),
                  Put3(c, n, Color(rnd, n)), s[n := Size(rnd, n)], n + 1, rnd, trig)
  {
    var p', v', c', s' := Put3(p, n, Vec3(0.0, 0.0, 0.0)), Put3(v, n, Velocity(rnd, trig, n)),
                          Put3(c, n, Color(rnd, n)), s[n := Size(rnd, n)];
    forall k | 0 <= k < n
      ensures At(p', k) == Vec3(0.0, 0.0, 0.0) && At(v', k) == Velocity(rnd, trig, k)
      ensures At(c', k) == Color(rnd, k) && s'[k] == Size(rnd, k)
    {
      assert At(p', k) == At(p, k) && At(v', k) == At(v, k) && At(c', k) == At(c, k);
    }
  }

  /** One iteration of the creation loop, in the source's order of draws and writes. */
  method WriteParticle(positions: array<real>, velocities: array<real>, colors: array<real>, sizes: array<real>,
                       i: nat, rnd: Random, trig: Trig)
    requires 3 * i + 2 < positions.Length && 3 * i + 2 < velocities.Length
    requires 3 * i + 2 < colors.Length && i < sizes.Length
    requires positions != velocities && positions != colors && velocities != colors
    requires sizes != positions && sizes != velocities && sizes != colors
    modifies positions, velocities, colors, sizes
    ensures positions[..] == Put3(old(positions[..]), i, Vec3(0.0, 0.0, 0.0))
    ensures velocities[..] == Put3(old(velocities[..]), i, Velocity(rnd, trig, i))
    ensures colors[..] == Put3(old(colors[..]), i, Color(rnd, i))
    ensures sizes[..] == old(sizes[..])[i := Size(rnd, i)]
  {
    Put(positions, i, Vec3(0.0, 0.0, 0.0));
    var v := Launch(rnd, trig, i);
    Put(velocities, i, v);
    sizes[i] := 0.1 + rnd(5 * i + 3) * 0.4;
    var c := Palette[PaletteIndex(rnd(5 * i + 4))];
    Put(colors, i, c);
  }

  /** The velocity draws of particle i, as the loop computes them. */
  method Launch(rnd: Random, trig: Trig, i: nat) returns (v: Vec3)
    ensures v == Velocity(rnd, trig, i)
  {
    var theta := rnd(5 * i) * Pi * 2.0;
    var phi := trig.acos(2.0 * rnd(5 * i + 1) - 1.0);
    var speed := 3.0 + rnd(5 * i + 2) * 6.0;
    v := Vec3(speed * trig.sin(phi) * trig.cos(theta), speed * trig.sin(phi) * trig.sin(theta), speed * trig.cos(phi));
  }

  /** The `useMemo` that builds the four buffers: every particle starts at the origin. */
  method CreateParticles(rnd: Random, trig: Trig)
    returns (positions: array<real>, velocities: array<real>, colors: array<real>, sizes: array<real>)
    ensures fresh(positions) && fresh(velocities) && fresh(colors) && fresh(sizes)
    ensures positions != velocities
    ensures Built(positions[..], velocities[..], colors[..], sizes[..], Count, rnd, trig)
  {
    positions := new real[3 * Count];
    velocities := new real[3 * Count];
    colors := new real[3 * Count];
    sizes := new real[Count];
    var i := 0;
    while i < Count
      invariant Built(positions[..], velocities[..], colors[..], sizes[..], i, rnd, trig)
    {
      BuiltStep(positions[..], velocities[..], colors[..], sizes[..], i, rnd, trig);
      WriteParticle(positions, velocities, colors, sizes, i, rnd, trig);
      i := i + 1;
    }
  }

  /** A position after one step: it moves by its old velocity times delta. */
  function Advance(p: Vec3, v: Vec3, delta: real): (r: Vec3)
    ensures delta == 0.0 ==> r == p
  {
    Vec3(p.x + v.x * delta, p.y + v.y * delta, p.z + v.z * delta)
  }

  /** A velocity after one step: gravity on the vertical component, then a 2% drag on all three. */
  function Drag(v: Vec3, delta: real): (r: Vec3)
    ensures r.x == 0.98 * v.x && r.z == 0.98 * v.z
    ensures delta > 0.0 ==> r.y < 0.98 * v.y
  {
    Vec3(v.x * 0.98, (v.y - 0.5 * delta) * 0.98, v.z * 0.98)
  }

  /** The velocity after a run of frames with the given deltas. */
  function Drags(v: Vec3, deltas: seq<real>): Vec3
    decreases |deltas|
  {
    if deltas == [] then v else Drags(Drag(v, deltas[0]), deltas[1..])
  }

  /** Horizontal velocity decays geometrically: n frames leave 0.98^n of it, whatever their deltas. */
  lemma {:induction false} HorizontalDecay(v: Vec3, deltas: seq<real>)
    ensures Drags(v, deltas).x == Power(0.98, |deltas|) * v.x
    ensures Drags(v, deltas).z == Power(0.98, |deltas|) * v.z
    decreases |deltas|
  {
    if deltas != [] {
      HorizontalDecay(Drag(v, deltas[0]), deltas[1..]);
      assert Drags(v, deltas).x == Power(0.98, |deltas| - 1) * (0.98 * v.x);
      assert Drags(v, deltas).z == Power(0.98, |deltas| - 1) * (0.98 * v.z);
    }
  }

  /** Each particle below `Count` has been advanced and dragged once, from `p0`/`v0` to `p`/`v`. */
  ghost predicate Stepped(p0: seq<real>, v0: seq<real>, p: seq<real>, v: seq<real>, delta: real)
  {
    |p0| == |v0| == |p| == |v| == 3 * Count &&
    forall k :: 0 <= k < Count ==>
      At(p, k) == Advance(At(p0, k), At(v0, k), delta) && At(v, k) == Drag(At(v0, k), delta)
  }

  /** The loop body for particle i: its position first, then gravity, then drag. */
  method StepParticle(positions: array<real>, velocities: array<real>, i: nat, delta: real)
    requires positions != velocities && 3 * i + 2 < positions.Length && 3 * i + 2 < velocities.Length
    modifies positions, velocities
    ensures At(positions[..], i) == Advance(At(old(positions[..]), i), At(old(velocities[..]), i), delta)
    ensures At(velocities[..], i) == Drag(At(old(velocities[..]), i), delta)
    ensures forall j :: 0 <= j < positions.Length && (j < 3 * i || 3 * i + 3 <= j) ==> positions[j] == old(positions[j])
    ensures forall j :: 0 <= j < velocities.Length && (j < 3 * i || 3 * i + 3 <= j) ==> velocities[j] == old(velocities[j])
  {
    positions[3 * i] := positions[3 * i] + velocities[3 * i] * delta;
    positions[3 * i + 1] := positions[3 * i + 1] + velocities[3 * i + 1] * delta;
    positions[3 * i + 2] := positions[3 * i + 2] + velocities[3 * i + 2] * delta;
    velocities[3 * i + 1] := velocities[3 * i + 1] - 0.5 * delta;
    velocities[3 * i] := velocities[3 * i] * 0.98;
    velocities[3 * i + 1] := velocities[3 * i + 1] * 0.98;
    velocities[3 * i + 2] := velocities[3 * i + 2] * 0.98;
  }

  /** The in-place loop over all particles: every particle is advanced and dragged exactly once. */
  method Integrate(positions: array<real>, velocities: array<real>, delta: real)
    requires positions != velocities && positions.Length == 3 * Count && velocities.Length == 3 * Count
    modifies positions, velocities
    ensures Stepped(old(positions[..]), old(velocities[..]), positions[..], velocities[..], delta)
  {
    ghost var p0, v0 := positions[..], velocities[..];
    var n := positions.Length / 3;
    var i := 0;
    while i < n
      invariant 0 <= i <= n == Count
      invariant forall k :: 0 <= k < i ==>
        At(positions[..], k) == Advance(At(p0, k), At(v0, k), delta) && At(velocities[..], k) == Drag(At(v0, k), delta)
      invariant forall j :: 3 * i <= j < 3 * Count ==> positions[j] == p0[j] && velocities[j] == v0[j]
    {
      StepParticle(positions, velocities, i, delta);
      i := i + 1;
    }
  }

  /**
   * `material.opacity = max(0, 1 - (time - 4))`. It is only reached while
   * the local time is below 5, so inside that window the maximum never
   * clamps and the opacity lies strictly between 0 and 1.
   */
  lemma FadeNeverClamps(time: real)
    requires 4.0 < time < 5.0
    ensures Max(0.0, 1.0 - (time - 4.0)) == 1.0 - (time - 4.0)
    ensures 0.0 < Max(0.0, 1.0 - (time - 4.0)) < 1.0
  {
  }

  /** The component: its buffers, its refs and its two timers. */
  class Intro {
    const positions: array<real>
    const velocities: array<real>
    const colors: array<real>
    const sizes: array<real>
    /** `timeRef`: seconds of frames seen so far. */
    var time: real
    var explosionStarted: bool
    var opacity: real
    /** Milliseconds since the effect ran, and which of its two timers are still pending. */
    var clock: nat
    var explodePending: bool
    var completePending: bool
    /** Whether `onComplete` has been called. */
    var completed: bool

    ghost predicate Valid()
      reads this
    {
      positions != velocities && positions.Length == 3 * Count && velocities.Length == 3 * Count &&
      (explodePending ==> clock < ExplodeAfterMs && !explosionStarted) &&
      (completePending ==> clock < CompleteAfterMs && !completed) &&
      (explodePending <==> completePending && clock < ExplodeAfterMs) &&
      (completePending ==> (explosionStarted <==> clock >= ExplodeAfterMs))
    }

    /** Mounting: the buffers are built and the effect schedules both timers. */
    constructor (rnd: Random, trig: Trig)
      ensures Valid()
      ensures fresh(positions) && fresh(velocities) && fresh(colors) && fresh(sizes)
      ensures positions.Length == 3 * Count && sizes.Length == Count
      ensures Built(positions[..], velocities[..], colors[..], sizes[..], Count, rnd, trig)
      ensures forall k :: 0 <= k < Count ==> At(positions[..], k) == Vec3(0.0, 0.0, 0.0)
      ensures time == 0.0 && !explosionStarted && opacity == 1.0 && clock == 0
      ensures explodePending && completePending && !completed
    {
      var p, v, c, s := CreateParticles(rnd, trig);
      positions, velocities, colors, sizes := p, v, c, s;
      time, explosionStarted, opacity := 0.0, false, 1.0;
      clock, explodePending, completePending, completed := 0, true, true, false;
    }

    /** `ms` milliseconds of wall-clock time pass; each due timer fires once. */
    method Tick(ms: nat)
      requires Valid()
      modifies this
      ensures Valid()
      ensures clock == old(clock) + ms && time == old(time) && opacity == old(opacity)
      ensures explodePending == (old(explodePending) && clock < ExplodeAfterMs)
      ensures completePending == (old(completePending) && clock < CompleteAfterMs)
      ensures old(completePending) ==> (explosionStarted <==> clock >= ExplodeAfterMs)
      ensures old(completePending) ==> (completed <==> clock >= CompleteAfterMs)
      ensures !old(completePending) ==> explosionStarted == old(explosionStarted) && completed == old(completed)
    {
      clock := clock + ms;
      if explodePending && clock >= ExplodeAfterMs {
        explosionStarted, explodePending := true, false;
      }
      if completePending && clock >= CompleteAfterMs {
        completed, completePending := true, false;
      }
    }

    /** Unmounting cancels whatever timer is still pending. */
    method Teardown()
      requires Valid()
      modifies this
      ensures Valid()
      ensures !explodePending && !completePending
      ensures explosionStarted == old(explosionStarted) && completed == old(completed) && clock == old(clock)
      ensures time == old(time) && opacity == old(opacity)
    {
      explodePending, completePending := false, false;
    }

    /**
     * The frame callback. Without the points ref or its geometry nothing
     * happens. Otherwise the local time grows by `delta`; while the
     * explosion has started and the time is below 5 s, and the position
     * attribute exists, every particle is integrated, and after 4 s the
     * material (if any) fades.
     */
    method Frame(delta: real, hasPoints: bool, hasPositionAttribute: bool, hasMaterial: bool)
      requires Valid()
      modifies this, positions, velocities
      ensures Valid()
      ensures clock == old(clock) && explosionStarted == old(explosionStarted) && completed == old(completed)
      ensures explodePending == old(explodePending) && completePending == old(completePending)
      ensures time == if hasPoints then old(time) + delta else old(time)
      ensures if hasPoints && explosionStarted && time < 5.0 && hasPositionAttribute then
          Stepped(old(positions[..]), old(velocities[..]), positions[..], velocities[..], delta)
        else positions[..] == old(positions[..]) && velocities[..] == old(velocities[..])
      ensures opacity == if hasPoints && explosionStarted && time < 5.0 && hasPositionAttribute && hasMaterial && time > 4.0
        then Max(0.0, 1.0 - (time - 4.0)) else old(opacity)
    {
      if !hasPoints {
        return;
      }
      time := time + delta;
      if explosionStarted && time < 5.0 {
        if !hasPositionAttribute {
          return;
        }
        Integrate(positions, velocities, delta);
        if hasMaterial && time > 4.0 {
          opacity := Max(0.0, 1.0 - (time - 4.0));
        }
      }
    }
  }

  /**
   * A mount followed by frames and ticks: the explosion waits for the full
   * 1500 ms whatever frames run in between, the particles stay at the origin
   * until then, and unmounting before 10000 ms means `onComplete` is never
   * called.
   */
  method EarlyUnmountScenario(rnd: Random, trig: Trig)
    returns (startedAt1499: bool, stillAtOrigin: bool, startedAt1500: bool, completedAfterUnmount: bool)
    ensures !startedAt1499 && stillAtOrigin && startedAt1500 && !completedAfterUnmount
  {
    var intro := new Intro(rnd, trig);
    var atOrigin := intro.positions[..];
    intro.Tick(1000);
    intro.Frame(0.5, true, true, true);
    intro.Tick(499);
    startedAt1499, stillAtOrigin := intro.explosionStarted, intro.positions[..] == atOrigin;
    intro.Tick(1);
    startedAt1500 := intro.explosionStarted;
    intro.Frame(0.5, true, true, true);
    intro.Tick(8499);
    intro.Teardown();
    intro.Tick(5000);
    completedAfterUnmount := intro.completed;
  }
}
