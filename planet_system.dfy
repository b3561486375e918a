/**
 * The planet scene of the experience section
 * (components/three/PlanetSystem.tsx): per-planet style, starting angle,
 * orbit and pulse, the moons, the asteroid belt, the starfield and the sun,
 * and the mapping from the experience records to planets.
 */
module PlanetSystem {
  import opened Wrappers
  import opened Numeric
  import Mobile
  import Scene
  import Starfield
  import Overlay
  import opened ExperienceData

  datatype PlanetStyle = PlanetStyle(color: string, hasRings: bool, ringColor: Option<string>, moons: nat, shininess: int)

  /** The `styles` record of `getPlanetStyle`. */
  const Styles: map<string, PlanetStyle> := map[
    "sports-excitement" := PlanetStyle("#C8A870", true, Some("#B89968"), 2, 20),
    "accenture" := PlanetStyle("#4A7BA7", false, None, 1, 40),
    "uncc-ta-swe" := PlanetStyle("#A67C52", false, None, 2, 25),
    "uncc-ta-logic" := PlanetStyle("#5B7FBF", false, None, 1, 35)]

  /** `styles[data.id] || fallback`: a table entry, else the record's own colour with no rings, no moons and shininess 30. */
  function StyleOf(id: string, color: string): (s: PlanetStyle)
    ensures id in Styles ==> s == Styles[id]
    ensures id !in Styles ==> s == PlanetStyle(color, false, None, 0, 30)
  {
    if id in Styles then Styles[id] else PlanetStyle(color, false, None, 0, 30)
  }

  /** Every shipped record has a table entry, so the fallback style is never used for it. */
  lemma ShippedStyles(i: nat)
    requires i < |Experiences|
    ensures Experiences[i].id in Styles
    ensures StyleOf(Experiences[i].id, Experiences[i].color) == Styles[Experiences[i].id]
  {
    ExperienceIds();
  }

  /** The sum of the character codes that the `reduce` over the id computes (addition is order-free). */
  function CharSum(s: string): nat
  {
    if s == [] then 0 else (s[0] as nat) + CharSum(s[1..])
  }

  lemma {:induction false} CharSumAppend(a: string, b: string)
    ensures CharSum(a + b) == CharSum(a) + CharSum(b)
    decreases |a|
  {
    if a != [] {
      assert (a + b)[1..] == a[1..] + b;
      CharSumAppend(a[1..], b);
    } else {
      assert a + b == b;
    }
  }

  /** The degree offset `hash % 360`. */
  function StartDegrees(id: string): (d: nat)
    ensures d < 360
  {
    CharSum(id) % 360
  }

  /** `startingAngle`, in radians. */
  function StartingAngle(id: string): (a: real)
    ensures 0.0 <= a < 2.0 * Pi
  {
    var d := StartDegrees(id);
    assert d as real * (Pi / 180.0) <= 359.0 * (Pi / 180.0);
    d as real * (Pi / 180.0)
  }

  /** The hash ignores the order of characters: swapping two halves of an id does not move the planet. */
  lemma StartDegreesSwap(a: string, b: string)
    ensures StartDegrees(a + b) == StartDegrees(b + a)
  {
    CharSumAppend(a, b);
    CharSumAppend(b, a);
  }

  /** Angular speed `0.12 / distance`. */
  function OrbitSpeed(distance: real): real
    requires distance > 0.0
  {
    0.12 / distance
  }

  /** A closer orbit is strictly faster. */
  lemma CloserIsFaster(d1: real, d2: real)
    requires 0.0 < d1 < d2
    ensures OrbitSpeed(d1) > OrbitSpeed(d2) > 0.0
  {
    assert 0.12 / d1 * d1 == 0.12;
    assert 0.12 / d2 * d2 == 0.12;
  }

  /** The shipped planets orbit ever more slowly outward. */
  lemma ShippedSpeeds(i: nat, j: nat)
    requires i < j < |Experiences|
    ensures OrbitSpeed(Experiences[i].distance) > OrbitSpeed(Experiences[j].distance)
  {
    ExperienceGeometry();
    OrbitsIncreasePairwise(Experiences, i, j);
    CloserIsFaster(Experiences[i].distance, Experiences[j].distance);
  }

  /** `startingAngle + time * speed`: at time 0 the planet is at its starting angle. */
  function OrbitAngle(start: real, time: real, distance: real): (a: real)
    requires distance > 0.0
    ensures time == 0.0 ==> a == start
    ensures time > 0.0 ==> a > start
  {
    assert time > 0.0 ==> time * OrbitSpeed(distance) > 0.0;
    start + time * OrbitSpeed(distance)
  }

  /** The selected planet pulses: `sin(2t) * 0.05 + 1`; an unselected one keeps scale 1. */
  function PulseScale(trig: Trig, time: real, selected: bool): (s: real)
    ensures !selected ==> s == 1.0
    ensures 0.95 <= s <= 1.05
  {
    if selected then
      WaveBounds(trig.sin(time * 2.0), 0.05, 1.0);
      trig.sin(time * 2.0) * 0.05 + 1.0
    else 1.0
  }

  /** `sizeMultiplier`: planets are 50% larger on a mobile viewport. */
  function AdjustedSize(w: Mobile.Window, size: real): (r: real)
    ensures Mobile.IsMobile(w) ==> r == size * 1.5
    ensures !Mobile.IsMobile(w) ==> r == size
  {
    size * (if Mobile.IsMobile(w) then 1.5 else 1.0)
  }

  /**
   * The planet's frame callback: nothing unless both refs are attached;
   * then the orbit group turns to its orbit angle, the planet spins at 0.2
   * rad/s, and its scale is set to the pulse.
   */
  method PlanetFrame(orbit: Scene.Object3D?, mesh: Scene.Object3D?, trig: Trig, time: real,
                     id: string, distance: real, selected: bool)
    requires distance > 0.0
    requires orbit != null && mesh != null ==> orbit != mesh
    modifies orbit, mesh
    ensures orbit == null || mesh == null ==> (orbit != null ==> unchanged(orbit)) && (mesh != null ==> unchanged(mesh))
    ensures orbit != null && mesh != null ==> orbit.rotationY == OrbitAngle(StartingAngle(id), time, distance)
    ensures orbit != null && mesh != null ==> mesh.rotationY == time * 0.2
    ensures orbit != null && mesh != null ==>
      mesh.scaleX == PulseScale(trig, time, selected) && mesh.scaleY == mesh.scaleX && mesh.scaleZ == mesh.scaleX
    ensures orbit != null && mesh != null ==>
      orbit.rotationX == old(orbit.rotationX) && orbit.positionY == old(orbit.positionY) && orbit.opacity == old(orbit.opacity) &&
      orbit.scaleX == old(orbit.scaleX) && orbit.scaleY == old(orbit.scaleY) && orbit.scaleZ == old(orbit.scaleZ)
    ensures orbit != null && mesh != null ==>
      mesh.rotationX == old(mesh.rotationX) && mesh.positionY == old(mesh.positionY) && mesh.opacity == old(mesh.opacity)
  {
    if orbit == null || mesh == null {
      return;
    }
    var speed := 0.12 / distance;
    orbit.rotationY := StartingAngle(id) + time * speed;
    mesh.rotationY := time * 0.2;
    var s := if selected then trig.sin(time * 2.0) * 0.05 + 1.0 else 1.0;
    mesh.scaleX, mesh.scaleY, mesh.scaleZ := s, s, s;
  }

  datatype Moon = Moon(size: real, distance: real, speed: real)

  /** `Array.from({ length: moons }).map(…)`: moon i of a planet of the given (adjusted) size. */
  function Moons(count: nat, size: real): (ms: seq<Moon>)
    ensures |ms| == count
  {
    seq(count, i => Moon(size * 0.25, size * (2.5 + i as real * 0.8), 1.5 + i as real * 0.5))
  }

  /**
   * For a planet of positive size the moons sit ever farther out and turn
   * ever faster, all of them outside the outer ring (radius 2.3 * size).
   */
  lemma MoonsSpread(count: nat, size: real, i: nat, j: nat)
    requires size > 0.0 && i < j < count
    ensures Moons(count, size)[i].distance < Moons(count, size)[j].distance
    ensures Moons(count, size)[i].speed < Moons(count, size)[j].speed
    ensures Moons(count, size)[i].distance >= size * 2.5 > size * 2.3
  {
    var di, dj := 2.5 + i as real * 0.8, 2.5 + j as real * 0.8;
    assert di < dj;
    assert size * di < size * dj;
    assert size * di >= size * 2.5;
  }

  /** A planet shows exactly as many moons as its style says. */
  lemma MoonCount(id: string, color: string, size: real)
    ensures |Moons(StyleOf(id, color).moons, size)| == StyleOf(id, color).moons
    ensures id !in Styles ==> Moons(StyleOf(id, color).moons, size) == []
  {
  }

  /** The moon's frame callback: its group's rotation is `elapsed * speed`. */
  method MoonFrame(moon: Scene.Object3D?, time: real, m: Moon)
    modifies moon
    ensures moon != null ==> moon.rotationY == time * m.speed
    ensures moon != null ==> moon.rotationX == old(moon.rotationX) && moon.positionY == old(moon.positionY) && moon.opacity == old(moon.opacity)
    ensures moon != null ==> moon.scaleX == old(moon.scaleX) && moon.scaleY == old(moon.scaleY) && moon.scaleZ == old(moon.scaleZ)
  {
    if moon != null {
      moon.rotationY := time * m.speed;
    }
  }

  /** Asteroid k: an angle, a radius in [8.5, 9.5) and a height in [-0.15, 0.15), from three draws. */
  function Asteroid(rnd: Random, trig: Trig, k: nat): Vec3
  {
    var angle := rnd(3 * k) * Pi * 2.0;
    var radius := 8.5 + rnd(3 * k + 1) * (9.5 - 8.5);
    var height := (rnd(3 * k + 2) - 0.5) * 0.3;
    Vec3(trig.cos(angle) * radius, height, trig.sin(angle) * radius)
  }

  /** Every asteroid lies in the flat ring 8.5 <= sqrt(x^2 + z^2) < 9.5, -0.15 <= y < 0.15. */
  lemma AsteroidInBelt(rnd: Random, trig: Trig, k: nat)
    ensures var a := Asteroid(rnd, trig, k);
      8.5 * 8.5 <= a.x * a.x + a.z * a.z < 9.5 * 9.5 && -0.15 <= a.y < 0.15
  {
    var angle := rnd(3 * k) * Pi * 2.0;
    var radius := 8.5 + rnd(3 * k + 1) * (9.5 - 8.5);
    var c, s := trig.cos(angle), trig.sin(angle);
    assert s * s + c * c == 1.0;
    var a := Asteroid(rnd, trig, k);
    assert a.x * a.x + a.z * a.z == radius * radius * (c * c + s * s) by {
      assert a.x * a.x == c * c * (radius * radius);
      assert a.z * a.z == s * s * (radius * radius);
    }
    SquareBounds(8.5, radius, 9.5);
  }

  /** The loop body's three writes for asteroid i. */
  method WriteAsteroid(positions: array<real>, i: nat, rnd: Random, trig: Trig)
    requires 3 * i + 2 < positions.Length
    modifies positions
    ensures Starfield.StoredAt(positions, i, Asteroid(rnd, trig, i))
    ensures forall j :: 0 <= j < positions.Length && j / 3 != i ==> positions[j] == old(positions[j])
  {
    var angle := rnd(3 * i) * Pi * 2.0;
    var radius := 8.5 + rnd(3 * i + 1) * (9.5 - 8.5);
    var height := (rnd(3 * i + 2) - 0.5) * 0.3;
    positions[3 * i] := trig.cos(angle) * radius;
    positions[3 * i + 1] := height;
    positions[3 * i + 2] := trig.sin(angle) * radius;
  }

  /** The belt buffer: 1500 asteroids, asteroid k at entries 3k .. 3k + 2. */
  method FillBelt(rnd: Random, trig: Trig) returns (positions: array<real>)
    ensures positions.Length == 1500 * 3
    ensures forall k :: 0 <= k < 1500 ==> Starfield.StoredAt(positions, k, Asteroid(rnd, trig, k))
  {
    positions := new real[1500 * 3];
    var i := 0;
    while i < 1500
      invariant 0 <= i <= 1500
      invariant forall k :: 0 <= k < i ==> Starfield.StoredAt(positions, k, Asteroid(rnd, trig, k))
    {
      WriteAsteroid(positions, i, rnd, trig);
      i := i + 1;
    }
  }

  /** The background buffer: 2000 stars in the shell of radii 60 .. 100. */
  method FillStarfield(rnd: Random, trig: Trig) returns (positions: array<real>)
    ensures positions.Length == 2000 * 3
    ensures forall k :: 0 <= k < 2000 ==> Starfield.StoredAt(positions, k, Starfield.Star(rnd, trig, 3, k, 60.0, 40.0))
  {
    positions := Starfield.FillShell(2000, rnd, trig, 60.0, 40.0);
  }

  /**
   * The belt and the starfield turn with the clock, not by accumulation:
   * their rotation is `elapsed * 0.02` and `elapsed * 0.005`.
   */
  method BackdropFrame(belt: Scene.Object3D?, stars: Scene.Object3D?, time: real)
    requires belt != null && stars != null ==> belt != stars
    modifies belt, stars
    ensures belt != null ==> belt.rotationY == time * 0.02
    ensures stars != null ==> stars.rotationY == time * 0.005
    ensures belt != null ==> belt.rotationX == old(belt.rotationX) && belt.positionY == old(belt.positionY) && belt.opacity == old(belt.opacity)
    ensures belt != null ==> belt.scaleX == old(belt.scaleX) && belt.scaleY == old(belt.scaleY) && belt.scaleZ == old(belt.scaleZ)
    ensures stars != null ==> stars.rotationX == old(stars.rotationX) && stars.positionY == old(stars.positionY) && stars.opacity == old(stars.opacity)
    ensures stars != null ==> stars.scaleX == old(stars.scaleX) && stars.scaleY == old(stars.scaleY) && stars.scaleZ == old(stars.scaleZ)
  {
    if belt != null {
      belt.rotationY := time * 0.02;
    }
    if stars != null {
      stars.rotationY := time * 0.005;
    }
  }

  /** The sun's frame callback: the core spins and pulses by 3%, the glow pulses by 5%, each only if attached. */
  method SunFrame(sun: Scene.Object3D?, glow: Scene.Object3D?, trig: Trig, time: real)
    requires sun != null && glow != null ==> sun != glow
    modifies sun, glow
    ensures sun != null ==> sun.rotationY == time * 0.05
    ensures sun != null ==> sun.scaleX == trig.sin(time * 0.8) * 0.03 + 1.0 && sun.scaleY == sun.scaleX && sun.scaleZ == sun.scaleX
    ensures sun != null ==> 0.97 <= sun.scaleX <= 1.03
    ensures glow != null ==> glow.scaleX == trig.sin(time * 0.8) * 0.05 + 1.0 && glow.scaleY == glow.scaleX && glow.scaleZ == glow.scaleX
    ensures glow != null ==> 0.95 <= glow.scaleX <= 1.05
    ensures sun != null ==> sun.rotationX == old(sun.rotationX) && sun.positionY == old(sun.positionY) && sun.opacity == old(sun.opacity)
    ensures glow != null ==> glow.rotationX == old(glow.rotationX) && glow.rotationY == old(glow.rotationY)
    ensures glow != null ==> glow.positionY == old(glow.positionY) && glow.opacity == old(glow.opacity)
  {
    var w := trig.sin(time * 0.8);
    WaveBounds(w, 0.03, 1.0);
    WaveBounds(w, 0.05, 1.0);
    if sun != null {
      sun.rotationY := time * 0.05;
      var s := w * 0.03 + 1.0;
      sun.scaleX, sun.scaleY, sun.scaleZ := s, s, s;
    }
    if glow != null {
      var s := w * 0.05 + 1.0;
      glow.scaleX, glow.scaleY, glow.scaleZ := s, s, s;
    }
  }

  /** What the scene hands each planet: its record, whether it is selected, and the event its click raises. */
  datatype PlanetProps = PlanetProps(data: Experience, isSelected: bool, onClick: Overlay.Event)

  /** `PlanetSystem`: nothing for empty data, else one planet per record, selected iff its id is the selection. */
  function Planets(data: seq<Experience>, selected: Option<string>): (r: Option<seq<PlanetProps>>)
    ensures r.None? <==> data == []
    ensures r.Some? ==> |r.value| == |data|
    ensures r.Some? ==> forall i :: 0 <= i < |data| ==>
      r.value[i].data == data[i] && (r.value[i].isSelected <==> selected == Some(data[i].id))
      && r.value[i].onClick == Overlay.Click(data[i].id)
  {
    if data == [] then None
    else Some(seq(|data|, i requires 0 <= i < |data| =>
      PlanetProps(data[i], selected == Some(data[i].id), Overlay.Click(data[i].id))))
  }

  /** With the shipped data, clicking planet i marks exactly planet i as selected. */
  lemma ClickSelectsOnePlanet(c: Overlay.Card, i: nat, j: nat)
    requires i < |Experiences| && j < |Experiences|
    ensures var r := Planets(Experiences, c.selected);
      var after := Planets(Experiences, Overlay.Step(c, r.value[i].onClick).selected);
      after.value[j].isSelected <==> i == j
  {
    ExperienceIds();
  }
}
