/**
 * One UFO of the lab (components/three/UFO.tsx): a `hovered` state, a ring
 * of eight coloured lights, and a frame callback that bobs and turns the
 * craft, eases its scale, pulses the beam and spins the lights, each part
 * only when its ref is attached.
 */
module Ufo {
  import opened Numeric
  import Scene

  const SelectedScale: real := 1.15
  const HoverScale: real := 1.1
  const RestScale: real := 1.0
  const Ease: real := 0.1

  /** `isSelected ? 1.15 : hovered ? 1.1 : 1`. */
  function TargetScale(selected: bool, hovered: bool): real
  {
    if selected then SelectedScale else if hovered then HoverScale else RestScale
  }

  /** Selection takes precedence over hovering; the three targets are distinct. */
  lemma TargetPrecedence(selected: bool, hovered: bool)
    ensures selected ==> TargetScale(selected, hovered) == TargetScale(selected, !hovered)
    ensures TargetScale(selected, hovered) == 1.15 <==> selected
    ensures TargetScale(selected, hovered) == 1.1 <==> !selected && hovered
    ensures TargetScale(selected, hovered) == 1.0 <==> !selected && !hovered
  {
  }

  /** A selected UFO closes in on 1.15: after n frames the distance left is 0.9^n of the initial one. */
  lemma SelectedEasesIn(s: real, hovered: bool, n: nat)
    ensures TargetScale(true, hovered) - LerpSteps(s, TargetScale(true, hovered), Ease, n) == Power(0.9, n) * (1.15 - s)
  {
    LerpConverges(s, 1.15, 0.1, n);
  }

  /** `Math.sin(time * 0.5) * 0.3`. */
  function Bob(trig: Trig, time: real): (y: real)
    ensures -0.3 <= y <= 0.3
  {
    WaveBounds(trig.sin(time * 0.5), 0.3, 0.0);
    trig.sin(time * 0.5) * 0.3
  }

  /** `Math.sin(time * 2) * 0.1 + 0.9`. */
  function Pulse(trig: Trig, time: real): (p: real)
    ensures 0.8 <= p <= 1.0
  {
    WaveBounds(trig.sin(time * 2.0), 0.1, 0.9);
    trig.sin(time * 2.0) * 0.1 + 0.9
  }

  /** The beam's opacity, a pulse times 0.3, stays within [0.24, 0.3]. */
  lemma BeamOpacityBounds(trig: Trig, time: real)
    ensures 0.24 <= Pulse(trig, time) * 0.3 <= 0.3
  {
    var p := Pulse(trig, time);
    assert 0.8 * 0.3 <= p * 0.3 <= 1.0 * 0.3;
  }

  /** One light of the ring: its place and its colour. */
  datatype Light = Light(x: real, z: real, color: string)

  const LightCount: nat := 8
  const Cyan: string := "#00ffff"
  const Magenta: string := "#ff00ff"
  const Yellow: string := "#ffff00"

  /** `i % 3 === 0 ? '#00ffff' : i % 3 === 1 ? '#ff00ff' : '#ffff00'`. */
  function LightColor(i: nat): string
  {
    if i % 3 == 0 then Cyan else if i % 3 == 1 then Magenta else Yellow
  }

  /** The ring reads cyan, magenta, yellow, cyan, magenta, yellow, cyan, magenta, and neighbours always differ. */
  lemma LightColors()
    ensures forall i :: 0 <= i < LightCount ==>
      LightColor(i) == [Cyan, Magenta, Yellow, Cyan, Magenta, Yellow, Cyan, Magenta][i]
    ensures forall i :: 0 <= i < LightCount - 1 ==> LightColor(i) != LightColor(i + 1)
  {
  }

  /** Light i of the ring: at angle i/8 * 2 pi on the circle of radius 2, coloured by i mod 3. */
  function LightAt(trig: Trig, i: nat): Light
  {
    var angle := (i as real) / (LightCount as real) * Pi * 2.0;
    Light(trig.cos(angle) * 2.0, trig.sin(angle) * 2.0, LightColor(i))
  }

  /** Every light of the ring lies on the circle of radius 2 about the craft's axis. */
  lemma LightOnCircle(trig: Trig, i: nat)
    ensures LightAt(trig, i).x * LightAt(trig, i).x + LightAt(trig, i).z * LightAt(trig, i).z == 4.0
  {
    var angle := (i as real) / (LightCount as real) * Pi * 2.0;
    var c, s := trig.cos(angle), trig.sin(angle);
    assert (c * 2.0) * (c * 2.0) + (s * 2.0) * (s * 2.0) == 4.0 * (c * c + s * s);
  }

  /** The `useMemo` loop: the eight lights of `LightAt`, in order. */
  method LightPositions(trig: Trig) returns (lights: seq<Light>)
    ensures |lights| == LightCount
    ensures forall i :: 0 <= i < LightCount ==> lights[i] == LightAt(trig, i)
    ensures forall i :: 0 <= i < LightCount ==> lights[i].color == LightColor(i)
    ensures forall i :: 0 <= i < LightCount ==> lights[i].x * lights[i].x + lights[i].z * lights[i].z == 4.0
  {
    lights := [];
    var i := 0;
    while i < LightCount
      invariant 0 <= i <= LightCount && |lights| == i
      invariant forall m :: 0 <= m < i ==> lights[m] == LightAt(trig, m)
    {
      var angle := (i as real) / (LightCount as real) * Pi * 2.0;
      lights := lights + [Light(trig.cos(angle) * 2.0, trig.sin(angle) * 2.0, if i % 3 == 0 then Cyan else if i % 3 == 1 then Magenta else Yellow)];
      i := i + 1;
    }
    forall i | 0 <= i < LightCount
      ensures lights[i].x * lights[i].x + lights[i].z * lights[i].z == 4.0
    {
      LightOnCircle(trig, i);
    }
  }

  class Craft {
    var hovered: bool

    constructor ()
      ensures !hovered
    {
      hovered := false;
    }

    method PointerOver()
      modifies this
      ensures hovered
    {
      hovered := true;
    }

    method PointerOut()
      modifies this
      ensures !hovered
    {
      hovered := false;
    }

    /**
     * The frame callback at clock `time`. Each of the three parts is updated
     * only when its own ref is attached, independently of the others.
     */
    method Frame(craft: Scene.Object3D?, beam: Scene.Object3D?, lights: Scene.Object3D?,
                 trig: Trig, time: real, selected: bool)
      requires craft != null && beam != null ==> craft != beam
      requires craft != null && lights != null ==> craft != lights
      requires beam != null && lights != null ==> beam != lights
      modifies craft, beam, lights
      ensures craft != null ==> craft.positionY == Bob(trig, time) && craft.rotationY == time * 0.5
      ensures craft != null ==>
        var target := TargetScale(selected, hovered);
        craft.scaleX == Lerp(old(craft.scaleX), target, Ease) &&
        craft.scaleY == Lerp(old(craft.scaleY), target, Ease) &&
        craft.scaleZ == Lerp(old(craft.scaleZ), target, Ease)
      ensures craft != null ==> craft.rotationX == old(craft.rotationX) && craft.opacity == old(craft.opacity)
      ensures beam != null ==>
        beam.scaleX == Pulse(trig, time) && beam.scaleY == 1.0 && beam.scaleZ == Pulse(trig, time) &&
        beam.opacity == Pulse(trig, time) * 0.3
      ensures beam != null ==>
        beam.rotationX == old(beam.rotationX) && beam.rotationY == old(beam.rotationY) && beam.positionY == old(beam.positionY)
      ensures lights != null ==> lights.rotationY == time * 3.0
      ensures lights != null ==> lights.positionY == old(lights.positionY) && lights.opacity == old(lights.opacity)
      ensures lights != null ==>
        lights.rotationX == old(lights.rotationX) &&
        lights.scaleX == old(lights.scaleX) && lights.scaleY == old(lights.scaleY) && lights.scaleZ == old(lights.scaleZ)
    {
      if craft != null {
        craft.positionY := trig.sin(time * 0.5) * 0.3;
        craft.rotationY := time * 0.5;
        var targetScale := if selected then 1.15 else if hovered then 1.1 else 1.0;
        craft.scaleX := craft.scaleX + (targetScale - craft.scaleX) * 0.1;
        craft.scaleY := craft.scaleY + (targetScale - craft.scaleY) * 0.1;
        craft.scaleZ := craft.scaleZ + (targetScale - craft.scaleZ) * 0.1;
      }
      if beam != null {
        var pulse := trig.sin(time * 2.0) * 0.1 + 0.9;
        beam.scaleX, beam.scaleY, beam.scaleZ := pulse, 1.0, pulse;
        beam.opacity := pulse * 0.3;
      }
      if lights != null {
        lights.rotationY := time * 3.0;
      }
    }
  }
}
