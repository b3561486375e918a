/**
 * One skill sphere (components/three/SkillSphere.tsx): two pieces of React
 * state, `hovered` and `clicked`, and a frame callback that floats the mesh,
 * turns it a fixed step per frame and eases its scale towards a target.
 */
module SkillSphere {
  import opened Numeric
  import Scene

  const HoverScale: real := 1.4
  const ClickedScale: real := 1.3
  const RestScale: real := 1.0
  const Ease: real := 0.15

  /** `hovered ? 1.4 : clicked ? 1.3 : 1`. */
  function TargetScale(hovered: bool, clicked: bool): real
  {
    if hovered then HoverScale else if clicked then ClickedScale else RestScale
  }

  /** Hover takes precedence over the click state; the three targets are distinct, so the target tells the state. */
  lemma TargetPrecedence(hovered: bool, clicked: bool)
    ensures hovered ==> TargetScale(hovered, clicked) == TargetScale(hovered, !clicked)
    ensures TargetScale(hovered, clicked) == 1.4 <==> hovered
    ensures TargetScale(hovered, clicked) == 1.3 <==> !hovered && clicked
    ensures TargetScale(hovered, clicked) == 1.0 <==> !hovered && !clicked
  {
  }

  /** `position[1] + Math.sin(elapsed * 0.5 + position[0]) * 0.2`. */
  function FloatY(trig: Trig, elapsed: real, position: Vec3): (y: real)
    ensures position.y - 0.2 <= y <= position.y + 0.2
  {
    WaveBounds(trig.sin(elapsed * 0.5 + position.x), 0.2, position.y);
    position.y + trig.sin(elapsed * 0.5 + position.x) * 0.2
  }

  class Sphere {
    var hovered: bool
    var clicked: bool

    constructor ()
      ensures !hovered && !clicked
    {
      hovered, clicked := false, false;
    }

    method PointerOver()
      modifies this
      ensures hovered && clicked == old(clicked)
    {
      hovered := true;
    }

    method PointerOut()
      modifies this
      ensures !hovered && clicked == old(clicked)
    {
      hovered := false;
    }

    /** `handleClick`: toggle `clicked`, then call `onClick` when one was given. */
    method Click(hasOnClick: bool) returns (calledOnClick: bool)
      modifies this
      ensures clicked == !old(clicked) && hovered == old(hovered)
      ensures calledOnClick == hasOnClick
    {
      clicked := !clicked;
      calledOnClick := hasOnClick;
    }

    /**
     * The frame callback, if the mesh ref is attached: set the mesh's local
     * height to `FloatY`, add 0.005 to the y rotation (per frame, whatever
     * the frame's length), and take one lerp step of 0.15 towards the target.
     * The mesh sits inside a group already placed at `position`, so the
     * height in the scene is position[1] + FloatY: the source adds the
     * vertical offset twice, as written. The model keeps that, and
     * `positionY` here is the local height.
     */
    method Frame(mesh: Scene.Object3D?, trig: Trig, elapsed: real, position: Vec3)
      modifies mesh
      ensures mesh != null ==> mesh.positionY == FloatY(trig, elapsed, position)
      ensures mesh != null ==> mesh.rotationY == old(mesh.rotationY) + 0.005 && mesh.rotationX == old(mesh.rotationX)
      ensures mesh != null ==>
        var target := TargetScale(hovered, clicked);
        mesh.scaleX == Lerp(old(mesh.scaleX), target, Ease) &&
        mesh.scaleY == Lerp(old(mesh.scaleY), target, Ease) &&
        mesh.scaleZ == Lerp(old(mesh.scaleZ), target, Ease)
      ensures mesh != null ==> mesh.opacity == old(mesh.opacity)
    {
      if mesh != null {
        mesh.positionY := position.y + trig.sin(elapsed * 0.5 + position.x) * 0.2;
        mesh.rotationY := mesh.rotationY + 0.005;
        var targetScale := if hovered then 1.4 else if clicked then 1.3 else 1.0;
        mesh.scaleX := mesh.scaleX + (targetScale - mesh.scaleX) * 0.15;
        mesh.scaleY := mesh.scaleY + (targetScale - mesh.scaleY) * 0.15;
        mesh.scaleZ := mesh.scaleZ + (targetScale - mesh.scaleZ) * 0.15;
      }
    }
  }

  /** Two clicks restore the click state, and call `onClick` each time when one was given. */
  method DoubleClickRestores(hovered: bool, clicked: bool, hasOnClick: bool)
    returns (after: bool, calls: nat)
    ensures after == clicked
    ensures calls == if hasOnClick then 2 else 0
  {
    var s := new Sphere();
    if hovered {
      s.PointerOver();
    }
    if clicked {
      var _ := s.Click(false);
    }
    var first := s.Click(hasOnClick);
    var second := s.Click(hasOnClick);
    after := s.clicked;
    calls := (if first then 1 else 0) + (if second then 1 else 0);
  }

  /**
   * Held over a sphere, the scale closes in on 1.4: after n frames the
   * distance left is 0.85^n of the initial one.
   */
  lemma HoverEasesIn(s: real, n: nat)
    ensures TargetScale(true, false) - LerpSteps(s, TargetScale(true, false), Ease, n) == Power(0.85, n) * (1.4 - s)
  {
    LerpConverges(s, 1.4, 0.15, n);
  }
}
