/**
 * The part of a three.js object that the frame callbacks write: rotation,
 * vertical position, scale and the opacity of its material. A React ref that
 * is not attached yet is `null`.
 */
module Scene {

  class Object3D {
    var rotationX: real
    var rotationY: real
    var positionY: real
    var scaleX: real
    var scaleY: real
    var scaleZ: real
    var opacity: real

    constructor ()
      ensures rotationX == 0.0 && rotationY == 0.0 && positionY == 0.0
      ensures scaleX == 1.0 && scaleY == 1.0 && scaleZ == 1.0 && opacity == 1.0
    {
      rotationX, rotationY, positionY := 0.0, 0.0, 0.0;
      scaleX, scaleY, scaleZ := 1.0, 1.0, 1.0;
      opacity := 1.0;
    }
  }

  /**
   * A delta-driven spin, `rotation.y += delta * rateY; rotation.x += delta * rateX`,
   * skipped when the ref is absent. Nothing else of the object changes.
   */
  method Spin(obj: Object3D?, delta: real, rateY: real, rateX: real)
    modifies obj
    ensures obj != null ==> obj.rotationY == old(obj.rotationY) + delta * rateY
    ensures obj != null ==> obj.rotationX == old(obj.rotationX) + delta * rateX
    ensures obj != null ==> obj.positionY == old(obj.positionY) && obj.opacity == old(obj.opacity)
    ensures obj != null ==> obj.scaleX == old(obj.scaleX) && obj.scaleY == old(obj.scaleY) && obj.scaleZ == old(obj.scaleZ)
  {
    if obj != null {
      obj.rotationY := obj.rotationY + delta * rateY;
      obj.rotationX := obj.rotationX + delta * rateX;
    }
  }

  /**
   * Frame-rate independence: from the same starting rotation, an object spun
   * by two frames of lengths d1 and d2 ends where another spun by one frame
   * of length d1 + d2 does.
   */
  method SpinIsFrameRateIndependent(a: Object3D, b: Object3D, d1: real, d2: real, rateY: real, rateX: real)
    requires a != b
    requires a.rotationY == b.rotationY && a.rotationX == b.rotationX
    modifies a, b
    ensures a.rotationY == b.rotationY && a.rotationX == b.rotationX
    ensures b.rotationY == old(b.rotationY) + (d1 + d2) * rateY && b.rotationX == old(b.rotationX) + (d1 + d2) * rateX
  {
    Spin(a, d1, rateY, rateX);
    Spin(a, d2, rateY, rateX);
    Spin(b, d1 + d2, rateY, rateX);
    assert a.rotationY == old(a.rotationY) + d1 * rateY + d2 * rateY;
    assert a.rotationX == old(a.rotationX) + d1 * rateX + d2 * rateX;
  }
}
