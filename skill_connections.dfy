/**
 * The connection lines of the skills scene
 * (components/three/SkillConnections.tsx): the connections flattened into
 * one coordinate list, read three numbers per vertex, and a material whose
 * opacity breathes with the clock.
 */
module SkillConnections {
  import opened Numeric
  import opened Starfield
  import Skills
  import Scene

  /**
   * The `forEach` that pushes the start and then the end triple of each
   * connection. Read as an attribute of item size 3, the list holds exactly
   * two vertices per connection.
   */
  method Flatten(connections: seq<Skills.Connection>) returns (points: seq<real>)
    ensures |points| == 6 * |connections|
    ensures |points| % 3 == 0 && |points| / 3 == 2 * |connections|
    ensures forall k :: 0 <= k < |connections| ==>
      At(points, 2 * k) == connections[k].start && At(points, 2 * k + 1) == connections[k].end
  {
    points := [];
    var k := 0;
    while k < |connections|
      invariant 0 <= k <= |connections| && |points| == 6 * k
      invariant forall m :: 0 <= m < k ==>
        At(points, 2 * m) == connections[m].start && At(points, 2 * m + 1) == connections[m].end
    {
      var start, end := connections[k].start, connections[k].end;
      points := points + [start.x, start.y, start.z];
      points := points + [end.x, end.y, end.z];
      k := k + 1;
    }
    TriplesOfSix(|connections|);
  }

  /** A list of 6n numbers splits into exactly 2n triples. */
  lemma TriplesOfSix(n: nat)
    ensures (6 * n) % 3 == 0 && (6 * n) / 3 == 2 * n
  {
  }

  /** `0.25 + Math.sin(elapsedTime * 0.3) * 0.08`. */
  function LineOpacity(trig: Trig, elapsed: real): (o: real)
    ensures 0.17 <= o <= 0.33
  {
    WaveBounds(trig.sin(elapsed * 0.3), 0.08, 0.25);
    0.25 + trig.sin(elapsed * 0.3) * 0.08
  }

  /** The frame callback: set the material's opacity, if the ref is attached. */
  method Frame(lines: Scene.Object3D?, trig: Trig, elapsed: real)
    modifies lines
    ensures lines != null ==> lines.opacity == LineOpacity(trig, elapsed)
    ensures lines != null ==> lines.rotationX == old(lines.rotationX) && lines.rotationY == old(lines.rotationY)
    ensures lines != null ==> lines.positionY == old(lines.positionY) && lines.scaleX == old(lines.scaleX)
    ensures lines != null ==> lines.scaleY == old(lines.scaleY) && lines.scaleZ == old(lines.scaleZ)
  {
    if lines != null {
      lines.opacity := 0.25 + trig.sin(elapsed * 0.3) * 0.08;
    }
  }
}
