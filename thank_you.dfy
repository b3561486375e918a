/**
 * The closing section (components/sections/ThankYou.tsx): a cyan-and-white
 * starfield and the letter-by-letter title.
 */
module ThankYou {
  import opened Numeric
  import opened Starfield
  import Scene

  const StarCount: nat := 1500
  const Cyan: Vec3 := Vec3(0.4, 0.9, 1.0)
  const Pale: Vec3 := Vec3(0.9, 0.9, 1.0)

  /** Radius `60 + Math.random() * 40`; a star is cyan when its fourth draw exceeds 0.85. */
  const Stars: Tinted := Tinted(60.0, 40.0, 0.85, Cyan, Pale)

  /** The starfield buffers: 1500 stars in the shell [60, 100), each cyan exactly when its colour draw exceeds 0.85. */
  method FillStarfield(rnd: Random, trig: Trig) returns (positions: array<real>, colors: array<real>)
    ensures positions.Length == 3 * StarCount && colors.Length == 3 * StarCount
    ensures forall k :: 0 <= k < StarCount ==> At(positions[..], k) == Star(rnd, trig, 4, k, 60.0, 40.0)
    ensures forall k :: 0 <= k < StarCount ==> 3600.0 <= NormSq(At(positions[..], k)) < 10000.0
    ensures forall k :: 0 <= k < StarCount ==> (At(colors[..], k) == Cyan <==> rnd(4 * k + 3) > 0.85)
    ensures forall k :: 0 <= k < StarCount ==> At(colors[..], k) == Cyan || At(colors[..], k) == Pale
  {
    positions, colors := FillTinted(StarCount, rnd, trig, Stars);
    forall k | 0 <= k < StarCount
      ensures 3600.0 <= NormSq(At(positions[..], k)) < 10000.0
    {
      StarInShell(rnd, trig, 4, k, 60.0, 40.0);
    }
  }

  /** The frame callback: delta * 0.02 about y and delta * 0.005 about x, if the ref is attached. */
  method StarfieldFrame(stars: Scene.Object3D?, delta: real)
    modifies stars
    ensures stars != null ==> stars.rotationY == old(stars.rotationY) + delta * 0.02
    ensures stars != null ==> stars.rotationX == old(stars.rotationX) + delta * 0.005
    ensures stars != null ==> stars.positionY == old(stars.positionY) && stars.opacity == old(stars.opacity)
    ensures stars != null ==> stars.scaleX == old(stars.scaleX) && stars.scaleY == old(stars.scaleY) && stars.scaleZ == old(stars.scaleZ)
  {
    Scene.Spin(stars, delta, 0.02, 0.005);
  }

  /** The title's letters, in order. */
  const Letters: seq<char> := ['T', 'H', 'A', 'N', 'K', ' ', 'Y', 'O', 'U']

  /** A non-breaking space, so the gap keeps its width inside an inline block. */
  const NoBreakSpace: char := '\U{00A0}'

  /** One animated span: what it shows and its delay in seconds. */
  datatype Glyph = Glyph(shown: char, delay: real)

  /** The `map` over the letters: a space becomes a non-breaking space, and letter i waits 0.4 + 0.1 i seconds. */
  function Title(letters: seq<char>): (r: seq<Glyph>)
    ensures |r| == |letters|
    ensures forall i :: 0 <= i < |letters| ==> (r[i].shown == NoBreakSpace <==> letters[i] == ' ' || letters[i] == NoBreakSpace)
    ensures forall i :: 0 <= i < |letters| && letters[i] != ' ' ==> r[i].shown == letters[i]
    ensures forall i :: 0 <= i < |letters| ==> r[i].delay == 0.4 + (i as real) * 0.1
  {
    seq(|letters|, i requires 0 <= i < |letters| =>
      Glyph(if letters[i] == ' ' then NoBreakSpace else letters[i], 0.4 + (i as real) * 0.1))
  }

  /** The shipped title has nine glyphs; only the sixth is a (non-breaking) space, and each starts strictly after the one before. */
  lemma ShippedTitle()
    ensures |Title(Letters)| == 9
    ensures forall i :: 0 <= i < 9 ==> (Title(Letters)[i].shown == NoBreakSpace <==> i == 5)
    ensures forall i, j :: 0 <= i < j < 9 ==> Title(Letters)[i].delay < Title(Letters)[j].delay
  {
  }
}
