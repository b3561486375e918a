/**
 * The lab section (components/sections/Lab.tsx): three UFOs that select
 * their project through the shared overlay state machine, the project card,
 * and the section's rotating starfield.
 */
module Lab {
  import opened Wrappers
  import opened Numeric
  import Lookup
  import Overlay
  import Scene
  import Starfield
  import opened ProjectsData

  /** The ids the three UFOs set on click, left to right. */
  const UfoIds: seq<string> := ["ufo-1", "ufo-2", "ufo-3"]

  /** `isSelected={selectedUFO === 'ufo-k'}` for the UFO at index k. */
  predicate UfoSelected(c: Overlay.Card, k: nat)
    requires k < |UfoIds|
  {
    c.selected == Some(UfoIds[k])
  }

  /** After clicking UFO k, exactly that UFO is marked selected. */
  lemma ClickMarksOneUfo(c: Overlay.Card, k: nat)
    requires k < |UfoIds|
    ensures forall j :: 0 <= j < |UfoIds| ==> (UfoSelected(Overlay.Step(c, Overlay.Click(UfoIds[k])), j) <==> j == k)
  {
    forall j | 0 <= j < |UfoIds|
      ensures UfoSelected(Overlay.Step(c, Overlay.Click(UfoIds[k])), j) <==> j == k
    {
      assert j != k ==> UfoIds[j] != UfoIds[k];
    }
  }

  /** `projectsData.find(p => p.id === selectedUFO)`. */
  function SelectedProject(c: Overlay.Card): Option<Project>
  {
    Lookup.Find(Projects, IdOf, c.selected)
  }

  /** The card is shown exactly when the selection is the id of a project. */
  lemma CardShownIffKnown(c: Overlay.Card)
    ensures SelectedProject(c).Some? <==> exists i :: 0 <= i < |Projects| && c.selected == Some(Projects[i].id)
  {
    if SelectedProject(c).Some? {
      var i :| 0 <= i < |Projects| && IdOf(Projects[i]) == c.selected.value;
      assert c.selected == Some(Projects[i].id);
    }
  }

  /** Every UFO resolves to its project: clicking UFO k shows project k's card. */
  lemma UfoClickShowsProject(c: Overlay.Card, k: nat)
    requires k < |UfoIds|
    ensures SelectedProject(Overlay.Step(c, Overlay.Click(UfoIds[k]))) == Some(Projects[k])
  {
    ProjectIds();
    assert UfoIds[k] == Projects[k].id;
    Lookup.FindDistinct(Projects, IdOf, k);
  }

  /** The achievements block of the card. */
  function ShownAchievements(p: Project): Option<seq<string>>
  {
    Lookup.Preview(p.achievements)
  }

  /** `selectedProject.link && …`: the button appears only for a present, non-empty link. */
  function ShowsLink(p: Project): (r: bool)
    ensures r <==> p.link.Some? && p.link.value != ""
  {
    match p.link
    case None => false
    case Some(url) => url != ""
  }

  /** Every shipped project has exactly three achievements, so its card lists all of them, and it shows its link. */
  lemma ShippedCards(i: nat)
    requires i < |Projects|
    ensures ShownAchievements(Projects[i]) == Projects[i].achievements
    ensures ShowsLink(Projects[i])
  {
    ProjectContent();
    var a := Projects[i].achievements.value;
    assert a[..3] == a;
  }

  /** The starfield buffer: 1500 stars in the shell of radii 60 .. 100. */
  method FillStarfield(rnd: Random, trig: Trig) returns (positions: array<real>)
    ensures positions.Length == 1500 * 3
    ensures forall k :: 0 <= k < 1500 ==> Starfield.StoredAt(positions, k, Starfield.Star(rnd, trig, 3, k, 60.0, 40.0))
  {
    positions := Starfield.FillShell(1500, rnd, trig, 60.0, 40.0);
  }

  /** Each star of the buffer lies at a distance in [60, 100) from the centre. */
  lemma StarfieldShell(rnd: Random, trig: Trig, k: nat)
    ensures 3600.0 <= NormSq(Starfield.Star(rnd, trig, 3, k, 60.0, 40.0)) < 10000.0
  {
    Starfield.StarInShell(rnd, trig, 3, k, 60.0, 40.0);
  }

  /** The frame callback: spin by delta * 0.05 about y and delta * 0.02 about x, if the ref is attached. */
  method StarfieldFrame(stars: Scene.Object3D?, delta: real)
    modifies stars
    ensures stars != null ==> stars.rotationY == old(stars.rotationY) + delta * 0.05
    ensures stars != null ==> stars.rotationX == old(stars.rotationX) + delta * 0.02
    ensures stars != null ==> stars.positionY == old(stars.positionY) && stars.opacity == old(stars.opacity)
    ensures stars != null ==> stars.scaleX == old(stars.scaleX) && stars.scaleY == old(stars.scaleY) && stars.scaleZ == old(stars.scaleZ)
  {
    Scene.Spin(stars, delta, 0.05, 0.02);
  }
}
