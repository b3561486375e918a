/**
 * The experience section (components/sections/OrbitalSystem.tsx): the
 * overlay state machine keyed by planet ids, and the card it shows.
 */
module OrbitalSystem {
  import opened Wrappers
  import Lookup
  import Overlay
  import opened ExperienceData

  /** `experienceData.find(p => p.id === selectedPlanet)`. */
  function SelectedData(c: Overlay.Card): Option<Experience>
  {
    Lookup.Find(Experiences, IdOf, c.selected)
  }

  /** The card is shown exactly when the selection is the id of a record, and then it shows that record. */
  lemma CardShownIffKnown(c: Overlay.Card)
    ensures SelectedData(c).Some? <==> exists i :: 0 <= i < |Experiences| && c.selected == Some(Experiences[i].id)
    ensures SelectedData(c).Some? ==> SelectedData(c).value in Experiences && Some(SelectedData(c).value.id) == c.selected
  {
    if SelectedData(c).Some? {
      var i :| 0 <= i < |Experiences| && IdOf(Experiences[i]) == c.selected.value;
      assert c.selected == Some(Experiences[i].id);
    }
  }

  /** Clicking planet i shows the card of record i. */
  lemma PlanetClickShowsCard(c: Overlay.Card, i: nat)
    requires i < |Experiences|
    ensures SelectedData(Overlay.Step(c, Overlay.Click(Experiences[i].id))) == Some(Experiences[i])
  {
    ExperienceFindById(i);
  }

  /**
   * The auto-close effect looks only at the selected id, not at the lookup:
   * an id with no record shows no card and still arms the 5000 ms timer.
   */
  lemma UnknownIdStillArmsTimer(c: Overlay.Card, id: string)
    requires id != "" && !c.hovering && c.selected != Some(id)
    requires forall i :: 0 <= i < |Experiences| ==> Experiences[i].id != id
    ensures SelectedData(Overlay.Step(c, Overlay.Click(id))).None?
    ensures Overlay.Step(c, Overlay.Click(id)).deadline == Some(c.now + Overlay.AutoCloseMs)
  {
    CardShownIffKnown(Overlay.Step(c, Overlay.Click(id)));
  }

  /** The highlights block of a card. */
  function ShownHighlights(e: Experience): Option<seq<string>>
  {
    Lookup.Preview(e.highlights)
  }

  /** Every shipped record has more than three highlights, so its card lists exactly its first three. */
  lemma ShippedHighlights(i: nat)
    requires i < |Experiences|
    ensures ShownHighlights(Experiences[i]) == Some(Experiences[i].highlights.value[..3])
  {
    var h := Experiences[i].highlights.value;
    assert |h| >= 3;
    var r := ShownHighlights(Experiences[i]);
    assert r.Some? && |r.value| == 3;
    assert r.value == h[..3];
  }
}
