/**
 * The selection overlay shared by the experience section
 * (components/sections/OrbitalSystem.tsx) and the lab section
 * (components/sections/Lab.tsx): a selected id or none, a hover flag, and an
 * effect that, while something is selected and the cursor is off the card,
 * schedules a 5000 ms timer clearing the selection.
 *
 * Time is explicit: `now` is the clock in milliseconds and `deadline` is the
 * moment the pending timer fires, if one is pending. React state semantics
 * are modelled as they behave: a setter called with the value already held
 * changes nothing and does not re-run the effect; a change to either value
 * runs the effect's cleanup (cancelling the pending timer) and then the
 * effect, which schedules a fresh full-length timer when the condition holds.
 */
module Overlay {
  import opened Wrappers

  const AutoCloseMs: nat := 5000

  /** The effect's condition `selected && !isHovering`; an empty id is falsy. */
  predicate Armed(selected: Option<string>, hovering: bool)
  {
    selected.Some? && selected.value != "" && !hovering
  }

  datatype Card = Card(selected: Option<string>, hovering: bool, now: nat, deadline: Option<nat>)

  /** The user's actions and the passing of time. */
  datatype Event = Click(id: string) | Close | Enter | Leave | Wait(ms: nat)

  /** Both hooks start empty and no timer is pending. */
  const Initial: Card := Card(None, false, 0, None)

  /** A timer is pending exactly while the condition holds, and it fires within the next 5000 ms. */
  predicate Valid(c: Card)
  {
    (c.deadline.Some? <==> Armed(c.selected, c.hovering)) &&
    (c.deadline.Some? ==> c.now < c.deadline.value <= c.now + AutoCloseMs)
  }

  /** Setting the two hooks, then the effect if either changed. */
  function Commit(c: Card, selected: Option<string>, hovering: bool): Card
  {
    if selected == c.selected && hovering == c.hovering then c
    else Card(selected, hovering, c.now,
              if Armed(selected, hovering) then Some(c.now + AutoCloseMs) else None)
  }

  /**
   * One event: a click selects its id (`handlePlanetClick`, or the UFO's
   * `onClick`), close clears the selection, enter and leave set the hover
   * flag, and waiting fires the pending timer if its moment comes.
   */
  function Step(c: Card, e: Event): Card
  {
    match e
    case Click(id) => Commit(c, Some(id), c.hovering)
    case Close => Commit(c, None, c.hovering)
    case Enter => Commit(c, c.selected, true)
    case Leave => Commit(c, c.selected, false)
    case Wait(ms) =>
      var later := c.(now := c.now + ms);
      if c.deadline.Some? && c.deadline.value <= c.now + ms then Commit(later, None, c.hovering)
      else later
  }

  function Run(c: Card, events: seq<Event>): Card
    decreases |events|
  {
    if events == [] then c else Run(Step(c, events[0]), events[1..])
  }

  lemma InitialValid()
    ensures Valid(Initial)
  {
  }

  /** Every event keeps the timer consistent with the condition. */
  lemma StepValid(c: Card, e: Event)
    requires Valid(c)
    ensures Valid(Step(c, e))
  {
  }

  lemma {:induction false} RunValid(c: Card, events: seq<Event>)
    requires Valid(c)
    ensures Valid(Run(c, events))
    decreases |events|
  {
    if events != [] {
      StepValid(c, events[0]);
      RunValid(Step(c, events[0]), events[1..]);
    }
  }

  /**
   * A click replaces the selection outright and leaves the hover flag as it
   * was. Clicking a different id (re-)arms a full timer when the condition
   * holds; clicking the id already selected changes nothing at all, so a
   * running timer is not reset.
   */
  lemma ClickSelects(c: Card, id: string)
    ensures Step(c, Click(id)).selected == Some(id) && Step(c, Click(id)).hovering == c.hovering
    ensures c.selected == Some(id) ==> Step(c, Click(id)) == c
    ensures c.selected != Some(id) ==>
      Step(c, Click(id)).deadline == (if id != "" && !c.hovering then Some(c.now + AutoCloseMs) else None)
  {
  }

  /** Close clears the selection and any pending timer, and leaves the hover flag unchanged. */
  lemma CloseClears(c: Card)
    requires Valid(c)
    ensures Step(c, Close).selected == None && Step(c, Close).deadline == None
    ensures Step(c, Close).hovering == c.hovering
  {
  }

  /** Enter and leave set the hover flag; entering the card cancels the timer. */
  lemma HoverSets(c: Card)
    requires Valid(c)
    ensures Step(c, Enter).hovering && Step(c, Enter).deadline == None
    ensures !Step(c, Leave).hovering
    ensures Step(c, Enter).selected == c.selected && Step(c, Leave).selected == c.selected
  {
  }

  /** Waiting closes the card exactly when the pending timer's moment is reached. */
  lemma WaitFires(c: Card, ms: nat)
    requires Valid(c) && c.selected.Some?
    ensures Step(c, Wait(ms)).selected == None <==> c.deadline.Some? && c.deadline.value <= c.now + ms
    ensures Step(c, Wait(ms)).now == c.now + ms
    ensures Step(c, Wait(ms)).hovering == c.hovering
  {
  }

  /** A fresh selection with the cursor off the card closes after exactly 5000 ms. */
  lemma AutoClose(c: Card, id: string, ms: nat)
    requires Valid(c) && c.selected != Some(id) && id != "" && !c.hovering
    ensures Step(Step(c, Click(id)), Wait(ms)).selected == (if ms >= AutoCloseMs then None else Some(id))
  {
  }

  /** While the cursor stays on the card, no amount of waiting closes it. */
  lemma {:induction false} HoverHolds(c: Card, waits: seq<nat>)
    requires Valid(c) && c.hovering
    ensures Run(c, WaitsOf(waits)).selected == c.selected
    ensures Run(c, WaitsOf(waits)).hovering
    decreases |waits|
  {
    if waits != [] {
      assert WaitsOf(waits)[0] == Wait(waits[0]);
      assert WaitsOf(waits)[1..] == WaitsOf(waits[1..]);
      StepValid(c, Wait(waits[0]));
      HoverHolds(Step(c, Wait(waits[0])), waits[1..]);
    }
  }

  function WaitsOf(waits: seq<nat>): (r: seq<Event>)
    ensures |r| == |waits|
    ensures forall k :: 0 <= k < |waits| ==> r[k] == Wait(waits[k])
  {
    seq(|waits|, k requires 0 <= k < |waits| => Wait(waits[k]))
  }

  /**
   * Leaving the card restarts the countdown from a full 5000 ms, however
   * long the card had been shown before.
   */
  lemma LeaveRestarts(c: Card, ms: nat)
    requires Valid(c) && c.hovering && c.selected.Some? && c.selected.value != ""
    ensures Step(Step(c, Leave), Wait(ms)).selected == (if ms >= AutoCloseMs then None else c.selected)
  {
  }

  /**
   * The card element carries the hover handlers; closing it while the
   * cursor is on it leaves the flag set, so a later click does not arm the
   * timer until the cursor leaves again.
   */
  lemma HoverSurvivesClose(c: Card, id: string)
    requires Valid(c) && c.hovering && id != ""
    ensures Step(Step(c, Close), Click(id)).selected == Some(id)
    ensures Step(Step(c, Close), Click(id)).deadline == None
  {
  }

  /** The component's two hooks and its pending timer. */
  class CardPresenter {
    var selected: Option<string>
    var hovering: bool
    var now: nat
    var deadline: Option<nat>

    function Snapshot(): Card
      reads this
    {
      Card(selected, hovering, now, deadline)
    }

    /** The timer invariant of `Valid`, on the component's current state. */
    predicate Consistent()
      reads this
    {
      Valid(Snapshot())
    }

    constructor ()
      ensures Snapshot() == Initial && Consistent()
    {
      selected, hovering, now, deadline := None, false, 0, None;
    }

    /** The setter calls followed by the effect, as `Commit` describes. */
    method Apply(sel: Option<string>, hov: bool)
      modifies this
      ensures Snapshot() == Commit(old(Snapshot()), sel, hov)
    {
      if sel != selected || hov != hovering {
        selected, hovering := sel, hov;
        if Armed(sel, hov) {
          deadline := Some(now + AutoCloseMs);
        } else {
          deadline := None;
        }
      }
    }

    method Select(id: string)
      requires Consistent()
      modifies this
      ensures Consistent()
      ensures Snapshot() == Step(old(Snapshot()), Click(id))
      ensures selected == Some(id) && hovering == old(hovering)
    {
      StepValid(Snapshot(), Click(id));
      Apply(Some(id), hovering);
    }

    method Close()
      requires Consistent()
      modifies this
      ensures Consistent()
      ensures Snapshot() == Step(old(Snapshot()), Event.Close)
      ensures selected == None && hovering == old(hovering)
    {
      StepValid(Snapshot(), Event.Close);
      Apply(None, hovering);
    }

    method Enter()
      requires Consistent()
      modifies this
      ensures Consistent()
      ensures Snapshot() == Step(old(Snapshot()), Event.Enter)
      ensures hovering && selected == old(selected)
    {
      StepValid(Snapshot(), Event.Enter);
      Apply(selected, true);
    }

    method Leave()
      requires Consistent()
      modifies this
      ensures Consistent()
      ensures Snapshot() == Step(old(Snapshot()), Event.Leave)
      ensures !hovering && selected == old(selected)
    {
      StepValid(Snapshot(), Event.Leave);
      Apply(selected, false);
    }

    /** `ms` milliseconds pass; the pending timer, if due, clears the selection. */
    method Tick(ms: nat)
      requires Consistent()
      modifies this
      ensures Consistent()
      ensures Snapshot() == Step(old(Snapshot()), Wait(ms))
      ensures now == old(now) + ms && hovering == old(hovering)
    {
      StepValid(Snapshot(), Wait(ms));
      var due := deadline.Some? && deadline.value <= now + ms;
      now := now + ms;
      if due {
        Apply(None, hovering);
      }
    }
  }

  /**
   * Two clicks on different ids: the second replaces the first and restarts
   * the timer, so the card is still open 4999 ms after the second click even
   * if that is more than 5000 ms after the first.
   */
  method ReplaceRestartsScenario(a: string, b: string)
    returns (openAfter: bool, shown: Option<string>, closedAfter: bool)
    requires a != b && a != "" && b != ""
    ensures openAfter && shown == Some(b) && closedAfter
  {
    var p := new CardPresenter();
    p.Select(a);
    p.Tick(3000);
    p.Select(b);
    p.Tick(4999);
    openAfter, shown := p.selected.Some?, p.selected;
    p.Tick(1);
    closedAfter := p.selected == None;
  }

  /** Clicking the selected id again does not reset the timer: the card closes 5000 ms after the first click. */
  method ReclickScenario(a: string)
    returns (closed: bool)
    requires a != ""
    ensures closed
  {
    var p := new CardPresenter();
    p.Select(a);
    p.Tick(3000);
    p.Select(a);
    p.Tick(2000);
    closed := p.selected == None;
  }
}
