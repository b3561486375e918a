/**
 * The page (app/page.tsx): a mounted flag, four load flags that timers set
 * at 100, 200, 300 and 400 ms after the first effect, and a render that
 * shows a placeholder until mounted and then the landing section and each
 * loaded section, every one inside its own error boundary, all inside an
 * outer boundary.
 */
module Home {
  import opened Wrappers
  import ErrorBoundary

  /** The lazily loaded sections, in page order: experience, lab, skills, thank-you. */
  const Delays: seq<nat> := [100, 200, 300, 400]

  /** Flags set in page order: a later section is loaded only when every earlier one is. */
  predicate InOrder(flags: seq<bool>)
  {
    forall i, j :: 0 <= i < j < |flags| && flags[j] ==> flags[i]
  }

  /** The flags that the timers have set after `elapsed` ms. */
  function LoadedAt(elapsed: nat): (flags: seq<bool>)
    ensures |flags| == 4
  {
    [elapsed >= Delays[0], elapsed >= Delays[1], elapsed >= Delays[2], elapsed >= Delays[3]]
  }

  /** Because the delays strictly increase, the set of loaded sections is always a prefix of the page order. */
  lemma LoadedIsPrefix(elapsed: nat)
    ensures InOrder(LoadedAt(elapsed))
    ensures forall k :: 0 <= k < 4 ==> (LoadedAt(elapsed)[k] <==> elapsed >= Delays[k])
  {
  }

  /** The component's state hooks and whether its timers are still scheduled. */
  class Page {
    var mounted: bool
    var loadOrbital: bool
    var loadLab: bool
    var loadSkills: bool
    var loadThankYou: bool
    /** Milliseconds since the effect ran. */
    var elapsed: nat
    /** The effect has scheduled its timers and they have not been cleared. */
    var armed: bool

    function Loaded(): seq<bool>
      reads this
    {
      [loadOrbital, loadLab, loadSkills, loadThankYou]
    }

    ghost predicate Valid()
      reads this
    {
      InOrder(Loaded()) &&
      (!mounted ==> !armed && Loaded() == [false, false, false, false]) &&
      (armed ==> Loaded() == LoadedAt(elapsed))
    }

    constructor ()
      ensures Valid() && !mounted && !armed && elapsed == 0
      ensures Loaded() == [false, false, false, false]
    {
      mounted, elapsed, armed := false, 0, false;
      loadOrbital, loadLab, loadSkills, loadThankYou := false, false, false, false;
    }

    /** The effect: set `mounted` and schedule the four timers. */
    method Mount()
      requires Valid() && !mounted
      modifies this
      ensures Valid() && mounted && armed && elapsed == 0
      ensures Loaded() == [false, false, false, false]
    {
      mounted := true;
      elapsed := 0;
      armed := true;
    }

    /**
     * `ms` milliseconds pass and every due timer sets its flag. Flags are
     * only ever set, never cleared; after teardown nothing changes.
     */
    method Tick(ms: nat)
      requires Valid()
      modifies this
      ensures Valid() && elapsed == old(elapsed) + ms && mounted == old(mounted) && armed == old(armed)
      ensures forall k :: 0 <= k < 4 && old(Loaded())[k] ==> Loaded()[k]
      ensures armed ==> forall k :: 0 <= k < 4 ==> (Loaded()[k] <==> elapsed >= Delays[k])
      ensures !armed ==> Loaded() == old(Loaded())
    {
      elapsed := elapsed + ms;
      if armed {
        if elapsed >= 100 { loadOrbital := true; }
        if elapsed >= 200 { loadLab := true; }
        if elapsed >= 300 { loadSkills := true; }
        if elapsed >= 400 { loadThankYou := true; }
      }
    }

    /** The effect's cleanup clears all four timers. */
    method Teardown()
      requires Valid()
      modifies this
      ensures Valid() && !armed && Loaded() == old(Loaded()) && mounted == old(mounted) && elapsed == old(elapsed)
    {
      armed := false;
    }
  }

  /** Unmounting 250 ms in leaves exactly the first two sections loaded, however long one waits afterwards. */
  method EarlyTeardownScenario(wait: nat) returns (loaded: seq<bool>)
    ensures loaded == [true, true, false, false]
  {
    var page := new Page();
    page.Mount();
    page.Tick(250);
    page.Teardown();
    page.Tick(wait);
    loaded := page.Loaded();
  }

  /** One slot of the page per section: landing first, then the four lazy ones. */
  const SectionCount: nat := 5

  /** The section-specific fallbacks. */
  const Fallbacks: seq<ErrorBoundary.Node> := [
    ErrorBoundary.Element("Landing section unavailable"),
    ErrorBoundary.Element("Experience section unavailable"),
    ErrorBoundary.Element("Lab section unavailable"),
    ErrorBoundary.Element("Skills section unavailable"),
    ErrorBoundary.Element("Thank you section unavailable")]

  /** What the page shows. */
  datatype Screen =
    | Placeholder
    | Failed(shown: ErrorBoundary.Node)
    | Sections(slots: seq<Option<ErrorBoundary.Node>>)

  /** Slot k: the landing always, any other section only when its flag is set, in its own boundary. */
  function Slot(flags: seq<bool>, boundaries: seq<ErrorBoundary.BoundaryState>, content: seq<ErrorBoundary.Node>, k: nat)
    : Option<ErrorBoundary.Node>
    requires |flags| == 4 && |boundaries| == SectionCount && |content| == SectionCount && k < SectionCount
  {
    if k == 0 || flags[k - 1] then Some(ErrorBoundary.View(boundaries[k], content[k], Some(Fallbacks[k]))) else None
  }

  function Slots(flags: seq<bool>, boundaries: seq<ErrorBoundary.BoundaryState>, content: seq<ErrorBoundary.Node>)
    : (r: seq<Option<ErrorBoundary.Node>>)
    requires |flags| == 4 && |boundaries| == SectionCount && |content| == SectionCount
    ensures |r| == SectionCount
  {
    seq(SectionCount, k requires 0 <= k < SectionCount => Slot(flags, boundaries, content, k))
  }

  /** The render: the placeholder before mount, then the outer boundary around the five slots. */
  function Render(mounted: bool, flags: seq<bool>, outer: ErrorBoundary.BoundaryState,
                  boundaries: seq<ErrorBoundary.BoundaryState>, content: seq<ErrorBoundary.Node>): Screen
    requires |flags| == 4 && |boundaries| == SectionCount && |content| == SectionCount
  {
    if !mounted then Placeholder
    else if outer.hasError then Failed(ErrorBoundary.View(outer, ErrorBoundary.Element("main"), None))
    else Sections(Slots(flags, boundaries, content))
  }

  /**
   * Before mount only the placeholder shows, whatever the flags. Once
   * mounted (and the outer boundary is clear) the landing slot is always
   * filled and slot k > 0 is filled exactly when its flag is set.
   */
  lemma RenderFollowsFlags(mounted: bool, flags: seq<bool>, outer: ErrorBoundary.BoundaryState,
                           boundaries: seq<ErrorBoundary.BoundaryState>, content: seq<ErrorBoundary.Node>)
    requires |flags| == 4 && |boundaries| == SectionCount && |content| == SectionCount
    ensures !mounted ==> Render(mounted, flags, outer, boundaries, content) == Placeholder
    ensures mounted && outer.hasError ==> Render(mounted, flags, outer, boundaries, content) == Failed(ErrorBoundary.DefaultErrorScreen)
    ensures mounted && !outer.hasError ==>
      Render(mounted, flags, outer, boundaries, content).Sections? &&
      Render(mounted, flags, outer, boundaries, content).slots[0].Some? &&
      forall k :: 1 <= k < SectionCount ==> (Render(mounted, flags, outer, boundaries, content).slots[k].Some? <==> flags[k - 1])
  {
  }

  /**
   * An error caught by one section's boundary changes only that section's
   * slot, which then shows the section's own fallback; every other slot is
   * exactly as before.
   */
  lemma SectionErrorIsolated(flags: seq<bool>, boundaries: seq<ErrorBoundary.BoundaryState>,
                             content: seq<ErrorBoundary.Node>, k: nat, e: string)
    requires |flags| == 4 && |boundaries| == SectionCount && |content| == SectionCount && k < SectionCount
    ensures forall j :: 0 <= j < SectionCount && j != k ==>
      Slots(flags, boundaries[k := ErrorBoundary.StateFromError(e)], content)[j] == Slots(flags, boundaries, content)[j]
    ensures (k == 0 || flags[k - 1]) ==>
      Slots(flags, boundaries[k := ErrorBoundary.StateFromError(e)], content)[k] == Some(Fallbacks[k])
  {
  }
}
