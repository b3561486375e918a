/**
 * The section error boundary (components/common/ErrorBoundary.tsx): a React
 * class component whose `hasError` flag is set by the error hook and never
 * cleared, and whose `render` chooses between the children, the fallback
 * and a default error screen.
 */
module ErrorBoundary {
  import opened Wrappers

  /**
   * What a React child or fallback can be, as far as JavaScript truthiness
   * sees it: `null`, a boolean, a number, a string, or an element.
   */
  datatype Node =
    | Null
    | Bool(b: bool)
    | Number(n: real)
    | Text(s: string)
    | Element(name: string)
    | DefaultErrorScreen

  /** `x || y` keeps `x` exactly when `x` is truthy. */
  predicate Truthy(n: Node)
  {
    match n
    case Null => false
    case Bool(b) => b
    case Number(x) => x != 0.0
    case Text(s) => s != ""
    case Element(_) => true
    case DefaultErrorScreen => true
  }

  /** The component state; the caught error is kept by its message. */
  datatype BoundaryState = BoundaryState(hasError: bool, error: Option<string>)

  const Initial: BoundaryState := BoundaryState(false, None)

  /** `getDerivedStateFromError`: the state after an error is caught. */
  function StateFromError(e: string): (s: BoundaryState)
    ensures s.hasError && s.error == Some(e)
  {
    BoundaryState(true, Some(e))
  }

  /** `render`: the children without an error; with one, the fallback if it is truthy, else the default screen. */
  function View(state: BoundaryState, children: Node, fallback: Option<Node>): (r: Node)
    ensures !state.hasError ==> r == children
    ensures state.hasError ==> Truthy(r)
    ensures state.hasError && fallback.Some? && Truthy(fallback.value) ==> r == fallback.value
    ensures state.hasError && !(fallback.Some? && Truthy(fallback.value)) ==> r == DefaultErrorScreen
  {
    if state.hasError then
      if fallback.Some? && Truthy(fallback.value) then fallback.value else DefaultErrorScreen
    else children
  }

  /** The state after each error of `errors` has been caught in turn. */
  function AfterErrors(s: BoundaryState, errors: seq<string>): BoundaryState
    decreases |errors|
  {
    if errors == [] then s else AfterErrors(StateFromError(errors[0]), errors[1..])
  }

  /**
   * The flag latches: once an error has been caught it stays set, the state
   * keeps the latest error, and without errors the state is unchanged.
   */
  lemma {:induction false} Latch(s: BoundaryState, errors: seq<string>)
    ensures errors == [] ==> AfterErrors(s, errors) == s
    ensures errors != [] ==> AfterErrors(s, errors) == StateFromError(errors[|errors| - 1])
    ensures s.hasError ==> AfterErrors(s, errors).hasError
    decreases |errors|
  {
    if errors != [] {
      Latch(StateFromError(errors[0]), errors[1..]);
      if |errors| > 1 {
        assert errors[1..][|errors[1..]| - 1] == errors[|errors| - 1];
      }
    }
  }

  /** Once a boundary has caught an error, what it shows no longer depends on its children. */
  lemma ErrorIgnoresChildren(s: BoundaryState, errors: seq<string>, c1: Node, c2: Node, fallback: Option<Node>)
    requires errors != []
    ensures View(AfterErrors(s, errors), c1, fallback) == View(AfterErrors(s, errors), c2, fallback)
  {
    Latch(s, errors);
  }

  /** The component instance: its only state is `this.state`. */
  class Boundary {
    var state: BoundaryState

    constructor ()
      ensures state == Initial
    {
      state := Initial;
    }

    /** React calls the error hook and stores the state it returns. */
    method Catch(e: string)
      modifies this
      ensures state == StateFromError(e)
    {
      state := StateFromError(e);
    }

    /** `render()` reads the current state. */
    function Render(children: Node, fallback: Option<Node>): Node
      reads this
    {
      View(state, children, fallback)
    }
  }

  /** A fresh boundary shows its children; after two errors it shows the fallback and keeps the second error. */
  method TwoErrorsScenario(children: Node, fallback: Node, e1: string, e2: string)
    returns (before: Node, after: Node, kept: Option<string>)
    requires Truthy(fallback)
    ensures before == children && after == fallback && kept == Some(e2)
  {
    var b := new Boundary();
    before := b.Render(children, Some(fallback));
    b.Catch(e1);
    b.Catch(e2);
    after := b.Render(children, Some(fallback));
    kept := b.state.error;
  }
}
