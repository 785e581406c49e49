/**
 * The error boundary that wraps the optional 3D background: once a child
 * has thrown during rendering it shows its fallback from then on.
 */
module ErrorBoundary {
  import opened Wrappers

  /** The component's `state`. */
  datatype BoundaryState = BoundaryState(hasError: bool)

  /** The state a freshly constructed boundary starts in. */
  const InitialState := BoundaryState(false)

  /** `getDerivedStateFromError`: the state after a child has thrown,
      whatever it threw. */
  function DerivedStateFromError<E>(error: E): (s: BoundaryState)
    ensures s.hasError
  {
    BoundaryState(true)
  }

  /** `render`: the children while no error has been caught; afterwards the
      fallback, with `None` (React's `null`) when no fallback was given. */
  function Render<N>(state: BoundaryState, fallback: Option<N>, children: N): (r: Option<N>)
    ensures !state.hasError ==> r == Some(children)
    ensures state.hasError ==> r == fallback
    ensures state.hasError && fallback.None? ==> r.None?
  {
    if state.hasError then fallback else Some(children)
  }

  /** Whatever a boundary catches, every later render shows the fallback:
      deriving state from any error never yields a state that shows the
      children again. */
  lemma CaughtErrorShowsFallback<E, N>(error: E, fallback: Option<N>, children: N)
    ensures Render(DerivedStateFromError(error), fallback, children) == fallback
  {
  }

  /** An `ErrorBoundary` instance. Its only state change is catching an
      error, which sets `hasError`; nothing resets it. */
  class BoundaryComponent {
    var hasError: bool

    constructor ()
      ensures !hasError
    {
      hasError := InitialState.hasError;
    }

    /** A child threw during rendering: React merges the derived state. */
    method Catch<E>(error: E)
      modifies this
      ensures hasError
    {
      hasError := DerivedStateFromError(error).hasError;
    }

    /** What the boundary renders in its current state. */
    function View<N>(fallback: Option<N>, children: N): Option<N>
      reads this
    {
      Render(BoundaryState(hasError), fallback, children)
    }
  }
}
