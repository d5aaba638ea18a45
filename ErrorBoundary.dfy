/**
  * The error boundary around the 3D view (src/components/ErrorBoundary.tsx).
  * Its state records whether a child has thrown and what; once set, nothing
  * clears it. Rendering shows the children until then, and afterwards the
  * caller's fallback when one is given, or a default panel whose message is
  * the error's own or a fixed WebGL notice.
  */
module ErrorBoundary {

  /** A thrown value: usually an Error object with a message, but JavaScript
      can throw anything, `null` included. */
  datatype Thrown = NullValue | ErrorObject(message: string) | OtherValue

  /** A React node, as far as truthiness is concerned: `null`, `undefined`
      and `false` render nothing and are falsy, as are `0` and `""`. */
  datatype Node = Empty | BoolNode(b: bool) | NumberNode(n: real) | TextNode(s: string) | Element(tag: string)

  predicate NodeTruthy(n: Node)
  {
    match n
    case Empty => false
    case BoolNode(b) => b
    case NumberNode(x) => x != 0.0
    case TextNode(s) => s != ""
    case Element(_) => true
  }

  datatype BoundaryState = BoundaryState(hasError: bool, error: Thrown)

  /** `children`, the optional `fallback` (Empty when not passed) and
      whether an `onError` callback was passed. */
  datatype BoundaryProps = BoundaryProps(children: Node, fallback: Node, hasOnError: bool)

  datatype Output = Children(node: Node) | Fallback(node: Node) | DefaultPanel(message: string)

  const DefaultMessage: string :=
    "Unable to load 3D visualization. This may be due to WebGL compatibility issues."

  /** The constructor's state. */
  const InitialState: BoundaryState := BoundaryState(false, NullValue)

  /** `getDerivedStateFromError(error)`. */
  function DerivedStateFromError(error: Thrown): (s: BoundaryState)
    ensures s.hasError && s.error == error
  {
    BoundaryState(true, error)
  }

  /** `this.state.error?.message || <fixed text>`: only an Error object has
      a message, and an empty one falls back to the fixed text. */
  function PanelMessage(error: Thrown): (m: string)
    ensures m != ""
    ensures error.ErrorObject? && error.message != "" ==> m == error.message
    ensures !(error.ErrorObject? && error.message != "") ==> m == DefaultMessage
  {
    if error.ErrorObject? && error.message != "" then error.message else DefaultMessage
  }

  /** `render()`. */
  function Render(s: BoundaryState, p: BoundaryProps): (o: Output)
    ensures o.Children? <==> !s.hasError
    ensures o.Children? ==> o.node == p.children
    ensures o.Fallback? <==> s.hasError && NodeTruthy(p.fallback)
    ensures o.Fallback? ==> o.node == p.fallback
    ensures o.DefaultPanel? ==> o.message == PanelMessage(s.error)
  {
    if s.hasError then
      if NodeTruthy(p.fallback) then Fallback(p.fallback)
      else DefaultPanel(PanelMessage(s.error))
    else Children(p.children)
  }

  /** `ErrorBoundaryWithFallback`: a boundary given `fallback` and no
      `onError`. */
  function WithFallback(children: Node, fallback: Node): BoundaryProps
  {
    BoundaryProps(children, fallback, false)
  }

  /** A boundary made by `ErrorBoundaryWithFallback` shows its children
      until an error and, after any error, its fallback if truthy and the
      default panel otherwise. */
  lemma WithFallbackRender(children: Node, fallback: Node, e: Thrown)
    ensures Render(InitialState, WithFallback(children, fallback)) == Children(children)
    ensures NodeTruthy(fallback) ==>
      Render(DerivedStateFromError(e), WithFallback(children, fallback)) == Fallback(fallback)
    ensures !NodeTruthy(fallback) ==>
      Render(DerivedStateFromError(e), WithFallback(children, fallback)) == DefaultPanel(PanelMessage(e))
  {
  }

  class Boundary {
    const props: BoundaryProps
    var state: BoundaryState

    constructor (props: BoundaryProps)
      ensures this.props == props && state == InitialState
    {
      this.props := props;
      state := InitialState;
    }

    /** A child throws: the derived state replaces the old one, then
        `componentDidCatch` calls `onError` exactly when it was passed. The
        error flag stays set from here on, since no member clears it. */
    method Catch(error: Thrown) returns (onErrorCalled: bool)
      modifies this
      ensures state == DerivedStateFromError(error) && state.hasError
      ensures onErrorCalled == props.hasOnError
      ensures old(state.hasError) ==> state.hasError
    {
      state := DerivedStateFromError(error);
      onErrorCalled := props.hasOnError;
    }

    function View(): Output
      reads this
    {
      Render(state, props)
    }
  }
}
