/**
  * The viewport-position hook (src/hooks/useViewportPosition.ts). An element
  * is classified against the window: wholly above it, wholly below it, or,
  * when in view, by which third of the window its vertical centre lies in.
  * Measurements are exact reals; the hook's state only stores the latest
  * classification.
  */
module ViewportPosition {
  import opened JsValues

  datatype Position = Above | Top | Center | Bottom | Below

  /** The vertical extent of `getBoundingClientRect()`. */
  datatype Rect = Rect(top: real, bottom: real, height: real)

  /** `threshold = 0` in the options destructuring: an absent option is 0. */
  function ThresholdOf(option: Option<real>): (t: real)
    ensures option.None? ==> t == 0.0
    ensures option.Some? ==> t == option.value
  {
    if option.Some? then option.value else 0.0
  }

  /** The element's vertical centre. */
  function CenterOf(r: Rect): real
  {
    r.top + r.height / 2.0
  }

  /** Neither wholly above nor wholly below the window. */
  predicate InView(r: Rect, windowHeight: real, threshold: real)
  {
    !(r.bottom < threshold) && !(r.top > windowHeight - threshold)
  }

  /** `updatePosition`'s classification. */
  function Classify(r: Rect, windowHeight: real, threshold: real): (p: Position)
    // "above" is checked first and wins over everything else
    ensures p == Above <==> r.bottom < threshold
    ensures p == Below <==> !(r.bottom < threshold) && r.top > windowHeight - threshold
    // inside the window, the thirds of the window height decide
    ensures p == Top <==> InView(r, windowHeight, threshold) && CenterOf(r) < windowHeight / 3.0
    ensures p == Center <==> (InView(r, windowHeight, threshold)
      && windowHeight / 3.0 <= CenterOf(r) < windowHeight / 3.0 * 2.0)
    ensures p == Bottom <==> (InView(r, windowHeight, threshold)
      && windowHeight / 3.0 <= CenterOf(r) && windowHeight / 3.0 * 2.0 <= CenterOf(r))
  {
    if r.bottom < threshold then Above
    else if r.top > windowHeight - threshold then Below
    else
      var elementCenter := CenterOf(r);
      var viewportThird := windowHeight / 3.0;
      if elementCenter < viewportThird then Top
      else if elementCenter < viewportThird * 2.0 then Center
      else Bottom
  }

  /** The thirds are half-open: a centre exactly on the first boundary is
      "center", exactly on the second it is "bottom". */
  lemma BoundariesBelongBelow(r: Rect, windowHeight: real, threshold: real)
    requires InView(r, windowHeight, threshold) && windowHeight > 0.0
    ensures CenterOf(r) == windowHeight / 3.0 ==> Classify(r, windowHeight, threshold) == Center
    ensures CenterOf(r) == windowHeight * 2.0 / 3.0 ==> Classify(r, windowHeight, threshold) == Bottom
  {
  }

  /** Order of the positions from the top of the page to the bottom. */
  function Rank(p: Position): (n: nat)
    ensures n < 5
  {
    match p
    case Above => 0
    case Top => 1
    case Center => 2
    case Bottom => 3
    case Below => 4
  }

  /** The same element `delta` further down (the page scrolled back up by
      `delta`). */
  function ShiftedDown(r: Rect, delta: real): Rect
  {
    Rect(r.top + delta, r.bottom + delta, r.height)
  }

  /** Moving an element down the window never moves its classification up:
      scrolling sweeps every element through the five positions in order. */
  lemma ClassifyMonotone(r: Rect, windowHeight: real, threshold: real, delta: real)
    requires delta >= 0.0
    ensures Rank(Classify(r, windowHeight, threshold))
      <= Rank(Classify(ShiftedDown(r, delta), windowHeight, threshold))
  {
  }

  /** The hook's state. */
  class Tracker {
    const threshold: real
    var position: Position

    /** `useState('below')`, with the threshold option resolved. */
    constructor (option: Option<real>)
      ensures position == Below && threshold == ThresholdOf(option)
    {
      threshold := ThresholdOf(option);
      position := Below;
    }

    /** A mount, scroll or resize: the state becomes the classification of
        the current measurements. */
    method Update(r: Rect, windowHeight: real)
      modifies this
      ensures position == Classify(r, windowHeight, threshold)
    {
      position := Classify(r, windowHeight, threshold);
    }
  }
}
