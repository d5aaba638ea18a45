/**
  * One node of the experience timeline (src/components/TimelineNode.tsx):
  * which side of the centre line the card sits on, how the card, its tags
  * and its decorations are mirrored for that side, at most three tech tags,
  * the staggered entry delay, and the two click targets.
  */
module TimelineNode {
  import opened JsValues

  datatype Side = Left | Right

  /** The node's props; `onClick` is whatever action the parent supplies. */
  datatype Props<Action> = Props(
    year: string,
    title: string,
    description: string,
    side: Side,
    index: nat,
    techStack: Option<seq<string>>,
    onClick: Option<Action>)

  predicate IsLeft(side: Side)
  {
    side == Left
  }

  /** `techStack && techStack.slice(0, 3)`: no tag row without a list, and
      otherwise the list's first three entries, or all of a shorter one. */
  function TechTags(techStack: Option<seq<string>>): (tags: Option<seq<string>>)
    ensures tags.Some? <==> techStack.Some?
    ensures techStack.Some? ==>
      |tags.value| == (if |techStack.value| < 3 then |techStack.value| else 3)
      && tags.value == techStack.value[..|tags.value|]
  {
    match techStack
    case None => None
    case Some(ts) => Some(ts[..if |ts| < 3 then |ts| else 3])
  }

  /** Every tag shown is one of the node's technologies, at its own
      position, and a list of three or more always shows three. */
  lemma TagsAreLeadingTech(techStack: seq<string>, i: nat)
    requires i < |TechTags(Some(techStack)).value|
    ensures i < 3 && TechTags(Some(techStack)).value[i] == techStack[i]
  {
  }

  datatype Justify = Start | End

  /** The side-dependent choices of the layout, at desktop width. */
  datatype Layout = Layout(
    rowReversed: bool,      // `md:flex-row-reverse` on the row
    cardTextRight: bool,    // `md:text-right` on the card
    tagsJustify: Justify,   // `md:justify-end` / `justify-start` on the tags
    hoverShift: int,        // the card's `x` on hover
    circuitOnRight: bool)   // the decorative line's anchor

  function LayoutFor(side: Side): (l: Layout)
    ensures IsLeft(side) ==> l.rowReversed && l.cardTextRight && l.tagsJustify == End && l.circuitOnRight
    ensures !IsLeft(side) ==> !l.rowReversed && !l.cardTextRight && l.tagsJustify == Start && !l.circuitOnRight
    ensures l.hoverShift == (if IsLeft(side) then -5 else 5)
  {
    var isLeft := IsLeft(side);
    Layout(isLeft, isLeft, if isLeft then End else Start, if isLeft then -5 else 5, isLeft)
  }

  /** The two sides are mirror images: every choice flips, and the card
      moves away from the centre line on hover either way. */
  lemma LayoutsMirror()
    ensures LayoutFor(Left).rowReversed != LayoutFor(Right).rowReversed
    ensures LayoutFor(Left).cardTextRight != LayoutFor(Right).cardTextRight
    ensures LayoutFor(Left).tagsJustify != LayoutFor(Right).tagsJustify
    ensures LayoutFor(Left).circuitOnRight != LayoutFor(Right).circuitOnRight
    ensures LayoutFor(Left).hoverShift == -LayoutFor(Right).hoverShift
  {
  }

  /** The entry transition's delay in seconds: `index * 0.15`. */
  function EntryDelay(index: nat): (d: real)
    ensures d >= 0.0
  {
    index as real * 15.0 / 100.0
  }

  /** Nodes appear in order, 0.15 s apart. */
  lemma DelaysStaggered(index: nat)
    ensures EntryDelay(index + 1) == EntryDelay(index) + 0.15
    ensures EntryDelay(0) == 0.0
  {
  }

  /** The two elements a visitor can click. */
  datatype ClickTarget = Connector | Card

  /** The action a click triggers: the connector and the card both call the
      node's one `onClick`, and with no handler a click does nothing. */
  function OnClick<Action>(p: Props<Action>, target: ClickTarget): (a: Option<Action>)
    ensures a == p.onClick
    ensures p.onClick.None? ==> a.None?
  {
    p.onClick
  }

  /** Which of the two elements is clicked makes no difference. */
  lemma ClickTargetsAgree<Action>(p: Props<Action>)
    ensures OnClick(p, Connector) == OnClick(p, Card)
  {
  }
}
