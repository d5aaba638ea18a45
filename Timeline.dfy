/**
  * The experience timeline (src/components/Timeline.tsx): one node per
  * EXPERIENCE entry, in order, alternating sides, describing the entry as
  * "company • description", and selecting the entry itself when clicked.
  */
module Timeline {
  import opened JsValues
  import opened Data
  import TimelineNode

  /** A rendered node: its React key and its props, whose click action is
      the experience item handed to `onSelect`. */
  datatype Entry = Entry(key: int, props: TimelineNode.Props<ExperienceItem>)

  /** `index % 2 === 0 ? 'left' : 'right'`. */
  function SideOf(index: nat): (side: TimelineNode.Side)
    ensures side == TimelineNode.Left <==> index % 2 == 0
  {
    if index % 2 == 0 then TimelineNode.Left else TimelineNode.Right
  }

  /** Consecutive nodes sit on opposite sides, and the first on the left. */
  lemma SidesAlternate(index: nat)
    ensures SideOf(index) != SideOf(index + 1)
    ensures SideOf(0) == TimelineNode.Left
  {
  }

  function EntryFor(item: ExperienceItem, index: nat): Entry
  {
    Entry(item.id,
      TimelineNode.Props(item.year, item.title, item.company + Bullet + item.description,
        SideOf(index), index, Some(item.tech), Some(item)))
  }

  /** The `EXPERIENCE.map(...)` of the component. */
  function Nodes(items: seq<ExperienceItem>): (nodes: seq<Entry>)
    ensures |nodes| == |items|
    ensures forall i :: 0 <= i < |items| ==> nodes[i].key == items[i].id
    ensures forall i :: 0 <= i < |items| ==> nodes[i].props.index == i
    ensures forall i :: 0 <= i < |items| ==>
      nodes[i].props.year == items[i].year && nodes[i].props.title == items[i].title
    ensures forall i :: 0 <= i < |items| ==> nodes[i].props.side == SideOf(i)
    ensures forall i :: 0 <= i < |items| ==> nodes[i].props.techStack == Some(items[i].tech)
    // a click selects the original entry, untouched
    ensures forall i :: 0 <= i < |items| ==> nodes[i].props.onClick == Some(items[i])
  {
    seq(|items|, i requires 0 <= i < |items| => EntryFor(items[i], i))
  }

  /** A node's description is exactly the one the modal shows for the same
      entry. */
  lemma DescriptionMatchesModal(items: seq<ExperienceItem>, i: nat)
    requires i < |items|
    ensures Nodes(items)[i].props.description == ToModalData(Exp(items[i])).description
  {
  }

  /** Clicking either element of a node hands `onSelect` the experience
      entry the node was built from, unmodified. */
  lemma ClickSelectsEntry(items: seq<ExperienceItem>, i: nat, target: TimelineNode.ClickTarget)
    requires i < |items|
    ensures TimelineNode.OnClick(Nodes(items)[i].props, target) == Some(items[i])
  {
  }

  /** The timeline of the site's data: three nodes, left, right, left, whose
      React keys are distinct. */
  lemma SiteTimeline()
    ensures |Nodes(Experience)| == 3
    ensures forall i, j :: 0 <= i < j < 3 ==> Nodes(Experience)[i].key != Nodes(Experience)[j].key
    ensures Nodes(Experience)[0].props.side == TimelineNode.Left
    ensures Nodes(Experience)[1].props.side == TimelineNode.Right
    ensures Nodes(Experience)[2].props.side == TimelineNode.Left
  {
    ExperienceIdsDistinct();
  }
}
