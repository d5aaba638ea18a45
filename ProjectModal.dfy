/**
  * The project modal (src/components/ProjectModal.tsx). Its one piece of
  * state, `showArtifact`, picks between the 3D artifact and the record's
  * image: it starts true, is reset to "no image" by an effect whenever the
  * modal opens with a record, and is negated by a toggle that exists only
  * when the record has an image. The effect runs after the render that
  * receives the new record, so that render still uses the previous flag.
  */
module ProjectModal {
  import opened JsValues

  /** `!!data?.imageUrl`: there is a record, and its `imageUrl` is present
      and truthy. */
  predicate HasImage(data: Option<JsRecord>)
    ensures HasImage(data) ==> data.Some? && "imageUrl" in data.value
    ensures HasImage(data) ==> Truthy(data.value["imageUrl"])
  {
    data.Some? && Truthy(Get(data.value, "imageUrl"))
  }

  datatype Media = Artifact3D | Image(src: JsValue)

  /** What the modal puts on screen. */
  datatype View =
    | Nothing
    | Shown(media: Media, toggleShown: bool, title: JsValue, year: JsValue,
            description: JsValue, techStack: JsValue)

  /** The markup selection of the component's render. */
  function Render(isOpen: bool, data: Option<JsRecord>, showArtifact: bool): (v: View)
    ensures v.Shown? <==> isOpen && data.Some?
    ensures v.Shown? ==> v.toggleShown == HasImage(data)
    ensures v.Shown? ==> (v.media == Artifact3D <==> showArtifact)
  {
    if isOpen && data.Some? then
      var d := data.value;
      Shown(if showArtifact then Artifact3D else Image(Get(d, "imageUrl")),
            HasImage(data), Get(d, "title"), Get(d, "year"), Get(d, "description"),
            Get(d, "techStack"))
    else Nothing
  }

  /** While the modal is up with a record that has no image, `showArtifact`
      is true. */
  ghost predicate ArtifactUnlessImage(isOpen: bool, data: Option<JsRecord>, showArtifact: bool)
  {
    isOpen && data.Some? && !HasImage(data) ==> showArtifact
  }

  /** Under that invariant, which holds once the effect has run for the
      current props, the image branch is rendered only for a record that has an
      image. */
  lemma ImageOnlyWithUrl(isOpen: bool, data: Option<JsRecord>, showArtifact: bool)
    requires ArtifactUnlessImage(isOpen, data, showArtifact)
    ensures var v := Render(isOpen, data, showArtifact);
      v.Shown? && v.media.Image? ==> HasImage(data) && Truthy(v.media.src) && v.toggleShown
  {
  }

  /** The render that receives a record without an image while the flag is
      still false from an earlier record outputs the image branch with that
      record's missing (falsy) `imageUrl` as its source. */
  lemma StaleFlagRendersEmptyImage(data: Option<JsRecord>)
    requires data.Some? && !HasImage(data)
    ensures var v := Render(true, data, false);
      v.Shown? && v.media == Image(Get(data.value, "imageUrl")) && !Truthy(v.media.src)
      && !v.toggleShown
  {
  }

  /** The selection the effect's comment describes ("decide what to show
      first"), applied on the same render: a record without an image always
      shows the artifact, whatever the flag says. */
  function RenderDecided(isOpen: bool, data: Option<JsRecord>, showArtifact: bool): (v: View)
    ensures v.Shown? <==> isOpen && data.Some?
    ensures v.Shown? ==> v.toggleShown == HasImage(data)
    ensures v.Shown? ==> (v.media == Artifact3D <==> showArtifact || !HasImage(data))
  {
    Render(isOpen, data, showArtifact || !HasImage(data))
  }

  /** With the decision made on the render itself, no flag value, stale or
      not, puts an `<img>` without a source on screen; where the invariant
      holds, it shows exactly what the component shows. */
  lemma DecidedImageOnlyWithUrl(isOpen: bool, data: Option<JsRecord>, showArtifact: bool)
    ensures var v := RenderDecided(isOpen, data, showArtifact);
      v.Shown? && v.media.Image? ==> HasImage(data) && Truthy(v.media.src) && v.toggleShown
    ensures ArtifactUnlessImage(isOpen, data, showArtifact)
      ==> RenderDecided(isOpen, data, showArtifact) == Render(isOpen, data, showArtifact)
  {
  }

  class Modal {
    var isOpen: bool
    var data: Option<JsRecord>
    var showArtifact: bool

    ghost predicate Valid()
      reads this
    {
      ArtifactUnlessImage(isOpen, data, showArtifact)
    }

    /** Mounted closed with no record; `useState(true)`. */
    constructor ()
      ensures Valid()
      ensures !isOpen && data == None && showArtifact
    {
      isOpen := false;
      data := None;
      showArtifact := true;
    }

    /** New props: first the render with the new props and the flag as it
        was (`firstFrame`), then the `[isOpen, data]` effect: when the modal
        is open with a record, `showArtifact` becomes `!data.imageUrl`;
        otherwise it is left as it was. */
    method ReceiveProps(open: bool, record: Option<JsRecord>) returns (firstFrame: View)
      modifies this
      ensures firstFrame == Render(open, record, old(showArtifact))
      ensures Valid()
      ensures isOpen == open && data == record
      ensures open && record.Some? ==> showArtifact == !HasImage(record)
      ensures !(open && record.Some?) ==> showArtifact == old(showArtifact)
    {
      isOpen, data := open, record;
      firstFrame := Render(isOpen, data, showArtifact);
      if isOpen && data.Some? {
        showArtifact := !HasImage(data);
      }
    }

    /** A click on the toggle: the button is rendered only for an open modal
        whose record has an image, and it only negates `showArtifact`. */
    method ClickToggle()
      requires Valid()
      modifies this
      ensures Valid()
      ensures isOpen == old(isOpen) && data == old(data)
      ensures Render(isOpen, data, old(showArtifact)).Shown? && HasImage(data)
        ==> showArtifact == !old(showArtifact)
      ensures !(Render(isOpen, data, old(showArtifact)).Shown? && HasImage(data))
        ==> showArtifact == old(showArtifact)
    {
      if isOpen && data.Some? && HasImage(data) {
        showArtifact := !showArtifact;
      }
    }

    function View(): View
      reads this
    {
      Render(isOpen, data, showArtifact)
    }
  }
}
