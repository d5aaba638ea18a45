/**
  * The top-level container (src/App.tsx): its own `openModal` normaliser,
  * which copies a clicked record and fills in `techStack` and `year`, the
  * `selectedItem` flag that drives the project modal, and the
  * `isTerminalOpen` flag wired between the Hero's contact button and the
  * terminal.
  */
module App {
  import opened JsValues
  import Data
  import AITerminal
  import ProjectModal

  /** The default year used when a record carries none. */
  const DefaultYear: string := "2025"

  /** `{ ...item, techStack: item.tech || item.techStack || [],
      year: item.year || "2025" }`. */
  function OpenModalRecord(item: JsRecord): (r: JsRecord)
    ensures r.Keys == item.Keys + {"techStack", "year"}
    ensures forall k :: k in item && k != "techStack" && k != "year" ==> r[k] == item[k]
    ensures Truthy(Get(item, "tech")) ==> r["techStack"] == item["tech"]
    ensures !Truthy(Get(item, "tech")) && Truthy(Get(item, "techStack")) ==> r["techStack"] == item["techStack"]
    ensures !Truthy(Get(item, "tech")) && !Truthy(Get(item, "techStack")) ==> r["techStack"] == Array([])
    ensures Truthy(Get(item, "year")) ==> r["year"] == item["year"]
    ensures !Truthy(Get(item, "year")) ==> r["year"] == Str(DefaultYear)
    // the modal therefore always has a tech list and a non-empty year
    ensures Truthy(r["techStack"]) && Truthy(r["year"])
  {
    item + map["techStack" := Or(Get(item, "tech"), Or(Get(item, "techStack"), Array([]))),
               "year" := Or(Get(item, "year"), Str(DefaultYear))]
  }

  /** For a project record `openModal` and `toModalData` agree on every field
      the modal shows. */
  lemma OpenModalAgreesOnProjects(p: Data.ProjectItem)
    ensures var r := OpenModalRecord(Data.ProjectRecord(p));
      var m := Data.ToModalData(Data.Proj(p));
      && r["title"] == Str(m.title)
      && r["year"] == Str(m.year)
      && r["description"] == Str(m.description)
      && r["techStack"] == StrArray(m.techStack)
      && Get(r, "imageUrl") == (if m.imageUrl.Some? then Str(m.imageUrl.value) else Undefined)
  {
    Data.ProjectRecordFields(p);
  }

  /** For an experience record `openModal` keeps the bare description, where
      `toModalData` prefixes the company; the years agree exactly when the
      record's year is non-empty (an empty one becomes "2025"). */
  lemma OpenModalOnExperience(e: Data.ExperienceItem)
    ensures var r := OpenModalRecord(Data.ExperienceRecord(e));
      var m := Data.ToModalData(Data.Exp(e));
      && r["title"] == Str(m.title)
      && r["techStack"] == StrArray(m.techStack)
      && r["description"] == Str(e.description)
      && r["description"] != Str(m.description)
      && (r["year"] == Str(m.year) <==> e.year != "")
  {
    Data.ExperienceDescriptionPrefixed(e);
  }

  /** The page's state: the record shown in the modal (null when none) and
      whether the Hero asked for the terminal. */
  class Page {
    var selectedItem: Option<JsRecord>
    var isTerminalOpen: bool

    constructor ()
      ensures selectedItem == None && !isTerminalOpen
    {
      selectedItem := None;
      isTerminalOpen := false;
    }

    /** The modal's `isOpen` prop, `!!selectedItem`: a record object is
        always truthy. */
    predicate ModalOpen()
      reads this
    {
      selectedItem.Some? && Truthy(Object(selectedItem.value))
    }

    /** `openModal(item)`, passed to the timeline and the project grid. */
    method OpenModal(item: JsRecord)
      modifies this
      ensures selectedItem == Some(OpenModalRecord(item)) && ModalOpen()
      ensures isTerminalOpen == old(isTerminalOpen)
    {
      selectedItem := Some(OpenModalRecord(item));
    }

    /** The modal's `onClose`. */
    method CloseModal()
      modifies this
      ensures selectedItem == None && !ModalOpen()
      ensures isTerminalOpen == old(isTerminalOpen)
    {
      selectedItem := None;
    }

    /** The Hero's contact button sets the flag; the terminal sees it through
        its `externalOpen` effect and opens, conversation untouched. */
    method ContactClicked(terminal: AITerminal.Terminal)
      modifies this, terminal
      ensures isTerminalOpen && terminal.isOpen
      ensures selectedItem == old(selectedItem)
      ensures terminal.history == old(terminal.history) && terminal.input == old(terminal.input)
    {
      isTerminalOpen := true;
      terminal.SyncExternalOpen(isTerminalOpen);
    }

    /** The terminal's close handler runs with `onClose` supplied, which
        resets the flag, so a later contact click opens it again. */
    method TerminalClosed(terminal: AITerminal.Terminal)
      modifies this, terminal
      ensures !isTerminalOpen && !terminal.isOpen
      ensures selectedItem == old(selectedItem)
      ensures terminal.history == old(terminal.history) && terminal.input == old(terminal.input)
    {
      var notified := terminal.HandleClose(true);
      if notified {
        isTerminalOpen := false;
      }
    }
  }

  /** The modal's record for a project has an image exactly when the
      project has a non-empty image URL, and none reads back as undefined. */
  lemma ProjectRecordImage(p: Data.ProjectItem)
    ensures var d := Some(OpenModalRecord(Data.ProjectRecord(p)));
      && (ProjectModal.HasImage(d) <==> p.imageUrl.Some? && p.imageUrl.value != "")
      && (p.imageUrl.None? ==> Get(d.value, "imageUrl") == Undefined)
  {
    OpenModalAgreesOnProjects(p);
  }

  /** The page and the modal together: open a record with an image, close
      the modal, open a record without one. The close leaves the flag
      false, so the first render of the second opening outputs the image
      branch with the second record's falsy `imageUrl` as its source; the
      effect then switches to the artifact. That render is committed; whether
      a browser ever paints it is outside the model. */
  method Reopen(a: JsRecord, b: JsRecord) returns (firstFrame: ProjectModal.View, settled: ProjectModal.View)
    requires ProjectModal.HasImage(Some(OpenModalRecord(a)))
    requires !ProjectModal.HasImage(Some(OpenModalRecord(b)))
    ensures firstFrame.Shown? && firstFrame.media == ProjectModal.Image(Get(OpenModalRecord(b), "imageUrl"))
    ensures !Truthy(firstFrame.media.src)
    ensures settled.Shown? && settled.media == ProjectModal.Artifact3D
  {
    var page := new Page();
    var modal := new ProjectModal.Modal();
    page.OpenModal(a);
    var frame := modal.ReceiveProps(page.ModalOpen(), page.selectedItem);
    page.CloseModal();
    frame := modal.ReceiveProps(page.ModalOpen(), page.selectedItem);
    page.OpenModal(b);
    firstFrame := modal.ReceiveProps(page.ModalOpen(), page.selectedItem);
    settled := modal.View();
  }

  /** On the site: after the Chronos project (which has an image), the
      content-classification project (which has none) is first rendered as
      an `<img>` with an undefined source. */
  method ReopenWithoutImage() returns (firstFrame: ProjectModal.View, settled: ProjectModal.View)
    ensures firstFrame.Shown? && firstFrame.media == ProjectModal.Image(Undefined)
    ensures settled.Shown? && settled.media == ProjectModal.Artifact3D
  {
    var withImage := Data.Chronos;
    var withoutImage := Data.ContentClassification;
    assert withImage.imageUrl.Some? && withImage.imageUrl.value != "";
    assert withoutImage.imageUrl.None?;
    ProjectRecordImage(withImage);
    ProjectRecordImage(withoutImage);
    firstFrame, settled := Reopen(Data.ProjectRecord(withImage), Data.ProjectRecord(withoutImage));
  }
}
