/**
 * Step 5 of the wizard (`MVPKit`): asks the gateway for the MVP kit, keeps it on screen and in
 * the workflow record, and saves a project built from it to the project list.
 */
module MvpKitStep {
  import opened Wrappers
  import opened Text
  import opened ApiTypes
  import opened Api
  import opened Workflow
  import opened Records
  import opened LocalStorage
  import opened Dashboard

  const Incomplete := "Please complete the previous steps first."

  const KitFailure := "Failed to generate MVP kit. Please try again."

  const MvpKitSuffix := "-mvp-kit.json"

  /** The error shown for a failed generation: the thrown message, or a fixed text for a non-error value. */
  function ErrorText(e: ApiError): (r: string)
    ensures e.Thrown? ==> r == e.message
    ensures e.NotAnError? ==> r == KitFailure
  {
    match e
    case Thrown(m) => m
    case NotAnError => KitFailure
  }

  /** The project saved for a kit: its title, description and stack, marked generated. */
  function KitProject(kit: MvpKit): (d: ProjectDraft)
    ensures d.title == kit.title && d.description == kit.description && d.techStack == kit.techStack
    ensures d.status == Generated
  {
    ProjectDraft(kit.title, kit.description, kit.techStack, Generated)
  }

  /** The store after a kit arrives: the workflow record written, then the project appended to the list. */
  function KitSaved(items: map<string, Value>, writeError: Option<string>, w: WorkflowData, p: Project): map<string, Value> {
    Written(Written(items, writeError, WorkflowKey, WorkflowRecord(w)), writeError, ProjectsKey, ProjectList(ProjectsIn(items) + [p]))
  }

  /** Once saved, the project list is the old one with the new project at the end, and the workflow reads back as written. */
  lemma KitSavedContents(items: map<string, Value>, w: WorkflowData, p: Project)
    ensures ProjectsIn(KitSaved(items, None, w, p)) == ProjectsIn(items) + [p]
    ensures Restored(KitSaved(items, None, w, p)) == w
  {
    var once := items[WorkflowKey := WorkflowRecord(w)];
    assert Lookup(KitSaved(items, None, w, p), ProjectsKey) == Some(ProjectList(ProjectsIn(items) + [p]));
    assert KitSaved(items, None, w, p)[WorkflowKey] == WorkflowRecord(w);
  }

  /** The download name: the kit's title with white space runs hyphenated, lower-cased, then the suffix. */
  function DownloadName(title: string): (r: string)
    ensures NoSpace(r)
    ensures r == Slug(title) + MvpKitSuffix
  {
    SlugFileNameHasNoSpace(title, MvpKitSuffix);
    Slug(title) + MvpKitSuffix
  }

  class MvpKitGenerator {
    const wizard: Wizard
    var mvpKit: Option<MvpKit>
    var isGenerating: bool
    var error: Option<string>

    ghost predicate Valid()
      reads this, wizard
    {
      wizard.Valid()
    }

    /** Mounting: the kit the workflow already holds, if any, and no error. */
    constructor (wizard: Wizard)
      requires wizard.Valid()
      ensures Valid() && this.wizard == wizard
      ensures mvpKit == wizard.data.mvpKit && !isGenerating && error == None
    {
      this.wizard := wizard;
      mvpKit := wizard.data.mvpKit;
      isGenerating := false;
      error := None;
    }

    /** The guard of `generateMVPKit`: both the idea and its refined description are present. */
    predicate Ready()
      reads this, wizard
    {
      wizard.data.originalIdea != "" && wizard.data.refinedDescription != ""
    }

    /**
     * What a generation that passed its guard leaves behind. A kit is shown, merged into the
     * workflow, and saved as a generated project under the given id and times. A failure shows
     * its message and changes neither the kit, the workflow nor the store.
     */
    twostate predicate Generated(g: Gateway, id: string, createdAt: string, updatedAt: string)
      reads this, wizard, wizard.store
    {
      var r := GenerateMvpKit(g, old(wizard.data.originalIdea), old(wizard.data.refinedDescription));
      !isGenerating && wizard.store.writeError == old(wizard.store.writeError)
      && (r.Success? ==>
            mvpKit == Some(r.value) && error == None
            && wizard.data == Merge(old(wizard.data), SetMvpKit(r.value))
            && wizard.store.items == KitSaved(old(wizard.store.items), wizard.store.writeError, wizard.data,
                 Project(id, r.value.title, r.value.description, r.value.techStack, createdAt, updatedAt, Status.Generated)))
      && (r.Failure? ==>
            mvpKit == old(mvpKit) && error == Some(r.error.message)
            && wizard.data == old(wizard.data) && wizard.store.items == old(wizard.store.items))
    }

    /** `generateMVPKit`. The clock values are the new project's id and times. */
    method Generate(g: Gateway, id: string, createdAt: string, updatedAt: string)
      requires Valid()
      modifies this`mvpKit, this`isGenerating, this`error, wizard`data, wizard.store
      ensures Valid()
      ensures !old(Ready()) ==>
        error == Some(Incomplete) && mvpKit == old(mvpKit) && isGenerating == old(isGenerating)
        && wizard.data == old(wizard.data) && unchanged(wizard.store)
      ensures old(Ready()) ==> Generated(g, id, createdAt, updatedAt)
    {
      if wizard.data.originalIdea == "" || wizard.data.refinedDescription == "" {
        error := Some(Incomplete);
        return;
      }
      isGenerating := true;
      error := None;
      var r := GenerateMvpKit(g, wizard.data.originalIdea, wizard.data.refinedDescription);
      if r.Success? {
        Save(r.value, id, createdAt, updatedAt);
      } else {
        error := Some(ErrorText(r.error));
      }
      isGenerating := false;
    }

    /** The `try` block after a kit arrives: show it, merge it into the workflow, save the project. */
    method Save(kit: MvpKit, id: string, createdAt: string, updatedAt: string)
      requires Valid()
      modifies this`mvpKit, wizard`data, wizard.store
      ensures Valid() && wizard.store.writeError == old(wizard.store.writeError)
      ensures mvpKit == Some(kit) && wizard.data == Merge(old(wizard.data), SetMvpKit(kit))
      ensures wizard.store.items == KitSaved(old(wizard.store.items), wizard.store.writeError, wizard.data,
                Project(id, kit.title, kit.description, kit.techStack, createdAt, updatedAt, Status.Generated))
    {
      mvpKit := Some(kit);
      wizard.UpdateWorkflowData(SetMvpKit(kit));
      if wizard.store.writeError.None? {
        CollectionsIndependent(old(wizard.store.items), WorkflowKey, WorkflowRecord(wizard.data));
        KeysDistinct("");
      }
      var _ := wizard.store.AddProject(KitProject(kit), id, createdAt, updatedAt);
    }

    /** The condition of the mount effect: a refined description, no kit yet and no generation running. */
    predicate AutoGenerates()
      reads this, wizard
    {
      wizard.data.refinedDescription != "" && mvpKit.None? && !isGenerating
    }

    method Mount(g: Gateway, id: string, createdAt: string, updatedAt: string)
      requires Valid()
      modifies this`mvpKit, this`isGenerating, this`error, wizard`data, wizard.store
      ensures Valid()
      ensures !old(AutoGenerates()) ==> unchanged(this) && unchanged(wizard) && unchanged(wizard.store)
      ensures old(AutoGenerates()) && !old(Ready()) ==>
        error == Some(Incomplete) && mvpKit == old(mvpKit) && isGenerating == old(isGenerating)
        && wizard.data == old(wizard.data) && unchanged(wizard.store)
      ensures old(AutoGenerates()) && old(Ready()) ==> Generated(g, id, createdAt, updatedAt)
    {
      if wizard.data.refinedDescription != "" && mvpKit.None? && !isGenerating {
        Generate(g, id, createdAt, updatedAt);
      }
    }

    /** `handleRetry`: clear the error and generate again. */
    method Retry(g: Gateway, id: string, createdAt: string, updatedAt: string)
      requires Valid()
      modifies this`mvpKit, this`isGenerating, this`error, wizard`data, wizard.store
      ensures Valid()
      ensures !old(Ready()) ==>
        error == Some(Incomplete) && mvpKit == old(mvpKit) && isGenerating == old(isGenerating)
        && wizard.data == old(wizard.data) && unchanged(wizard.store)
      ensures old(Ready()) ==> Generated(g, id, createdAt, updatedAt)
    {
      error := None;
      Generate(g, id, createdAt, updatedAt);
    }

    /** `handleDownload`: the export name, or nothing while no kit exists. */
    function FileName(): (r: Option<string>)
      reads this
      ensures r.Some? <==> mvpKit.Some?
      ensures r.Some? ==> NoSpace(r.value)
      ensures r.Some? ==> r.value == Slug(mvpKit.value.title) + MvpKitSuffix
    {
      if mvpKit.Some? then Some(DownloadName(mvpKit.value.title)) else None
    }

    /** `handleNext`: on only with a kit and a later step. */
    method HandleNext()
      requires Valid()
      modifies wizard`step
      ensures Valid()
      ensures wizard.step == if old(mvpKit).Some? then NextStep(old(wizard.step)) else old(wizard.step)
    {
      if mvpKit.Some? && wizard.CanGoNext() {
        wizard.Next();
      }
    }

    /** `handlePrevious`: back only when an earlier step exists. */
    method HandlePrevious()
      requires Valid()
      modifies wizard`step
      ensures Valid() && wizard.step == PreviousStep(old(wizard.step))
    {
      if wizard.CanGoPrevious() {
        wizard.Previous();
      }
    }
  }
}
