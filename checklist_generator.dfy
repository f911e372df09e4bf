/**
 * Step 6 of the wizard (`ChecklistGenerator`): asks the gateway for a project checklist, keeps it
 * on screen and in the workflow record, and saves it with the workflow to the checklist list.
 */
module ChecklistStep {
  import opened Wrappers
  import opened Text
  import opened ApiTypes
  import opened Api
  import opened Workflow
  import opened Records
  import opened LocalStorage
  import opened Dashboard

  const ChecklistSuffix := "-checklist.json"

  /**
   * The saved record for a checklist: titled by the idea, described by the refined description,
   * and carrying the workflow as it stood before the checklist was merged into it.
   */
  function SavedDraft(w: WorkflowData, c: ProjectChecklist): (d: ChecklistDraft)
    ensures d.title == w.originalIdea && d.description == w.refinedDescription
    ensures d.checklist == c && d.workflowData == w && d.workflowData.checklist == w.checklist
  {
    ChecklistDraft(w.originalIdea, w.refinedDescription, c, w)
  }

  /** The store after a checklist arrives: the workflow record written, then the record appended to the list. */
  function ChecklistSaved(items: map<string, Value>, writeError: Option<string>, w: WorkflowData, c: ChecklistRecord): map<string, Value> {
    Written(Written(items, writeError, WorkflowKey, WorkflowRecord(w)), writeError, ChecklistsKey, ChecklistList(ChecklistsIn(items) + [c]))
  }

  /** Once saved, the checklist list is the old one with the new record at the end, and the workflow reads back as written. */
  lemma ChecklistSavedContents(items: map<string, Value>, w: WorkflowData, c: ChecklistRecord)
    ensures ChecklistsIn(ChecklistSaved(items, None, w, c)) == ChecklistsIn(items) + [c]
    ensures Restored(ChecklistSaved(items, None, w, c)) == w
  {
    assert Lookup(ChecklistSaved(items, None, w, c), ChecklistsKey) == Some(ChecklistList(ChecklistsIn(items) + [c]));
    assert ChecklistSaved(items, None, w, c)[WorkflowKey] == WorkflowRecord(w);
  }

  /** The download name: the idea with white space runs hyphenated, lower-cased, then the suffix. */
  function DownloadName(idea: string): (r: string)
    ensures NoSpace(r)
    ensures r == Slug(idea) + ChecklistSuffix
  {
    SlugFileNameHasNoSpace(idea, ChecklistSuffix);
    Slug(idea) + ChecklistSuffix
  }

  class ChecklistGenerator {
    const wizard: Wizard
    var checklist: Option<ProjectChecklist>
    var isGenerating: bool

    ghost predicate Valid()
      reads this, wizard
    {
      wizard.Valid()
    }

    /** Mounting: the checklist the workflow already holds, if any. */
    constructor (wizard: Wizard)
      requires wizard.Valid()
      ensures Valid() && this.wizard == wizard
      ensures checklist == wizard.data.checklist && !isGenerating
    {
      this.wizard := wizard;
      checklist := wizard.data.checklist;
      isGenerating := false;
    }

    /**
     * What a generation that passed its guard leaves behind. A checklist is shown, merged into
     * the workflow, and saved under the given id and times with the workflow as it was before.
     * A failure changes neither the checklist, the workflow nor the store.
     */
    twostate predicate Generated(g: Gateway, id: string, createdAt: string, updatedAt: string)
      reads this, wizard, wizard.store
    {
      var w := old(wizard.data);
      var r := GenerateChecklist(g, w.originalIdea, w.refinedDescription);
      !isGenerating && wizard.store.writeError == old(wizard.store.writeError)
      && (r.Success? ==>
            checklist == Some(r.value)
            && wizard.data == Merge(w, SetChecklist(r.value))
            && wizard.store.items == ChecklistSaved(old(wizard.store.items), wizard.store.writeError, wizard.data,
                 ChecklistRecord(id, w.originalIdea, w.refinedDescription, r.value, w, createdAt, updatedAt)))
      && (r.Failure? ==>
            checklist == old(checklist) && wizard.data == w && wizard.store.items == old(wizard.store.items))
    }

    /** `generateChecklist`: nothing happens without a refined description. The clock values are the saved record's id and times. */
    method Generate(g: Gateway, id: string, createdAt: string, updatedAt: string)
      requires Valid()
      modifies this`checklist, this`isGenerating, wizard`data, wizard.store
      ensures Valid()
      ensures old(wizard.data.refinedDescription) == "" ==>
        checklist == old(checklist) && isGenerating == old(isGenerating)
        && wizard.data == old(wizard.data) && unchanged(wizard.store)
      ensures old(wizard.data.refinedDescription) != "" ==> Generated(g, id, createdAt, updatedAt)
    {
      if wizard.data.refinedDescription == "" {
        return;
      }
      isGenerating := true;
      var r := GenerateChecklist(g, wizard.data.originalIdea, wizard.data.refinedDescription);
      if r.Success? {
        Save(r.value, id, createdAt, updatedAt);
      }
      isGenerating := false;
    }

    /** The `try` block after a checklist arrives: show it, merge it into the workflow, save the record. */
    method Save(c: ProjectChecklist, id: string, createdAt: string, updatedAt: string)
      requires Valid()
      modifies this`checklist, wizard`data, wizard.store
      ensures Valid() && wizard.store.writeError == old(wizard.store.writeError)
      ensures checklist == Some(c) && wizard.data == Merge(old(wizard.data), SetChecklist(c))
      ensures wizard.store.items == ChecklistSaved(old(wizard.store.items), wizard.store.writeError, wizard.data,
                ChecklistRecord(id, old(wizard.data.originalIdea), old(wizard.data.refinedDescription), c, old(wizard.data), createdAt, updatedAt))
    {
      var before := wizard.data;
      checklist := Some(c);
      wizard.UpdateWorkflowData(SetChecklist(c));
      if wizard.store.writeError.None? {
        CollectionsIndependent(old(wizard.store.items), WorkflowKey, WorkflowRecord(wizard.data));
        KeysDistinct("");
      }
      var _ := wizard.store.AddChecklist(SavedDraft(before, c), id, createdAt, updatedAt);
    }

    /** The condition of the mount effect: a refined description and a kit, no checklist yet and no generation running. */
    predicate AutoGenerates()
      reads this, wizard
    {
      wizard.data.refinedDescription != "" && wizard.data.mvpKit.Some? && checklist.None? && !isGenerating
    }

    method Mount(g: Gateway, id: string, createdAt: string, updatedAt: string)
      requires Valid()
      modifies this`checklist, this`isGenerating, wizard`data, wizard.store
      ensures Valid()
      ensures !old(AutoGenerates()) ==> unchanged(this) && unchanged(wizard) && unchanged(wizard.store)
      ensures old(AutoGenerates()) ==> Generated(g, id, createdAt, updatedAt)
    {
      if wizard.data.refinedDescription != "" && wizard.data.mvpKit.Some? && checklist.None? && !isGenerating {
        Generate(g, id, createdAt, updatedAt);
      }
    }

    /** `downloadChecklist`: the name the export is offered under. */
    function FileName(): (r: string)
      reads this, wizard
      ensures NoSpace(r)
      ensures r == Slug(wizard.data.originalIdea) + ChecklistSuffix
    {
      DownloadName(wizard.data.originalIdea)
    }

    /** The Previous button: back only when an earlier step exists. */
    method HandlePrevious()
      requires Valid()
      modifies wizard`step
      ensures Valid() && wizard.step == PreviousStep(old(wizard.step))
    {
      if wizard.CanGoPrevious() {
        wizard.Previous();
      }
    }
  }
}
