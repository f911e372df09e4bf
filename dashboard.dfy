/**
 * The wizard controller (`Dashboard`): the table of six steps, the active step index with its
 * next, previous and jump moves, and the workflow record, restored from storage on mount and
 * written back to storage on every merge.
 */
module Dashboard {
  import opened Wrappers
  import opened Workflow
  import opened LocalStorage

  datatype Step = Step(id: string, name: string)

  const Steps: seq<Step> := [
    Step("idea-refiner", "Idea Refiner"),
    Step("prompt-builder", "Prompt Builder"),
    Step("pitch-deck", "Pitch Deck"),
    Step("video-script", "Video Script"),
    Step("mvp-kit", "MVP Kit"),
    Step("checklist", "Checklist")]

  const LastStep: nat := |Steps| - 1

  /** `handleNext` on a step index: one step on, except at the last step. */
  function NextStep(i: nat): (r: nat)
    ensures i <= LastStep ==> r <= LastStep
    ensures r == i <==> i >= LastStep
    ensures i < LastStep ==> r == i + 1
  {
    if i < LastStep then i + 1 else i
  }

  /** `handlePrevious` on a step index: one step back, except at the first step. */
  function PreviousStep(i: nat): (r: nat)
    ensures r <= i
    ensures r == i <==> i == 0
    ensures i > 0 ==> r == i - 1
  {
    if i > 0 then i - 1 else i
  }

  /** Going on and then back returns to any step before the last. */
  lemma NextThenPrevious(i: nat)
    requires i < LastStep
    ensures PreviousStep(NextStep(i)) == i
  {
  }

  /** Going back and then on returns to any step after the first. */
  lemma PreviousThenNext(i: nat)
    requires 0 < i <= LastStep
    ensures NextStep(PreviousStep(i)) == i
  {
  }

  /** The workflow record the wizard starts from: the stored one when it parses, else the empty record. */
  function Restored(items: map<string, Value>): (w: WorkflowData)
    ensures (WorkflowKey !in items || !items[WorkflowKey].WorkflowRecord?) ==> w == Empty
    ensures WorkflowKey in items && items[WorkflowKey].WorkflowRecord? ==> w == items[WorkflowKey].workflow
  {
    if WorkflowKey in items && items[WorkflowKey].WorkflowRecord? then items[WorkflowKey].workflow else Empty
  }

  /** A record written by a merge is the one the next mount restores. */
  lemma RestoreAfterWrite(items: map<string, Value>, w: WorkflowData)
    ensures Restored(Written(items, None, WorkflowKey, WorkflowRecord(w))) == w
  {
  }

  class Wizard {
    var step: nat
    var data: WorkflowData
    const store: Storage

    ghost predicate Valid()
      reads this
    {
      step <= LastStep
    }

    /** Mounting: the first step, and the workflow record restored from the store. */
    constructor (store: Storage)
      ensures Valid() && this.store == store
      ensures step == 0 && data == Restored(store.items)
    {
      this.store := store;
      step := 0;
      data := Restored(store.items);
    }

    /** The `canGoNext` flag handed to every step. */
    function CanGoNext(): (r: bool)
      reads this
      ensures r <==> NextStep(step) != step
    {
      step < LastStep
    }

    /** The `canGoPrevious` flag handed to every step. */
    function CanGoPrevious(): (r: bool)
      reads this
      ensures r <==> PreviousStep(step) != step
    {
      step > 0
    }

    method Next()
      requires Valid()
      modifies this`step
      ensures Valid() && step == NextStep(old(step))
    {
      if step < LastStep {
        step := step + 1;
      }
    }

    method Previous()
      requires Valid()
      modifies this`step
      ensures Valid() && step == PreviousStep(old(step))
    {
      if step > 0 {
        step := step - 1;
      }
    }

    /** `goToStep`: any step of the table, with no check of what the earlier steps produced. */
    method GoTo(i: nat)
      requires i <= LastStep
      modifies this`step
      ensures Valid() && step == i
    {
      step := i;
    }

    /** `updateWorkflowData`: merge the partial record and write the result through to the store. */
    method UpdateWorkflowData(p: Patch)
      modifies this`data, store
      ensures data == Merge(old(data), p)
      ensures store.writeError == old(store.writeError)
      ensures store.items == Written(old(store.items), store.writeError, WorkflowKey, WorkflowRecord(data))
    {
      data := Merge(data, p);
      var _ := store.TrySet(WorkflowKey, WorkflowRecord(data));
    }
  }
}
