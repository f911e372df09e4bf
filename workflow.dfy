/**
 * The workflow record threaded through the six wizard steps, and the field-by-field merge
 * `{ ...prev, ...data }` that every step uses to update it.
 */
module Workflow {
  import opened Wrappers
  import opened ApiTypes

  /** `WorkflowData`; an artifact that is `null` is None. */
  datatype WorkflowData = WorkflowData(
    originalIdea: string,
    refinedDescription: string,
    generatedPrompt: string,
    pitchDeck: Option<PitchDeck>,
    videoScript: Option<VideoScript>,
    mvpKit: Option<MvpKit>,
    checklist: Option<ProjectChecklist>)

  /** `Partial<WorkflowData>`: None is a property the partial record does not carry. */
  datatype Patch = Patch(
    originalIdea: Option<string>,
    refinedDescription: Option<string>,
    generatedPrompt: Option<string>,
    pitchDeck: Option<PitchDeck>,
    videoScript: Option<VideoScript>,
    mvpKit: Option<MvpKit>,
    checklist: Option<ProjectChecklist>)

  /** The record a fresh wizard starts from: three empty strings and four nulls. */
  const Empty := WorkflowData("", "", "", None, None, None, None)

  const NoChange := Patch(None, None, None, None, None, None, None)

  /** The partials the steps pass to `updateWorkflowData`. */
  function Refined(idea: string, description: string): Patch {
    NoChange.(originalIdea := Some(idea), refinedDescription := Some(description))
  }

  function SetPrompt(prompt: string): Patch {
    NoChange.(generatedPrompt := Some(prompt))
  }

  function SetPitchDeck(deck: PitchDeck): Patch {
    NoChange.(pitchDeck := Some(deck))
  }

  function SetVideoScript(script: VideoScript): Patch {
    NoChange.(videoScript := Some(script))
  }

  function SetMvpKit(kit: MvpKit): Patch {
    NoChange.(mvpKit := Some(kit))
  }

  function SetChecklist(checklist: ProjectChecklist): Patch {
    NoChange.(checklist := Some(checklist))
  }

  /** The field a partial record carries wins; every other field keeps its value. */
  function Pick<T>(carried: Option<T>, kept: T): T {
    if carried.Some? then carried.value else kept
  }

  function PickOption<T>(carried: Option<T>, kept: Option<T>): Option<T> {
    if carried.Some? then carried else kept
  }

  /** `{ ...prev, ...data }`. */
  function Merge(w: WorkflowData, p: Patch): (r: WorkflowData)
    ensures p == NoChange ==> r == w
    ensures p.originalIdea.Some? ==> r.originalIdea == p.originalIdea.value
    ensures p.refinedDescription.Some? ==> r.refinedDescription == p.refinedDescription.value
    ensures p.generatedPrompt.Some? ==> r.generatedPrompt == p.generatedPrompt.value
    ensures p.originalIdea.None? ==> r.originalIdea == w.originalIdea
    ensures p.refinedDescription.None? ==> r.refinedDescription == w.refinedDescription
    ensures p.generatedPrompt.None? ==> r.generatedPrompt == w.generatedPrompt
    ensures r.pitchDeck == (if p.pitchDeck.Some? then p.pitchDeck else w.pitchDeck)
    ensures r.videoScript == (if p.videoScript.Some? then p.videoScript else w.videoScript)
    ensures r.mvpKit == (if p.mvpKit.Some? then p.mvpKit else w.mvpKit)
    ensures r.checklist == (if p.checklist.Some? then p.checklist else w.checklist)
  {
    WorkflowData(
      Pick(p.originalIdea, w.originalIdea),
      Pick(p.refinedDescription, w.refinedDescription),
      Pick(p.generatedPrompt, w.generatedPrompt),
      PickOption(p.pitchDeck, w.pitchDeck),
      PickOption(p.videoScript, w.videoScript),
      PickOption(p.mvpKit, w.mvpKit),
      PickOption(p.checklist, w.checklist))
  }

  /** The partial record `{ ...p, ...q }`: q's properties win over p's. */
  function Then(p: Patch, q: Patch): Patch {
    Patch(
      PickOption(q.originalIdea, p.originalIdea),
      PickOption(q.refinedDescription, p.refinedDescription),
      PickOption(q.generatedPrompt, p.generatedPrompt),
      PickOption(q.pitchDeck, p.pitchDeck),
      PickOption(q.videoScript, p.videoScript),
      PickOption(q.mvpKit, p.mvpKit),
      PickOption(q.checklist, p.checklist))
  }

  /** Merging the same partial twice is merging it once. */
  lemma MergeIdempotent(w: WorkflowData, p: Patch)
    ensures Merge(Merge(w, p), p) == Merge(w, p)
  {
  }

  /** Two merges in a row are one merge of the combined partial. */
  lemma MergeThen(w: WorkflowData, p: Patch, q: Patch)
    ensures Merge(Merge(w, p), q) == Merge(w, Then(p, q))
  {
  }

  /** Merges that carry disjoint fields commute. */
  lemma MergeDisjointCommute(w: WorkflowData, p: Patch, q: Patch)
    requires p.originalIdea.None? || q.originalIdea.None?
    requires p.refinedDescription.None? || q.refinedDescription.None?
    requires p.generatedPrompt.None? || q.generatedPrompt.None?
    requires p.pitchDeck.None? || q.pitchDeck.None?
    requires p.videoScript.None? || q.videoScript.None?
    requires p.mvpKit.None? || q.mvpKit.None?
    requires p.checklist.None? || q.checklist.None?
    ensures Merge(Merge(w, p), q) == Merge(Merge(w, q), p)
  {
  }
}
