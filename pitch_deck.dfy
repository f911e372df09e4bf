/**
 * Step 3 of the wizard (`PitchDeckGenerator`): asks the gateway for a pitch deck for the
 * workflow's idea and keeps it both on screen and in the workflow record.
 */
module PitchDeckStep {
  import opened Wrappers
  import opened Text
  import opened ApiTypes
  import opened Api
  import opened Workflow
  import opened LocalStorage
  import opened Dashboard

  const PitchDeckSuffix := "-pitch-deck.json"

  /** The download name: the idea with white space runs hyphenated, lower-cased, then the suffix. */
  function DownloadName(idea: string): (r: string)
    ensures NoSpace(r)
    ensures r == Slug(idea) + PitchDeckSuffix
  {
    SlugFileNameHasNoSpace(idea, PitchDeckSuffix);
    Slug(idea) + PitchDeckSuffix
  }

  class PitchDeckGenerator {
    const wizard: Wizard
    var pitchDeck: Option<PitchDeck>
    var isGenerating: bool

    ghost predicate Valid()
      reads this, wizard
    {
      wizard.Valid()
    }

    /** Mounting: the deck the workflow already holds, if any. */
    constructor (wizard: Wizard)
      requires wizard.Valid()
      ensures Valid() && this.wizard == wizard
      ensures pitchDeck == wizard.data.pitchDeck && !isGenerating
    {
      this.wizard := wizard;
      pitchDeck := wizard.data.pitchDeck;
      isGenerating := false;
    }

    /**
     * What a generation that passed its guard leaves behind: a generated deck is shown and
     * stored in the workflow; after a failure neither the deck nor the workflow changes.
     */
    twostate predicate Generated(g: Gateway)
      reads this, wizard, wizard.store
    {
      var r := GeneratePitchDeck(g, old(wizard.data.originalIdea), old(wizard.data.refinedDescription));
      !isGenerating && wizard.store.writeError == old(wizard.store.writeError)
      && (r.Success? ==>
            pitchDeck == Some(r.value) && wizard.data == Merge(old(wizard.data), SetPitchDeck(r.value))
            && wizard.store.items == Written(old(wizard.store.items), wizard.store.writeError, WorkflowKey, WorkflowRecord(wizard.data)))
      && (r.Failure? ==>
            pitchDeck == old(pitchDeck) && wizard.data == old(wizard.data) && wizard.store.items == old(wizard.store.items))
    }

    /** `generatePitchDeck`: nothing happens without a refined description. */
    method Generate(g: Gateway)
      requires Valid()
      modifies this`pitchDeck, this`isGenerating, wizard`data, wizard.store
      ensures Valid()
      ensures old(wizard.data.refinedDescription) == "" ==>
        pitchDeck == old(pitchDeck) && isGenerating == old(isGenerating)
        && wizard.data == old(wizard.data) && unchanged(wizard.store)
      ensures old(wizard.data.refinedDescription) != "" ==> Generated(g)
    {
      if wizard.data.refinedDescription == "" {
        return;
      }
      isGenerating := true;
      var r := GeneratePitchDeck(g, wizard.data.originalIdea, wizard.data.refinedDescription);
      if r.Success? {
        pitchDeck := Some(r.value);
        wizard.UpdateWorkflowData(SetPitchDeck(r.value));
      }
      isGenerating := false;
    }

    /** The condition of the mount effect: a refined description and no deck yet. */
    predicate AutoGenerates()
      reads this, wizard
    {
      wizard.data.refinedDescription != "" && pitchDeck.None?
    }

    method Mount(g: Gateway)
      requires Valid()
      modifies this`pitchDeck, this`isGenerating, wizard`data, wizard.store
      ensures Valid()
      ensures !old(AutoGenerates()) ==> unchanged(this) && unchanged(wizard) && unchanged(wizard.store)
      ensures old(AutoGenerates()) ==> Generated(g)
    {
      if wizard.data.refinedDescription != "" && pitchDeck.None? {
        Generate(g);
      }
    }

    /** `downloadPitchDeck`: the name the export is offered under. */
    function FileName(): string
      reads this, wizard
    {
      DownloadName(wizard.data.originalIdea)
    }

    /** The Next button is shown once a deck exists and a later step exists. */
    function NextOffered(): (r: bool)
      reads this, wizard
      ensures r <==> pitchDeck.Some? && wizard.step < LastStep
    {
      pitchDeck.Some? && wizard.CanGoNext()
    }

    method ClickNext()
      requires Valid() && NextOffered()
      modifies wizard`step
      ensures Valid() && wizard.step == old(wizard.step) + 1
    {
      wizard.Next();
    }
  }
}
