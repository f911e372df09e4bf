/**
 * Step 4 of the wizard (`VideoScriptGenerator`): asks the gateway for a demo video script for the
 * workflow's idea and keeps it both on screen and in the workflow record.
 */
module VideoScriptStep {
  import opened Wrappers
  import opened Text
  import opened ApiTypes
  import opened Api
  import opened Workflow
  import opened LocalStorage
  import opened Dashboard

  const VideoScriptSuffix := "-video-script.json"

  /** The download name: the idea with white space runs hyphenated, lower-cased, then the suffix. */
  function DownloadName(idea: string): (r: string)
    ensures NoSpace(r)
    ensures r == Slug(idea) + VideoScriptSuffix
  {
    SlugFileNameHasNoSpace(idea, VideoScriptSuffix);
    Slug(idea) + VideoScriptSuffix
  }

  class VideoScriptGenerator {
    const wizard: Wizard
    var videoScript: Option<VideoScript>
    var isGenerating: bool

    ghost predicate Valid()
      reads this, wizard
    {
      wizard.Valid()
    }

    /** Mounting: the script the workflow already holds, if any. */
    constructor (wizard: Wizard)
      requires wizard.Valid()
      ensures Valid() && this.wizard == wizard
      ensures videoScript == wizard.data.videoScript && !isGenerating
    {
      this.wizard := wizard;
      videoScript := wizard.data.videoScript;
      isGenerating := false;
    }

    /**
     * What a generation that passed its guard leaves behind: a generated script is shown and
     * stored in the workflow; after a failure neither the script nor the workflow changes.
     */
    twostate predicate Generated(g: Gateway)
      reads this, wizard, wizard.store
    {
      var r := GenerateVideoScript(g, old(wizard.data.originalIdea), old(wizard.data.refinedDescription));
      !isGenerating && wizard.store.writeError == old(wizard.store.writeError)
      && (r.Success? ==>
            videoScript == Some(r.value) && wizard.data == Merge(old(wizard.data), SetVideoScript(r.value))
            && wizard.store.items == Written(old(wizard.store.items), wizard.store.writeError, WorkflowKey, WorkflowRecord(wizard.data)))
      && (r.Failure? ==>
            videoScript == old(videoScript) && wizard.data == old(wizard.data) && wizard.store.items == old(wizard.store.items))
    }

    /** `generateVideoScript`: nothing happens without a refined description. */
    method Generate(g: Gateway)
      requires Valid()
      modifies this`videoScript, this`isGenerating, wizard`data, wizard.store
      ensures Valid()
      ensures old(wizard.data.refinedDescription) == "" ==>
        videoScript == old(videoScript) && isGenerating == old(isGenerating)
        && wizard.data == old(wizard.data) && unchanged(wizard.store)
      ensures old(wizard.data.refinedDescription) != "" ==> Generated(g)
    {
      if wizard.data.refinedDescription == "" {
        return;
      }
      isGenerating := true;
      var r := GenerateVideoScript(g, wizard.data.originalIdea, wizard.data.refinedDescription);
      if r.Success? {
        videoScript := Some(r.value);
        wizard.UpdateWorkflowData(SetVideoScript(r.value));
      }
      isGenerating := false;
    }

    /** The condition of the mount effect: a refined description and no script yet. */
    predicate AutoGenerates()
      reads this, wizard
    {
      wizard.data.refinedDescription != "" && videoScript.None?
    }

    method Mount(g: Gateway)
      requires Valid()
      modifies this`videoScript, this`isGenerating, wizard`data, wizard.store
      ensures Valid()
      ensures !old(AutoGenerates()) ==> unchanged(this) && unchanged(wizard) && unchanged(wizard.store)
      ensures old(AutoGenerates()) ==> Generated(g)
    {
      if wizard.data.refinedDescription != "" && videoScript.None? {
        Generate(g);
      }
    }

    /** `downloadScript`: the name the export is offered under. */
    function FileName(): string
      reads this, wizard
    {
      DownloadName(wizard.data.originalIdea)
    }

    /** The Next button is shown once a script exists and a later step exists. */
    function NextOffered(): (r: bool)
      reads this, wizard
      ensures r <==> videoScript.Some? && wizard.step < LastStep
    {
      videoScript.Some? && wizard.CanGoNext()
    }

    method ClickNext()
      requires Valid() && NextOffered()
      modifies wizard`step
      ensures Valid() && wizard.step == old(wizard.step) + 1
    {
      wizard.Next();
    }
  }
}
