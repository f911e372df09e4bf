/**
 * Step 2 of the wizard (`PromptBuilder`): turns the refined description into a prompt for
 * development tools, for a chosen project type.
 */
module PromptBuilderStep {
  import opened Wrappers
  import opened Api
  import opened Workflow
  import opened LocalStorage
  import opened Dashboard

  const ProjectTypes: seq<string> := ["Website", "Mobile App", "API/Backend", "Chrome Extension", "Desktop App", "AI Tool"]

  const PromptFailure := "Error generating prompt. Please check your API configuration."

  class PromptBuilder {
    const wizard: Wizard
    var projectType: string
    var generatedPrompt: string
    var isGenerating: bool

    ghost predicate Valid()
      reads this, wizard
    {
      wizard.Valid()
    }

    /** Mounting: the first project type, and the prompt the workflow already holds. */
    constructor (wizard: Wizard)
      requires wizard.Valid()
      ensures Valid() && this.wizard == wizard
      ensures projectType == ProjectTypes[0] && generatedPrompt == wizard.data.generatedPrompt && !isGenerating
    {
      this.wizard := wizard;
      projectType := ProjectTypes[0];
      generatedPrompt := wizard.data.generatedPrompt;
      isGenerating := false;
    }

    /** The project-type selector. */
    method SelectProjectType(t: string)
      modifies this`projectType
      ensures projectType == t
    {
      projectType := t;
    }

    /**
     * What a generation that passed its guard leaves behind: on a reply, the prompt shown and
     * the workflow's prompt are both the reply; on a failure, an error text is shown and the
     * workflow is not touched.
     */
    twostate predicate Generated(g: Gateway)
      reads this, wizard, wizard.store
    {
      var r := GeneratePrompt(g, old(projectType), old(wizard.data.refinedDescription));
      !isGenerating && wizard.store.writeError == old(wizard.store.writeError)
      && (r.Success? ==>
            generatedPrompt == r.value && wizard.data == Merge(old(wizard.data), SetPrompt(r.value))
            && wizard.store.items == Written(old(wizard.store.items), wizard.store.writeError, WorkflowKey, WorkflowRecord(wizard.data)))
      && (r.Failure? ==>
            generatedPrompt == PromptFailure && wizard.data == old(wizard.data) && wizard.store.items == old(wizard.store.items))
    }

    /** `generatePrompt`: nothing happens without a refined description. */
    method Generate(g: Gateway)
      requires Valid()
      modifies this`generatedPrompt, this`isGenerating, wizard`data, wizard.store
      ensures Valid()
      ensures old(wizard.data.refinedDescription) == "" ==>
        generatedPrompt == old(generatedPrompt) && isGenerating == old(isGenerating)
        && wizard.data == old(wizard.data) && unchanged(wizard.store)
      ensures old(wizard.data.refinedDescription) != "" ==> Generated(g)
    {
      if wizard.data.refinedDescription == "" {
        return;
      }
      isGenerating := true;
      var r := GeneratePrompt(g, projectType, wizard.data.refinedDescription);
      if r.Success? {
        generatedPrompt := r.value;
        wizard.UpdateWorkflowData(SetPrompt(r.value));
      } else {
        generatedPrompt := PromptFailure;
      }
      isGenerating := false;
    }

    /** The condition of the mount effect: a refined description and no prompt yet. */
    predicate AutoGenerates()
      reads this, wizard
    {
      wizard.data.refinedDescription != "" && generatedPrompt == ""
    }

    /** The mount effect: generate only when `AutoGenerates` holds. */
    method Mount(g: Gateway)
      requires Valid()
      modifies this`generatedPrompt, this`isGenerating, wizard`data, wizard.store
      ensures Valid()
      ensures !old(AutoGenerates()) ==> unchanged(this) && unchanged(wizard) && unchanged(wizard.store)
      ensures old(AutoGenerates()) ==> Generated(g)
    {
      if wizard.data.refinedDescription != "" && generatedPrompt == "" {
        Generate(g);
      }
    }

    /** The Next button is shown once a prompt, or its error text, is on screen and a later step exists. */
    function NextOffered(): (r: bool)
      reads this, wizard
      ensures r <==> generatedPrompt != "" && wizard.step < LastStep
    {
      generatedPrompt != "" && wizard.CanGoNext()
    }

    method ClickNext()
      requires Valid() && NextOffered()
      modifies wizard`step
      ensures Valid() && wizard.step == old(wizard.step) + 1
    {
      wizard.Next();
    }
  }
}
