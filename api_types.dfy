/**
 * The records exchanged with the AI gateway and kept by the wizard: chat messages and the
 * four generated artifacts, plus the component and test-suite records of the generators.
 * Every artifact field that the application reads is a typed field here.
 */
module ApiTypes {
  import opened Wrappers

  datatype Role = User | Assistant | System

  datatype Message = Message(role: Role, content: string)

  datatype MvpKit = MvpKit(
    title: string,
    description: string,
    techStack: seq<string>,
    features: seq<string>,
    timeline: string,
    codeStructure: string,
    deploymentConfig: string)

  datatype Slide = Slide(title: string, description: string)

  datatype PitchDeck = PitchDeck(overview: string, slides: seq<Slide>, content: string, tips: string)

  datatype Scene = Scene(title: string, description: string, duration: string, visual: string)

  datatype VideoScript = VideoScript(
    duration: string,
    style: string,
    target: string,
    productionNotes: string,
    scenes: seq<Scene>,
    fullScript: string)

  /** A checklist task; `description` and `completed` are optional properties (None = absent). */
  datatype ChecklistTask = ChecklistTask(task: string, description: Option<string>, completed: Option<bool>)

  datatype Category = Category(name: string, items: seq<ChecklistTask>)

  datatype ProjectChecklist = ProjectChecklist(overview: string, categories: seq<Category>, timeline: string)

  /** A generated UI component as the component generator saves it. */
  datatype GeneratedComponent = GeneratedComponent(
    id: string,
    description: string,
    framework: string,
    code: string,
    preview: Option<string>,
    createdAt: string)

  /** A generated test suite: one test file per test type. */
  datatype GeneratedTests = GeneratedTests(
    id: string,
    codeInput: string,
    testTypes: seq<string>,
    tests: map<string, string>,
    createdAt: string)
}
