/**
 * The component generator page (`ComponentGenerator`): validates the description, asks the
 * gateway for component code in the chosen framework, and saves the result to the generated
 * components collection.
 */
module ComponentForm {
  import opened Wrappers
  import opened Text
  import opened ApiTypes
  import opened Api
  import opened LocalStorage

  datatype Framework = Framework(id: string, name: string)

  const Frameworks: seq<Framework> := [
    Framework("react-tailwind", "React + TailwindCSS"),
    Framework("chakra-ui", "Chakra UI"),
    Framework("flutter", "Flutter Widget"),
    Framework("react-native", "React Native")]

  const EmptyDescription := "Please provide a component description"
  const TooLong := "Description is too long. Please keep it under 500 characters."
  const ComponentFailure := "Failed to generate component. Please try a simpler description or check your API configuration."
  const DescriptionLimit := 500

  /** The checks made before any request, in order: a blank description, then one over the limit in UTF-16 code units. */
  function Validate(description: string): (r: Option<string>)
    ensures r == Some(EmptyDescription) <==> AllSpace(description)
    ensures r == Some(TooLong) <==> !AllSpace(description) && Utf16Length(description) > DescriptionLimit
    ensures r.None? <==> !AllSpace(description) && Utf16Length(description) <= DescriptionLimit
  {
    TrimEmptyIff(description);
    if Trim(description) == "" then Some(EmptyDescription)
    else if Utf16Length(description) > DescriptionLimit then Some(TooLong)
    else None
  }

  /** A description of more than 250 characters above U+FFFF is over the limit, though it has at most 500 characters. */
  lemma WideDescriptionTooLong(d: string)
    requires 250 < |d| && forall k :: 0 <= k < |d| ==> Units(d[k]) == 2
    ensures Validate(d) == Some(TooLong)
  {
    WideLength(d);
    assert !IsSpace(d[0]);
  }

  /** `frameworks.find(f => f.id === id)?.name || id` over a table fs. */
  function LabelIn(fs: seq<Framework>, id: string): string {
    if fs == [] then id else if fs[0].id == id then fs[0].name else LabelIn(fs[1..], id)
  }

  /** The label saved with a component: the display name of the first framework with that id, else the id itself. */
  function FrameworkLabel(id: string): string {
    LabelIn(Frameworks, id)
  }

  function FrameworkId(f: Framework): string { f.id }

  /** The scan agrees with the first-index search: the first entry with the id gives the name, none gives the id. */
  lemma {:induction false} LabelInFirstMatch(fs: seq<Framework>, id: string)
    ensures FirstIndex(fs, FrameworkId, id).Some? ==> LabelIn(fs, id) == fs[FirstIndex(fs, FrameworkId, id).value].name
    ensures FirstIndex(fs, FrameworkId, id).None? ==> LabelIn(fs, id) == id
  {
    if fs != [] && fs[0].id != id {
      LabelInFirstMatch(fs[1..], id);
      FirstIndexShift(fs, id);
    }
  }

  /** Past a first entry without the id, the first-index search is the one in the rest, one further on. */
  lemma FirstIndexShift(fs: seq<Framework>, id: string)
    requires fs != [] && fs[0].id != id
    ensures FirstIndex(fs, FrameworkId, id).None? <==> FirstIndex(fs[1..], FrameworkId, id).None?
    ensures FirstIndex(fs, FrameworkId, id).Some? ==> FirstIndex(fs, FrameworkId, id).value == FirstIndex(fs[1..], FrameworkId, id).value + 1
  {
    var a := FirstIndex(fs, FrameworkId, id);
    var b := FirstIndex(fs[1..], FrameworkId, id);
    if a.Some? {
      assert fs[1..][a.value - 1] == fs[a.value];
    }
  }

  /** A listed framework is saved under the display name of its entry, anything else under its own id. */
  lemma FrameworkLabelFallback(id: string)
    ensures (exists k :: 0 <= k < |Frameworks| && Frameworks[k].id == id) ==>
      exists k :: 0 <= k < |Frameworks| && Frameworks[k].id == id && FrameworkLabel(id) == Frameworks[k].name
    ensures (forall k :: 0 <= k < |Frameworks| ==> Frameworks[k].id != id) ==> FrameworkLabel(id) == id
  {
    LabelInFirstMatch(Frameworks, id);
  }

  /** The file extension of the download: Dart for Flutter, TypeScript JSX for everything else. */
  function Extension(framework: string): (r: string)
    ensures r == "dart" <==> framework == "flutter"
    ensures r != "dart" ==> r == "tsx"
  {
    if framework == "flutter" then "dart" else "tsx"
  }

  class ComponentGenerator {
    var description: string
    var selectedFramework: string
    var isGenerating: bool
    var generated: Option<GeneratedComponent>
    var error: Option<string>
    const store: Storage

    /** Mounting: an empty description, the first framework, no component and no error. */
    constructor (store: Storage)
      ensures this.store == store && description == "" && selectedFramework == Frameworks[0].id
      ensures !isGenerating && generated == None && error == None
    {
      this.store := store;
      description := "";
      selectedFramework := Frameworks[0].id;
      isGenerating := false;
      generated := None;
      error := None;
    }

    method SetDescription(d: string)
      modifies this`description
      ensures description == d
    {
      description := d;
    }

    method SelectFramework(f: string)
      modifies this`selectedFramework
      ensures selectedFramework == f
    {
      selectedFramework := f;
    }

    /**
     * What a request for a valid description leaves behind, given the gateway's outcome r:
     * code is shown and saved as one component with the given id and time; a failure shows a
     * fixed message and saves nothing.
     */
    twostate predicate Applied(r: Result<string, ApiError>, id: string, createdAt: string)
      reads this, store
    {
      !isGenerating && store.writeError == old(store.writeError)
      && (r.Success? ==>
            error == None
            && generated == Some(GeneratedComponent(id, old(description), FrameworkLabel(old(selectedFramework)), r.value, None, createdAt))
            && store.items == Written(old(store.items), store.writeError, ComponentsKey, ComponentList(old(store.Components()) + [generated.value])))
      && (r.Failure? ==>
            error == Some(ComponentFailure) && generated == old(generated) && store.items == old(store.items))
    }

    /** The effect of a request: `Applied` to what the gateway returns for the description and framework. */
    twostate predicate Generated(g: Gateway, id: string, createdAt: string)
      reads this, store
    {
      Applied(GenerateComponent(g, old(description), old(selectedFramework)), id, createdAt)
    }

    /** `generateComponent`: an invalid description only sets its message; a valid one is sent. */
    method Generate(g: Gateway, id: string, createdAt: string)
      modifies this`isGenerating, this`generated, this`error, store
      ensures Validate(old(description)).Some? ==>
        error == Validate(old(description)) && generated == old(generated) && isGenerating == old(isGenerating)
        && unchanged(store)
      ensures Validate(old(description)).None? ==> Generated(g, id, createdAt)
    {
      var invalid := Validate(description);
      if invalid.Some? {
        error := invalid;
        return;
      }
      var r := GenerateComponent(g, description, selectedFramework);
      Apply(r, id, createdAt);
    }

    /** The request's state changes, once the description passed validation and the gateway answered r. */
    method Apply(r: Result<string, ApiError>, id: string, createdAt: string)
      modifies this`isGenerating, this`generated, this`error, store
      ensures Applied(r, id, createdAt)
    {
      isGenerating := true;
      error := None;
      if r.Success? {
        Save(GeneratedComponent(id, description, FrameworkLabel(selectedFramework), r.value, None, createdAt));
      } else {
        error := Some(ComponentFailure);
      }
      isGenerating := false;
    }

    /** The `try` block after the code arrives: show the component and append it to the collection as it is. */
    method Save(c: GeneratedComponent)
      modifies this`generated, store
      ensures generated == Some(c) && store.writeError == old(store.writeError)
      ensures store.items == Written(old(store.items), store.writeError, ComponentsKey, ComponentList(old(store.Components()) + [c]))
    {
      generated := Some(c);
      store.AddComponent(c);
    }

    /** `downloadComponent`: the file name, or nothing while no component exists. */
    function FileName(): (r: Option<string>)
      reads this
      ensures r.Some? <==> generated.Some?
      ensures r.Some? ==> "component-" + generated.value.id <= r.value
      ensures r.Some? ==> var ext := Extension(selectedFramework); r.value[|r.value| - |ext|..] == ext
    {
      if generated.Some? then Some("component-" + generated.value.id + "." + Extension(selectedFramework)) else None
    }
  }
}
