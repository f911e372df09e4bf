/**
 * The test case generator page (`TestCaseGenerator`): the selection of test types, the checks
 * made before a request, the request through the gateway's `generateTests`, and the saved suite.
 */
module TestCaseForm {
  import opened Wrappers
  import opened Text
  import opened ApiTypes
  import opened Api
  import opened LocalStorage

  const NoCode := "Please provide code to generate tests for"
  const NoTypes := "Please select at least one test type"
  const CodeTooLong := "Code input is too long. Please keep it under 2000 characters."

  /** The download extension of each test type. */
  const TestExtensions: map<string, string> := map["unit" := "test.js", "integration" := "spec.js", "api" := "json"]

  function Self(t: string): string { t }

  /** `prev.filter(id => id !== t)` on the selection. */
  function Unselect(s: seq<string>, t: string): seq<string> {
    WithoutId(s, Self, t)
  }

  /** `toggleTestType`: every occurrence of a selected type is removed; an unselected one is appended. */
  function Toggled(s: seq<string>, t: string): seq<string> {
    if t in s then Unselect(s, t) else s + [t]
  }

  /** The toggle flips the membership of its type and of no other. */
  lemma ToggledMembership(s: seq<string>, t: string)
    ensures t in Toggled(s, t) <==> t !in s
    ensures forall u :: u != t ==> (u in Toggled(s, t) <==> u in s)
  {
    WithoutIdMembers(s, Self, t);
  }

  /** The other types keep their order: without the toggled type, the selection reads as before. */
  lemma ToggledKeepsOthers(s: seq<string>, t: string)
    ensures Unselect(Toggled(s, t), t) == Unselect(s, t)
  {
    if t in s {
      NothingLeft(s, t);
      WithoutAbsentId(Unselect(s, t), Self, t);
    } else {
      WithoutIdConcat(s, [t], Self, t);
      WithoutAbsentId(s, Self, t);
      assert Unselect([t], t) == [];
    }
  }

  lemma NothingLeft(s: seq<string>, t: string)
    ensures forall k :: 0 <= k < |Unselect(s, t)| ==> Unselect(s, t)[k] != t
  {
    WithoutIdMembers(s, Self, t);
    forall k | 0 <= k < |Unselect(s, t)|
      ensures Unselect(s, t)[k] != t
    {
      assert Unselect(s, t)[k] in Unselect(s, t);
    }
  }

  /** Toggling an unselected type twice gives the selection back exactly; toggling twice always restores membership. */
  lemma ToggleTwice(s: seq<string>, t: string)
    ensures t !in s ==> Toggled(Toggled(s, t), t) == s
    ensures forall u :: u in Toggled(Toggled(s, t), t) <==> u in s
  {
    ToggledMembership(s, t);
    ToggledMembership(Toggled(s, t), t);
    if t !in s {
      ToggledKeepsOthers(s, t);
      WithoutAbsentId(s, Self, t);
    }
  }

  predicate Distinct(s: seq<string>) {
    forall i, j :: 0 <= i < j < |s| ==> s[i] != s[j]
  }

  /** Removing a value from a duplicate-free list leaves it duplicate-free. */
  lemma {:induction false} UnselectDistinct(s: seq<string>, t: string)
    requires Distinct(s)
    ensures Distinct(Unselect(s, t))
    decreases |s|
  {
    if s != [] {
      UnselectDistinct(s[1..], t);
      var rest := Unselect(s[1..], t);
      assert s[0] !in s[1..] by {
        forall k | 0 <= k < |s[1..]| ensures s[1..][k] != s[0] {
          assert s[1..][k] == s[k + 1];
        }
      }
      WithoutIdMembers(s[1..], Self, t);
      assert s[0] !in rest;
      if s[0] != t {
        var r := [s[0]] + rest;
        forall i, j | 0 <= i < j < |r| ensures r[i] != r[j] {
          if i == 0 {
            assert r[j] == rest[j - 1] && rest[j - 1] in rest;
          } else {
            assert r[i] == rest[i - 1] && r[j] == rest[j - 1];
          }
        }
      }
    }
  }

  /** A duplicate-free selection stays duplicate-free under any toggle. */
  lemma ToggledDistinct(s: seq<string>, t: string)
    requires Distinct(s)
    ensures Distinct(Toggled(s, t))
  {
    if t in s {
      UnselectDistinct(s, t);
    }
  }

  /** The checks made before any request, in order: blank code, an empty selection, code over the limit in UTF-16 code units. */
  function Validate(code: string, types: seq<string>): (r: Option<string>)
    ensures r == Some(NoCode) <==> AllSpace(code)
    ensures r == Some(NoTypes) <==> !AllSpace(code) && types == []
    ensures r == Some(CodeTooLong) <==> !AllSpace(code) && types != [] && Utf16Length(code) > CodeLimit
    ensures r.None? <==> !AllSpace(code) && types != [] && Utf16Length(code) <= CodeLimit
  {
    TrimEmptyIff(code);
    if Trim(code) == "" then Some(NoCode)
    else if |types| == 0 then Some(NoTypes)
    else if Utf16Length(code) > CodeLimit then Some(CodeTooLong)
    else None
  }

  /** The extension in the download name; a type without one prints as `undefined`. */
  function Extension(t: string): (r: string)
    ensures t in TestExtensions ==> r == TestExtensions[t]
    ensures t !in TestExtensions ==> r == "undefined"
  {
    if t in TestExtensions then TestExtensions[t] else "undefined"
  }

  /** The extension table covers exactly the test types the gateway generates, so every entry of a suite has a real extension. */
  lemma ExtensionsCoverTestTypes(t: string)
    ensures IsTestType(t) <==> t in TestExtensions
    ensures IsTestType(t) ==> Extension(t) != "undefined"
  {
  }

  class TestCaseGenerator {
    var codeInput: string
    var selected: seq<string>
    var isGenerating: bool
    var generated: Option<GeneratedTests>
    var error: Option<string>
    const store: Storage

    /** Mounting: no code, unit tests selected, no suite and no error. */
    constructor (store: Storage)
      ensures this.store == store && codeInput == "" && selected == ["unit"]
      ensures !isGenerating && generated == None && error == None
    {
      this.store := store;
      codeInput := "";
      selected := ["unit"];
      isGenerating := false;
      generated := None;
      error := None;
    }

    method SetCode(code: string)
      modifies this`codeInput
      ensures codeInput == code
    {
      codeInput := code;
    }

    method ToggleTestType(t: string)
      modifies this`selected
      ensures selected == Toggled(old(selected), t)
      ensures t in selected <==> t !in old(selected)
    {
      ToggledMembership(selected, t);
      selected := Toggled(selected, t);
    }

    /**
     * `generateTests`. Invalid input only sets its message. Otherwise the gateway builds one
     * entry per recognised selected type, and the suite (the code, the selection, the entries,
     * the given id and time) is shown and appended to the collection.
     */
    method Generate(g: Gateway, id: string, createdAt: string)
      modifies this`isGenerating, this`generated, this`error, store
      ensures store.writeError == old(store.writeError)
      ensures Validate(old(codeInput), old(selected)).Some? ==>
        error == Validate(old(codeInput), old(selected)) && generated == old(generated)
        && isGenerating == old(isGenerating) && store.items == old(store.items)
      ensures Validate(old(codeInput), old(selected)).None? ==>
        !isGenerating && error == None && generated.Some?
        && generated.value.id == id && generated.value.createdAt == createdAt
        && generated.value.codeInput == old(codeInput) && generated.value.testTypes == old(selected)
        && generated.value.tests.Keys == (set t | t in old(selected) && IsTestType(t))
        && (forall t :: t in generated.value.tests ==> generated.value.tests[t] == TestEntry(g, old(codeInput), t))
        && store.items == Written(old(store.items), store.writeError, TestsKey, TestList(old(store.Tests()) + [generated.value]))
    {
      var invalid := Validate(codeInput, selected);
      if invalid.Some? {
        error := invalid;
        return;
      }
      isGenerating := true;
      error := None;
      var tests := GenerateTests(g, codeInput, selected);
      var suite := GeneratedTests(id, codeInput, selected, tests, createdAt);
      generated := Some(suite);
      store.AddTest(suite);
      isGenerating := false;
    }

    /** The id printed in download names; `generatedTests?.id` prints as `undefined` while no suite exists. */
    function SuiteId(): (r: string)
      reads this
      ensures generated.Some? ==> r == generated.value.id
      ensures generated.None? ==> r == "undefined"
    {
      if generated.Some? then generated.value.id else "undefined"
    }

    /** `downloadTests`: the name of one test type's file, `<type>-tests-<id>.<extension>`. */
    function FileName(t: string): (r: string)
      reads this
      ensures t + "-tests-" + SuiteId() + "." <= r
      ensures |r| >= |Extension(t)| && r[|r| - |Extension(t)|..] == Extension(t)
    {
      t + "-tests-" + SuiteId() + "." + Extension(t)
    }
  }
}
