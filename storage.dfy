/**
 * Local persistence: the `storage` wrapper over the browser's key-value store and the typed
 * collections built on it (`projectStorage`, `chatStorage`, `generatorStorage`,
 * `checklistStorage`).
 *
 * The store maps keys to what `JSON.parse` makes of the stored text: one of the record
 * shapes, `null`, the empty string, or text that does not parse. While `writeError` is Some(m),
 * every `setItem`, `removeItem` and `clear` throws an Error with message m and changes
 * nothing (a full quota, storage turned off).
 */
module LocalStorage {
  import opened Wrappers
  import opened ApiTypes
  import opened Workflow
  import opened Records

  const ProjectsKey := "hackmvp_projects"
  const PreferencesKey := "hackmvp_preferences"
  const ChatKey := "hackmvp_chat_history"
  const ChecklistsKey := "hackmvp_checklists"
  const ComponentsKey := "hackmvp_generated_components"
  const TestsKey := "hackmvp_generated_tests"
  const WorkflowKey := "hackmvp_current_workflow"

  /** The key of one user's profile. */
  function ProfileKey(uid: string): string {
    "userProfile_" + uid
  }

  /** What `JSON.parse` yields for the text stored under a key. */
  datatype Value =
    | ProjectList(projects: seq<Project>)
    | ChatList(messages: seq<ChatMessage>)
    | ChecklistList(checklists: seq<ChecklistRecord>)
    | ComponentList(components: seq<GeneratedComponent>)
    | TestList(tests: seq<GeneratedTests>)
    | WorkflowRecord(workflow: WorkflowData)
    | ProfileRecord(profile: UserProfile)
    | JsonNull
    | EmptyText
    | Unparseable
  {
    /** The stored text is non-empty and parses. */
    predicate Parsed() {
      !EmptyText? && !Unparseable?
    }
  }

  /**
   * `storage.get`: null for a missing key, for the empty string, for text that does not parse
   * and for the text `null` itself.
   */
  function Lookup(items: map<string, Value>, key: string): (r: Option<Value>)
    ensures r.None? <==> key !in items || items[key] == EmptyText || items[key] == Unparseable || items[key] == JsonNull
    ensures r.Some? ==> r.value == items[key]
  {
    if key in items && items[key].Parsed() && !items[key].JsonNull? then Some(items[key]) else None
  }

  /** The store after `setItem(key, v)`: unchanged when the write throws. */
  function Written(items: map<string, Value>, writeError: Option<string>, key: string, v: Value): map<string, Value> {
    if writeError.None? then items[key := v] else items
  }

  // ---------------------------------------------------------------------------
  // The `getAll` reads: `storage.get(KEY) || []`
  // ---------------------------------------------------------------------------

  function ProjectsIn(items: map<string, Value>): seq<Project> {
    match Lookup(items, ProjectsKey)
    case Some(ProjectList(ps)) => ps
    case _ => []
  }

  function HistoryIn(items: map<string, Value>): seq<ChatMessage> {
    match Lookup(items, ChatKey)
    case Some(ChatList(ms)) => ms
    case _ => []
  }

  function ChecklistsIn(items: map<string, Value>): seq<ChecklistRecord> {
    match Lookup(items, ChecklistsKey)
    case Some(ChecklistList(cs)) => cs
    case _ => []
  }

  function ComponentsIn(items: map<string, Value>): seq<GeneratedComponent> {
    match Lookup(items, ComponentsKey)
    case Some(ComponentList(cs)) => cs
    case _ => []
  }

  function TestsIn(items: map<string, Value>): seq<GeneratedTests> {
    match Lookup(items, TestsKey)
    case Some(TestList(ts)) => ts
    case _ => []
  }

  // ---------------------------------------------------------------------------
  // `findIndex(r => r.id === id)` and `filter(r => r.id !== id)`
  // ---------------------------------------------------------------------------

  function FirstIndexFrom<T>(s: seq<T>, idOf: T -> string, id: string, i: nat): (r: Option<nat>)
    requires i <= |s|
    ensures r.Some? ==> i <= r.value < |s| && idOf(s[r.value]) == id
    ensures r.Some? ==> forall k :: i <= k < r.value ==> idOf(s[k]) != id
    ensures r.None? <==> forall k :: i <= k < |s| ==> idOf(s[k]) != id
    decreases |s| - i
  {
    if i == |s| then None else if idOf(s[i]) == id then Some(i) else FirstIndexFrom(s, idOf, id, i + 1)
  }

  /** `findIndex`: the first position holding the id, or None (the -1 of the source). */
  function FirstIndex<T>(s: seq<T>, idOf: T -> string, id: string): (r: Option<nat>)
    ensures r.Some? ==> r.value < |s| && idOf(s[r.value]) == id
    ensures r.Some? ==> forall k :: 0 <= k < r.value ==> idOf(s[k]) != id
    ensures r.None? <==> forall k :: 0 <= k < |s| ==> idOf(s[k]) != id
  {
    FirstIndexFrom(s, idOf, id, 0)
  }

  /** `filter`: the records whose id differs from the given one. */
  function WithoutId<T(!new)>(s: seq<T>, idOf: T -> string, id: string): (r: seq<T>)
    ensures |r| <= |s|
    ensures |r| == |s| <==> forall k :: 0 <= k < |s| ==> idOf(s[k]) != id
    decreases |s|
  {
    if s == [] then []
    else
      var rest := WithoutId(s[1..], idOf, id);
      assert forall k :: 1 <= k < |s| ==> s[k] == s[1..][k - 1];
      if idOf(s[0]) == id then rest else [s[0]] + rest
  }

  /** The filter keeps exactly the records whose id differs. */
  lemma {:induction false} WithoutIdMembers<T(!new)>(s: seq<T>, idOf: T -> string, id: string)
    ensures forall x :: x in WithoutId(s, idOf, id) <==> x in s && idOf(x) != id
    decreases |s|
  {
    if s != [] {
      WithoutIdFirst(s, idOf, id);
      WithoutIdMembers(s[1..], idOf, id);
      assert forall x :: x in s <==> x == s[0] || x in s[1..];
    }
  }

  /** The filter keeps the surviving records in their order: it distributes over concatenation. */
  lemma {:induction false} WithoutIdConcat<T(!new)>(a: seq<T>, b: seq<T>, idOf: T -> string, id: string)
    ensures WithoutId(a + b, idOf, id) == WithoutId(a, idOf, id) + WithoutId(b, idOf, id)
    decreases |a|
  {
    if a == [] {
      assert a + b == b;
    } else {
      var ab := a + b;
      assert ab[0] == a[0] && ab[1..] == a[1..] + b;
      WithoutIdFirst(ab, idOf, id);
      WithoutIdFirst(a, idOf, id);
      WithoutIdConcat(a[1..], b, idOf, id);
    }
  }

  /** The filter decides the first record, then goes on with the rest. */
  lemma WithoutIdFirst<T(!new)>(s: seq<T>, idOf: T -> string, id: string)
    requires s != []
    ensures WithoutId(s, idOf, id) == (if idOf(s[0]) == id then [] else [s[0]]) + WithoutId(s[1..], idOf, id)
  {
  }

  /** Filtering out an id that no record has changes nothing. */
  lemma {:induction false} WithoutAbsentId<T(!new)>(s: seq<T>, idOf: T -> string, id: string)
    requires forall k :: 0 <= k < |s| ==> idOf(s[k]) != id
    ensures WithoutId(s, idOf, id) == s
    decreases |s|
  {
    if s != [] {
      WithoutIdFirst(s, idOf, id);
      WithoutAbsentId(s[1..], idOf, id);
    }
  }

  // ---------------------------------------------------------------------------
  // The effect of the two `update` operations on the store
  // ---------------------------------------------------------------------------

  /** The store after `projectStorage.update(id, u)`. */
  function ProjectUpdated(items: map<string, Value>, writeError: Option<string>, id: string, u: ProjectPatch, now: string): map<string, Value> {
    var ps := ProjectsIn(items);
    match FirstIndex(ps, ProjectId, id)
    case None => items
    case Some(i) => Written(items, writeError, ProjectsKey, ProjectList(ps[i := PatchProject(ps[i], u, now)]))
  }

  /** The store after `checklistStorage.update(id, u)`. */
  function ChecklistUpdated(items: map<string, Value>, writeError: Option<string>, id: string, u: ChecklistPatch, now: string): map<string, Value> {
    var cs := ChecklistsIn(items);
    match FirstIndex(cs, ChecklistId, id)
    case None => items
    case Some(i) => Written(items, writeError, ChecklistsKey, ChecklistList(cs[i := PatchChecklist(cs[i], u, now)]))
  }

  /** An update of the record that has the id replaces that record alone, in its place. */
  lemma ChecklistUpdatedContents(items: map<string, Value>, id: string, u: ChecklistPatch, now: string)
    requires FirstIndex(ChecklistsIn(items), ChecklistId, id).Some?
    ensures var cs := ChecklistsIn(items);
            var i := FirstIndex(cs, ChecklistId, id).value;
            var cs' := ChecklistsIn(ChecklistUpdated(items, None, id, u, now));
            |cs'| == |cs| && cs'[i] == PatchChecklist(cs[i], u, now)
            && forall k :: 0 <= k < |cs| && k != i ==> cs'[k] == cs[k]
  {
  }

  /** The store: the key-value map and whether its writes currently throw. */
  class Storage {
    var items: map<string, Value>
    var writeError: Option<string>

    constructor (items: map<string, Value>, writeError: Option<string>)
      ensures this.items == items && this.writeError == writeError
    {
      this.items := items;
      this.writeError := writeError;
    }

    function Get(key: string): Option<Value>
      reads this
    {
      Lookup(items, key)
    }

    /** `localStorage.setItem`: the error it throws, if any. */
    method TrySet(key: string, v: Value) returns (err: Option<string>)
      modifies this
      ensures err == writeError == old(writeError)
      ensures items == Written(old(items), err, key, v)
    {
      err := writeError;
      if err.None? {
        items := items[key := v];
      }
    }

    /** `storage.set`: a write whose error is logged and dropped. */
    method Set(key: string, v: Value)
      modifies this
      ensures writeError == old(writeError)
      ensures items == Written(old(items), writeError, key, v)
    {
      var _ := TrySet(key, v);
    }

    /** `storage.remove`. */
    method Remove(key: string)
      modifies this
      ensures writeError == old(writeError)
      ensures items == if writeError.None? then old(items) - {key} else old(items)
    {
      if writeError.None? {
        items := items - {key};
      }
    }

    /** `storage.clear`. */
    method Clear()
      modifies this
      ensures writeError == old(writeError)
      ensures items == if writeError.None? then map[] else old(items)
    {
      if writeError.None? {
        items := map[];
      }
    }

    // -------------------------------------------------------------------------
    // projectStorage
    // -------------------------------------------------------------------------

    function Projects(): seq<Project>
      reads this
    {
      ProjectsIn(items)
    }

    /** `projectStorage.add`: the draft's fields plus the new id and times, pushed at the end. */
    method AddProject(d: ProjectDraft, id: string, createdAt: string, updatedAt: string) returns (p: Project)
      modifies this
      ensures p == Project(id, d.title, d.description, d.techStack, createdAt, updatedAt, d.status)
      ensures writeError == old(writeError)
      ensures items == Written(old(items), writeError, ProjectsKey, ProjectList(old(Projects()) + [p]))
      ensures writeError.None? ==> Projects() == old(Projects()) + [p]
    {
      var projects := Projects();
      p := Project(id, d.title, d.description, d.techStack, createdAt, updatedAt, d.status);
      projects := projects + [p];
      Set(ProjectsKey, ProjectList(projects));
    }

    /** `projectStorage.update`: merge over the first record with the id, or null when none has it. */
    method UpdateProject(id: string, u: ProjectPatch, now: string) returns (r: Option<Project>)
      modifies this
      ensures writeError == old(writeError)
      ensures items == ProjectUpdated(old(items), writeError, id, u, now)
      ensures r.None? <==> forall k :: 0 <= k < |old(Projects())| ==> old(Projects())[k].id != id
      ensures r.None? ==> items == old(items)
      ensures r.Some? ==> var i := FirstIndex(old(Projects()), ProjectId, id).value;
                          r.value == PatchProject(old(Projects())[i], u, now)
    {
      var projects := Projects();
      var index := FirstIndex(projects, ProjectId, id);
      if index.Some? {
        projects := projects[index.value := PatchProject(projects[index.value], u, now)];
        Set(ProjectsKey, ProjectList(projects));
        r := Some(projects[index.value]);
      } else {
        r := None;
      }
    }

    /** `projectStorage.delete`: true exactly when some record had the id. */
    method DeleteProject(id: string) returns (deleted: bool)
      modifies this
      ensures writeError == old(writeError)
      ensures deleted <==> exists k :: 0 <= k < |old(Projects())| && old(Projects())[k].id == id
      ensures items == if deleted then Written(old(items), writeError, ProjectsKey, ProjectList(WithoutId(old(Projects()), ProjectId, id))) else old(items)
    {
      var projects := Projects();
      var filtered := WithoutId(projects, ProjectId, id);
      if |filtered| != |projects| {
        Set(ProjectsKey, ProjectList(filtered));
        deleted := true;
      } else {
        deleted := false;
      }
    }

    // -------------------------------------------------------------------------
    // chatStorage
    // -------------------------------------------------------------------------

    function History(): seq<ChatMessage>
      reads this
    {
      HistoryIn(items)
    }

    /** `chatStorage.addMessage`: the role and content plus the new id and time, pushed at the end. */
    method AddMessage(role: Role, content: string, id: string, timestamp: string)
      modifies this
      ensures writeError == old(writeError)
      ensures items == Written(old(items), writeError, ChatKey, ChatList(old(History()) + [ChatMessage(id, role, content, timestamp)]))
      ensures writeError.None? ==> History() == old(History()) + [ChatMessage(id, role, content, timestamp)]
    {
      var history := History();
      history := history + [ChatMessage(id, role, content, timestamp)];
      Set(ChatKey, ChatList(history));
    }

    /** `chatStorage.clearHistory`: afterwards the history reads as empty. */
    method ClearHistory()
      modifies this
      ensures writeError == old(writeError)
      ensures items == if writeError.None? then old(items) - {ChatKey} else old(items)
      ensures writeError.None? ==> History() == []
    {
      Remove(ChatKey);
    }

    // -------------------------------------------------------------------------
    // generatorStorage
    // -------------------------------------------------------------------------

    function Components(): seq<GeneratedComponent>
      reads this
    {
      ComponentsIn(items)
    }

    function Tests(): seq<GeneratedTests>
      reads this
    {
      TestsIn(items)
    }

    /** `generatorStorage.addComponent`: the record exactly as given, pushed at the end. */
    method AddComponent(c: GeneratedComponent)
      modifies this
      ensures writeError == old(writeError)
      ensures items == Written(old(items), writeError, ComponentsKey, ComponentList(old(Components()) + [c]))
    {
      var components := Components();
      components := components + [c];
      Set(ComponentsKey, ComponentList(components));
    }

    /** `generatorStorage.addTest`: the record exactly as given, pushed at the end. */
    method AddTest(t: GeneratedTests)
      modifies this
      ensures writeError == old(writeError)
      ensures items == Written(old(items), writeError, TestsKey, TestList(old(Tests()) + [t]))
    {
      var tests := Tests();
      tests := tests + [t];
      Set(TestsKey, TestList(tests));
    }

    /** `generatorStorage.deleteComponent`. */
    method DeleteComponent(id: string) returns (deleted: bool)
      modifies this
      ensures writeError == old(writeError)
      ensures deleted <==> exists k :: 0 <= k < |old(Components())| && old(Components())[k].id == id
      ensures items == if deleted then Written(old(items), writeError, ComponentsKey, ComponentList(WithoutId(old(Components()), ComponentId, id))) else old(items)
    {
      var components := Components();
      var filtered := WithoutId(components, ComponentId, id);
      if |filtered| != |components| {
        Set(ComponentsKey, ComponentList(filtered));
        deleted := true;
      } else {
        deleted := false;
      }
    }

    /** `generatorStorage.deleteTest`. */
    method DeleteTest(id: string) returns (deleted: bool)
      modifies this
      ensures writeError == old(writeError)
      ensures deleted <==> exists k :: 0 <= k < |old(Tests())| && old(Tests())[k].id == id
      ensures items == if deleted then Written(old(items), writeError, TestsKey, TestList(WithoutId(old(Tests()), TestsId, id))) else old(items)
    {
      var tests := Tests();
      var filtered := WithoutId(tests, TestsId, id);
      if |filtered| != |tests| {
        Set(TestsKey, TestList(filtered));
        deleted := true;
      } else {
        deleted := false;
      }
    }

    // -------------------------------------------------------------------------
    // checklistStorage
    // -------------------------------------------------------------------------

    function Checklists(): seq<ChecklistRecord>
      reads this
    {
      ChecklistsIn(items)
    }

    /** `checklistStorage.add`. */
    method AddChecklist(d: ChecklistDraft, id: string, createdAt: string, updatedAt: string) returns (c: ChecklistRecord)
      modifies this
      ensures c == ChecklistRecord(id, d.title, d.description, d.checklist, d.workflowData, createdAt, updatedAt)
      ensures writeError == old(writeError)
      ensures items == Written(old(items), writeError, ChecklistsKey, ChecklistList(old(Checklists()) + [c]))
      ensures writeError.None? ==> Checklists() == old(Checklists()) + [c]
    {
      var checklists := Checklists();
      c := ChecklistRecord(id, d.title, d.description, d.checklist, d.workflowData, createdAt, updatedAt);
      checklists := checklists + [c];
      Set(ChecklistsKey, ChecklistList(checklists));
    }

    /** `checklistStorage.update`. */
    method UpdateChecklist(id: string, u: ChecklistPatch, now: string) returns (r: Option<ChecklistRecord>)
      modifies this
      ensures writeError == old(writeError)
      ensures items == ChecklistUpdated(old(items), writeError, id, u, now)
      ensures r.None? <==> forall k :: 0 <= k < |old(Checklists())| ==> old(Checklists())[k].id != id
      ensures r.None? ==> items == old(items)
      ensures r.Some? ==> var i := FirstIndex(old(Checklists()), ChecklistId, id).value;
                          r.value == PatchChecklist(old(Checklists())[i], u, now)
    {
      var checklists := Checklists();
      var index := FirstIndex(checklists, ChecklistId, id);
      if index.Some? {
        checklists := checklists[index.value := PatchChecklist(checklists[index.value], u, now)];
        Set(ChecklistsKey, ChecklistList(checklists));
        r := Some(checklists[index.value]);
      } else {
        r := None;
      }
    }

    /** `checklistStorage.delete`. */
    method DeleteChecklist(id: string) returns (deleted: bool)
      modifies this
      ensures writeError == old(writeError)
      ensures deleted <==> exists k :: 0 <= k < |old(Checklists())| && old(Checklists())[k].id == id
      ensures items == if deleted then Written(old(items), writeError, ChecklistsKey, ChecklistList(WithoutId(old(Checklists()), ChecklistId, id))) else old(items)
    {
      var checklists := Checklists();
      var filtered := WithoutId(checklists, ChecklistId, id);
      if |filtered| != |checklists| {
        Set(ChecklistsKey, ChecklistList(filtered));
        deleted := true;
      } else {
        deleted := false;
      }
    }
  }

  /** Each collection reads only its own key: a write under any other key leaves it as it reads. */
  lemma CollectionsIndependent(items: map<string, Value>, k: string, v: Value)
    ensures k != ProjectsKey ==> ProjectsIn(items[k := v]) == ProjectsIn(items)
    ensures k != ChatKey ==> HistoryIn(items[k := v]) == HistoryIn(items)
    ensures k != ChecklistsKey ==> ChecklistsIn(items[k := v]) == ChecklistsIn(items)
    ensures k != ComponentsKey ==> ComponentsIn(items[k := v]) == ComponentsIn(items)
    ensures k != TestsKey ==> TestsIn(items[k := v]) == TestsIn(items)
  {
  }

  /**
   * The keys are pairwise different, and no user's profile key is one of them: so every
   * collection is independent of the workflow record, of each profile and of every other collection.
   */
  lemma KeysDistinct(uid: string)
    ensures ProjectsKey != ChatKey && ProjectsKey != ChecklistsKey && ProjectsKey != ComponentsKey
    ensures ProjectsKey != TestsKey && ChatKey != ChecklistsKey && ChatKey != ComponentsKey
    ensures ChatKey != TestsKey && ChecklistsKey != ComponentsKey && ChecklistsKey != TestsKey
    ensures ComponentsKey != TestsKey
    ensures WorkflowKey != ProjectsKey && WorkflowKey != ChatKey && WorkflowKey != ChecklistsKey
    ensures WorkflowKey != ComponentsKey && WorkflowKey != TestsKey
    ensures ProfileKey(uid) != ProjectsKey && ProfileKey(uid) != ChatKey && ProfileKey(uid) != ChecklistsKey
    ensures ProfileKey(uid) != ComponentsKey && ProfileKey(uid) != TestsKey && ProfileKey(uid) != WorkflowKey
  {
    assert ProfileKey(uid)[0] == 'u';
    assert ProjectsKey[8] == 'p' && ChatKey[8] == 'c' && ChecklistsKey[8] == 'c' && ComponentsKey[8] == 'g';
    assert TestsKey[8] == 'g' && WorkflowKey[8] == 'c';
    assert ChatKey[9] == 'h' && ChecklistsKey[9] == 'h' && WorkflowKey[9] == 'u';
    assert ChatKey[10] == 'a' && ChecklistsKey[10] == 'e';
    assert ComponentsKey[18] == 'c' && TestsKey[18] == 't';
  }

  /** A deletion of a present id leaves a strictly shorter collection without that id; an absent id changes nothing. */
  lemma DeleteShrinks<T(!new)>(s: seq<T>, idOf: T -> string, id: string)
    ensures (exists k :: 0 <= k < |s| && idOf(s[k]) == id) <==> |WithoutId(s, idOf, id)| < |s|
    ensures (forall k :: 0 <= k < |s| ==> idOf(s[k]) != id) ==> WithoutId(s, idOf, id) == s
  {
    if forall k :: 0 <= k < |s| ==> idOf(s[k]) != id {
      WithoutAbsentId(s, idOf, id);
    }
  }
}
