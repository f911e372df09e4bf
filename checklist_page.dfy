/**
 * The checklist tracking page (`ChecklistPage`): the saved checklists with a selection, the
 * completion toggle of one task written back through the checklist collection, the completed
 * and total counts, and deletion with the selection reset.
 */
module ChecklistTracking {
  import opened Wrappers
  import opened Text
  import opened ApiTypes
  import opened Records
  import opened LocalStorage
  import ChecklistStep

  // ---------------------------------------------------------------------------
  // Completion of one task
  // ---------------------------------------------------------------------------

  /** A task counts as completed when its flag is present and true; an absent flag is falsy. */
  predicate Done(t: ChecklistTask) {
    t.completed == Some(true)
  }

  /** `completed = !completed`: the negation of the flag's truthiness, so an absent flag becomes true. */
  function ToggleTask(t: ChecklistTask): (r: ChecklistTask)
    ensures Done(r) <==> !Done(t)
    ensures r.completed.Some?
    ensures r.task == t.task && r.description == t.description
  {
    t.(completed := Some(!t.completed.GetOr(false)))
  }

  /** Toggling twice restores the truthiness of the flag (an absent flag ends up false). */
  lemma ToggleTaskTwice(t: ChecklistTask)
    ensures Done(ToggleTask(ToggleTask(t))) == Done(t)
    ensures ToggleTask(ToggleTask(t)) == t.(completed := Some(Done(t)))
  {
  }

  predicate Toggleable(c: ProjectChecklist, ci: nat, ii: nat) {
    ci < |c.categories| && ii < |c.categories[ci].items|
  }

  /** The checklist with item ii of category ci toggled and everything else as it was. */
  function ToggleAt(c: ProjectChecklist, ci: nat, ii: nat): (r: ProjectChecklist)
    requires Toggleable(c, ci, ii)
    ensures Toggleable(r, ci, ii)
    ensures r.overview == c.overview && r.timeline == c.timeline && |r.categories| == |c.categories|
    ensures forall k :: 0 <= k < |c.categories| && k != ci ==> r.categories[k] == c.categories[k]
    ensures r.categories[ci].name == c.categories[ci].name && |r.categories[ci].items| == |c.categories[ci].items|
    ensures forall j :: 0 <= j < |c.categories[ci].items| && j != ii ==> r.categories[ci].items[j] == c.categories[ci].items[j]
    ensures r.categories[ci].items[ii] == ToggleTask(c.categories[ci].items[ii])
  {
    var cat := c.categories[ci];
    c.(categories := c.categories[ci := cat.(items := cat.items[ii := ToggleTask(cat.items[ii])])])
  }

  /** Toggling the same item twice restores the truthiness of every flag of the checklist. */
  lemma ToggleAtTwice(c: ProjectChecklist, ci: nat, ii: nat)
    requires Toggleable(c, ci, ii)
    ensures var r := ToggleAt(ToggleAt(c, ci, ii), ci, ii);
            |r.categories| == |c.categories|
            && forall k, j :: 0 <= k < |c.categories| && 0 <= j < |c.categories[k].items| ==>
                 |r.categories[k].items| == |c.categories[k].items| && Done(r.categories[k].items[j]) == Done(c.categories[k].items[j])
  {
    var once := ToggleAt(c, ci, ii);
    ToggleTaskTwice(c.categories[ci].items[ii]);
  }

  function ToggleRecord(r: ChecklistRecord, ci: nat, ii: nat): ChecklistRecord
    requires Toggleable(r.checklist, ci, ii)
  {
    r.(checklist := ToggleAt(r.checklist, ci, ii))
  }

  // ---------------------------------------------------------------------------
  // Counts
  // ---------------------------------------------------------------------------

  /** `items.filter(item => item.completed).length`. */
  function CompletedIn(items: seq<ChecklistTask>): (n: nat)
    ensures n <= |items|
    ensures n == 0 <==> forall j :: 0 <= j < |items| ==> !Done(items[j])
  {
    if items == [] then 0 else (if Done(items[0]) then 1 else 0) + CompletedIn(items[1..])
  }

  /** The item counts of the categories, summed. */
  function TotalItems(cats: seq<Category>): nat {
    if cats == [] then 0 else |cats[0].items| + TotalItems(cats[1..])
  }

  /** The completed counts of the categories, summed. */
  function CompletedItems(cats: seq<Category>): nat {
    if cats == [] then 0 else CompletedIn(cats[0].items) + CompletedItems(cats[1..])
  }

  /** The completed count of a checklist never exceeds its total. */
  lemma {:induction false} CompletedAtMostTotal(cats: seq<Category>)
    ensures CompletedItems(cats) <= TotalItems(cats)
  {
    if cats != [] {
      CompletedAtMostTotal(cats[1..]);
    }
  }

  /** Replacing one task changes the completed count by the difference of the two flags. */
  lemma {:induction false} CompletedInUpdate(items: seq<ChecklistTask>, j: nat, t: ChecklistTask)
    requires j < |items|
    ensures CompletedIn(items[j := t]) == CompletedIn(items) - (if Done(items[j]) then 1 else 0) + (if Done(t) then 1 else 0)
    decreases j
  {
    if j == 0 {
      assert items[j := t][1..] == items[1..];
    } else {
      assert items[j := t][1..] == items[1..][j - 1 := t];
      CompletedInUpdate(items[1..], j - 1, t);
    }
  }

  /** Replacing one category changes the summed counts by the differences of that category's counts. */
  lemma {:induction false} ItemsUpdate(cats: seq<Category>, k: nat, cat: Category)
    requires k < |cats|
    ensures TotalItems(cats[k := cat]) == TotalItems(cats) - |cats[k].items| + |cat.items|
    ensures CompletedItems(cats[k := cat]) == CompletedItems(cats) - CompletedIn(cats[k].items) + CompletedIn(cat.items)
    decreases k
  {
    if k == 0 {
      assert cats[k := cat][1..] == cats[1..];
    } else {
      assert cats[k := cat][1..] == cats[1..][k - 1 := cat];
      ItemsUpdate(cats[1..], k - 1, cat);
    }
  }

  /** A toggle keeps the total and moves the completed count by exactly one, up or down with the flag. */
  lemma ToggleMovesCount(c: ProjectChecklist, ci: nat, ii: nat)
    requires Toggleable(c, ci, ii)
    ensures TotalItems(ToggleAt(c, ci, ii).categories) == TotalItems(c.categories)
    ensures CompletedItems(ToggleAt(c, ci, ii).categories) ==
      CompletedItems(c.categories) + (if Done(c.categories[ci].items[ii]) then -1 else 1)
  {
    var cat := c.categories[ci];
    var cat' := cat.(items := cat.items[ii := ToggleTask(cat.items[ii])]);
    CompletedInUpdate(cat.items, ii, ToggleTask(cat.items[ii]));
    ItemsUpdate(c.categories, ci, cat');
  }

  // ---------------------------------------------------------------------------
  // Toggling over the page's list, and the writes it makes
  // ---------------------------------------------------------------------------

  /** Every record with the id has the category and the item the toggle names. */
  predicate AllToggleable(cs: seq<ChecklistRecord>, id: string, ci: nat, ii: nat) {
    forall k :: 0 <= k < |cs| && cs[k].id == id ==> Toggleable(cs[k].checklist, ci, ii)
  }

  /** The page's list after the toggle's `map`: records with the id toggled, the others kept. */
  function Toggled(cs: seq<ChecklistRecord>, id: string, ci: nat, ii: nat): (r: seq<ChecklistRecord>)
    requires AllToggleable(cs, id, ci, ii)
    decreases |cs|
  {
    if cs == [] then []
    else
      var last := cs[|cs| - 1];
      Toggled(cs[..|cs| - 1], id, ci, ii) + [if last.id == id then ToggleRecord(last, ci, ii) else last]
  }

  /** The toggle changes exactly the records with the id, in place, and no others. */
  lemma {:induction false} ToggledElements(cs: seq<ChecklistRecord>, id: string, ci: nat, ii: nat)
    requires AllToggleable(cs, id, ci, ii)
    ensures |Toggled(cs, id, ci, ii)| == |cs|
    ensures forall k :: 0 <= k < |cs| ==>
      Toggled(cs, id, ci, ii)[k] == if cs[k].id == id then ToggleRecord(cs[k], ci, ii) else cs[k]
    decreases |cs|
  {
    if cs != [] {
      ToggledElements(cs[..|cs| - 1], id, ci, ii);
    }
  }

  /** The store after the toggle: one whole-record update under the id for each record that has it, in list order. */
  function TogglesWritten(items: map<string, Value>, writeError: Option<string>, cs: seq<ChecklistRecord>, id: string, ci: nat, ii: nat, now: string): map<string, Value>
    requires AllToggleable(cs, id, ci, ii)
    decreases |cs|
  {
    if cs == [] then items
    else
      var before := TogglesWritten(items, writeError, cs[..|cs| - 1], id, ci, ii, now);
      var last := cs[|cs| - 1];
      if last.id == id then ChecklistUpdated(before, writeError, id, WholeChecklist(ToggleRecord(last, ci, ii)), now) else before
  }

  /** One more record of the list: one more toggle in the page's list, one more update in the store when it has the id. */
  lemma ToggleStep(items: map<string, Value>, writeError: Option<string>, cs: seq<ChecklistRecord>, id: string, ci: nat, ii: nat, now: string, i: nat)
    requires i < |cs| && AllToggleable(cs, id, ci, ii)
    ensures AllToggleable(cs[..i], id, ci, ii) && AllToggleable(cs[..i + 1], id, ci, ii)
    ensures cs[i].id == id ==> Toggleable(cs[i].checklist, ci, ii)
    ensures Toggled(cs[..i + 1], id, ci, ii) ==
      Toggled(cs[..i], id, ci, ii) + [if cs[i].id == id then ToggleRecord(cs[i], ci, ii) else cs[i]]
    ensures TogglesWritten(items, writeError, cs[..i + 1], id, ci, ii, now) ==
      var before := TogglesWritten(items, writeError, cs[..i], id, ci, ii, now);
      if cs[i].id == id then ChecklistUpdated(before, writeError, id, WholeChecklist(ToggleRecord(cs[i], ci, ii)), now) else before
  {
    assert cs[..i + 1][..i] == cs[..i];
  }

  /** With the id on a single record, the toggle makes exactly one update: that record, toggled. */
  lemma {:induction false} SingleToggleWrite(items: map<string, Value>, writeError: Option<string>, cs: seq<ChecklistRecord>, id: string, ci: nat, ii: nat, now: string, k: nat)
    requires k < |cs| && cs[k].id == id
    requires forall j :: 0 <= j < |cs| && j != k ==> cs[j].id != id
    requires Toggleable(cs[k].checklist, ci, ii)
    ensures TogglesWritten(items, writeError, cs, id, ci, ii, now) == ChecklistUpdated(items, writeError, id, WholeChecklist(ToggleRecord(cs[k], ci, ii)), now)
    decreases |cs|
  {
    var init := cs[..|cs| - 1];
    if k == |cs| - 1 {
      NoToggleWrite(items, writeError, init, id, ci, ii, now);
    } else {
      SingleToggleWrite(items, writeError, init, id, ci, ii, now, k);
    }
  }

  /** A list without the id leads to no write at all. */
  lemma {:induction false} NoToggleWrite(items: map<string, Value>, writeError: Option<string>, cs: seq<ChecklistRecord>, id: string, ci: nat, ii: nat, now: string)
    requires forall j :: 0 <= j < |cs| ==> cs[j].id != id
    ensures TogglesWritten(items, writeError, cs, id, ci, ii, now) == items
    decreases |cs|
  {
    if cs != [] {
      NoToggleWrite(items, writeError, cs[..|cs| - 1], id, ci, ii, now);
    }
  }

  class ChecklistPage {
    var checklists: seq<ChecklistRecord>
    var selected: Option<string>
    const store: Storage

    /** Mounting: the saved checklists, nothing selected. */
    constructor (store: Storage)
      ensures this.store == store && checklists == store.Checklists() && selected == None
    {
      this.store := store;
      checklists := store.Checklists();
      selected := None;
    }

    method Select(id: string)
      modifies this`selected
      ensures selected == Some(id)
    {
      selected := Some(id);
    }

    /** The record shown in detail: the first with the selected id, if any. */
    function SelectedData(): (r: Option<ChecklistRecord>)
      reads this
      ensures r.Some? ==> selected.Some? && r.value in checklists && r.value.id == selected.value
      ensures r.Some? ==> exists i :: 0 <= i < |checklists| && r.value == checklists[i]
                            && forall j :: 0 <= j < i ==> checklists[j].id != selected.value
      ensures r.None? <==> selected.None? || forall k :: 0 <= k < |checklists| ==> checklists[k].id != selected.value
    {
      if selected.None? then None
      else match FirstIndex(checklists, ChecklistId, selected.value)
        case None => None
        case Some(i) => Some(checklists[i])
    }

    /**
     * `toggleChecklistItem`: every record with the id gets the item toggled, and each such record
     * is written back whole through the collection's update, under the same id.
     */
    method Toggle(id: string, ci: nat, ii: nat, now: string)
      requires AllToggleable(checklists, id, ci, ii)
      modifies this`checklists, store
      ensures checklists == Toggled(old(checklists), id, ci, ii)
      ensures |checklists| == |old(checklists)|
      ensures forall k :: 0 <= k < |checklists| ==>
        checklists[k] == if old(checklists)[k].id == id then ToggleRecord(old(checklists)[k], ci, ii) else old(checklists)[k]
      ensures store.writeError == old(store.writeError)
      ensures store.items == TogglesWritten(old(store.items), store.writeError, old(checklists), id, ci, ii, now)
    {
      var cs := checklists;
      var updated: seq<ChecklistRecord> := [];
      var i := 0;
      while i < |cs|
        invariant 0 <= i <= |cs|
        invariant updated == Toggled(cs[..i], id, ci, ii)
        invariant store.writeError == old(store.writeError)
        invariant store.items == TogglesWritten(old(store.items), store.writeError, cs[..i], id, ci, ii, now)
      {
        var c := cs[i];
        ToggleStep(old(store.items), store.writeError, cs, id, ci, ii, now, i);
        if c.id == id {
          var t := ToggleRecord(c, ci, ii);
          var _ := store.UpdateChecklist(id, WholeChecklist(t), now);
          updated := updated + [t];
        } else {
          updated := updated + [c];
        }
        i := i + 1;
      }
      assert cs[..i] == cs;
      ToggledElements(cs, id, ci, ii);
      checklists := updated;
    }

    /**
     * `deleteChecklist`, after the confirmation: remove every record with the id from the
     * collection, re-read the list, and drop the selection if it was the deleted id.
     */
    method Delete(id: string, confirmed: bool)
      modifies this`checklists, this`selected, store
      ensures store.writeError == old(store.writeError)
      ensures !confirmed ==> checklists == old(checklists) && selected == old(selected) && store.items == old(store.items)
      ensures confirmed ==> checklists == store.Checklists()
      ensures confirmed ==>
        store.items == (if exists k :: 0 <= k < |old(store.Checklists())| && old(store.Checklists())[k].id == id
                        then Written(old(store.items), store.writeError, ChecklistsKey,
                                     ChecklistList(WithoutId(old(store.Checklists()), ChecklistId, id)))
                        else old(store.items))
      ensures confirmed && store.writeError.Some? ==> checklists == old(store.Checklists())
      ensures confirmed ==> (selected == None <==> old(selected) == Some(id) || old(selected) == None)
      ensures confirmed ==> (old(selected) != Some(id) ==> selected == old(selected))
      ensures confirmed && store.writeError.None? ==>
        checklists == WithoutId(old(store.Checklists()), ChecklistId, id) && forall k :: 0 <= k < |checklists| ==> checklists[k].id != id
    {
      if !confirmed {
        return;
      }
      var deleted := store.DeleteChecklist(id);
      if store.writeError.None? && !deleted {
        DeleteShrinks(old(store.Checklists()), ChecklistId, id);
      }
      checklists := store.Checklists();
      if selected == Some(id) {
        selected := None;
      }
      if store.writeError.None? {
        WithoutIdMembers(old(store.Checklists()), ChecklistId, id);
        forall k | 0 <= k < |checklists|
          ensures checklists[k].id != id
        {
          assert checklists[k] in WithoutId(old(store.Checklists()), ChecklistId, id);
        }
      }
    }

    /** `downloadChecklist`: the title slugged, plus the checklist suffix. */
    static function FileName(c: ChecklistRecord): (r: string)
      ensures NoSpace(r)
      ensures r == Slug(c.title) + ChecklistStep.ChecklistSuffix
    {
      ChecklistStep.DownloadName(c.title)
    }
  }
}
