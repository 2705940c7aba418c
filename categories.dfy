/**
 * The categories slice: the seeded two-level category tree and the reducers
 * that edit the list in place, with the `selectCategoryById` lookup.
 */
module Categories {
  import opened Wrappers
  import opened Records
  import KeyedList

  /** A category: `userId`, `parentId` (a top-level category has `null`), `type`, `sortOrder`, `isActive`. */
  type Category = Record

  /** The parent a category names, if its `parentId` is not `null`. */
  function ParentOf(c: Category): Option<Id> {
    StringProp(c, "parentId")
  }

  /** A system-defined seed category; its display name, icon and colour are not modelled. */
  function SystemCategory(id: Id, parentId: Option<Id>, kind: string, sortOrder: int): (c: Category)
    ensures c.id == id && ParentOf(c) == parentId && WellFormed(c)
    ensures StringProp(c, "userId") == Some("SYSTEM")
    ensures parentId.None? ==> "parentId" in c.fields && c.fields["parentId"] == Null
  {
    Record(id, map[
      "userId" := Str("SYSTEM"),
      "parentId" := (match parentId case None => Null case Some(p) => Str(p)),
      "type" := Str(kind),
      "sortOrder" := Num(sortOrder),
      "isActive" := Bool(true)])
  }

  /** One line of the seed table: id, parent, type and sort order of a system category. */
  datatype SeedRow = SeedRow(id: Id, parentId: Option<Id>, kind: string, sortOrder: int)

  /** The initial state's categories, in order. */
  const SeedRows: seq<SeedRow> := [
    SeedRow("cat_food", None, "EXPENSE", 1),
    SeedRow("cat_shopping", None, "EXPENSE", 2),
    SeedRow("cat_cloth", Some("cat_shopping"), "EXPENSE", 3),
    SeedRow("cat_daily", Some("cat_shopping"), "EXPENSE", 4),
    SeedRow("cat_digital", Some("cat_shopping"), "EXPENSE", 5),
    SeedRow("cat_beauty_root", None, "EXPENSE", 6),
    SeedRow("cat_beauty", Some("cat_beauty_root"), "EXPENSE", 7),
    SeedRow("cat_skin", Some("cat_beauty_root"), "EXPENSE", 8),
    SeedRow("cat_house", None, "EXPENSE", 9),
    SeedRow("cat_traffic", None, "EXPENSE", 10),
    SeedRow("cat_car", Some("cat_traffic"), "EXPENSE", 11),
    SeedRow("cat_game", None, "EXPENSE", 12),
    SeedRow("cat_travel_root", Some("cat_game"), "EXPENSE", 13),
    SeedRow("cat_vacation", Some("cat_game"), "EXPENSE", 14),
    SeedRow("cat_social", None, "EXPENSE", 15),
    SeedRow("cat_favor", Some("cat_social"), "EXPENSE", 16),
    SeedRow("cat_medical", None, "EXPENSE", 17),
    SeedRow("cat_baby", None, "EXPENSE", 18),
    SeedRow("cat_pet", None, "EXPENSE", 19),
    SeedRow("cat_study", None, "EXPENSE", 20),
    SeedRow("cat_office", None, "EXPENSE", 21),
    SeedRow("cat_smoke", None, "EXPENSE", 22),
    SeedRow("cat_lottery", None, "EXPENSE", 23),
    SeedRow("cat_salary", None, "INCOME", 101),
    SeedRow("cat_bonus", None, "INCOME", 102),
    SeedRow("cat_investment", None, "INCOME", 103),
    SeedRow("cat_refund_income", None, "INCOME", 104)
  ]

  /** The initial state's list of categories, built from the seed table. */
  const Seed: seq<Category> :=
    seq(|SeedRows|, i requires 0 <= i < |SeedRows| =>
      SystemCategory(SeedRows[i].id, SeedRows[i].parentId, SeedRows[i].kind, SeedRows[i].sortOrder))

  /** The seed holds 27 categories with pairwise distinct ids. */
  lemma SeedIdsDistinct()
    ensures |Seed| == 27 && KeyedList.DistinctIds(Seed)
  {
    assert forall i, j :: 0 <= i < j < |SeedRows| ==> SeedRows[i].id != SeedRows[j].id;
  }

  /** Where the seed table holds a given top-level category. */
  function RootRow(p: Id): (j: int) {
    if p == "cat_shopping" then 1
    else if p == "cat_beauty_root" then 5
    else if p == "cat_traffic" then 9
    else if p == "cat_game" then 11
    else if p == "cat_social" then 14
    else -1
  }

  /** In the seed table, every named parent is a row of its own without a parent. */
  lemma SeedRowParentsAreRoots()
    ensures forall i :: 0 <= i < |SeedRows| && SeedRows[i].parentId.Some? ==>
      var j := RootRow(SeedRows[i].parentId.value);
      0 <= j < |SeedRows| && SeedRows[j].id == SeedRows[i].parentId.value && SeedRows[j].parentId.None?
  {
  }

  /** The seed is a two-level tree: every parent a seed category names is a top-level seed category. */
  lemma SeedParentsAreRoots()
    ensures forall i :: 0 <= i < |Seed| && ParentOf(Seed[i]).Some? ==>
      exists j ::
        0 <= j < |Seed| && Seed[j].id == ParentOf(Seed[i]).value &&
        "parentId" in Seed[j].fields && Seed[j].fields["parentId"] == Null
  {
    SeedRowParentsAreRoots();
    forall i | 0 <= i < |Seed| && ParentOf(Seed[i]).Some?
      ensures exists j ::
        0 <= j < |Seed| && Seed[j].id == ParentOf(Seed[i]).value &&
        "parentId" in Seed[j].fields && Seed[j].fields["parentId"] == Null
    {
      var j := RootRow(SeedRows[i].parentId.value);
      assert Seed[j].id == ParentOf(Seed[i]).value && Seed[j].fields["parentId"] == Null;
    }
  }

  /** The categories slice's state: `state.items`, edited in place by the reducers. */
  class CategoriesStore {
    var items: seq<Category>

    /** The store starts from the initial state. */
    constructor ()
      ensures items == Seed
    {
      items := Seed;
    }

    /** `setCategories`: the payload becomes the whole list. */
    method SetCategories(payload: seq<Category>)
      modifies this
      ensures items == payload
    {
      items := payload;
    }

    /** `addCategory`: `push` the payload; no check for an id that is already present. */
    method AddCategory(category: Category)
      modifies this
      ensures items == old(items) + [category]
      ensures KeyedList.DistinctIds(items) <==>
              KeyedList.DistinctIds(old(items)) && !KeyedList.HasId(old(items), category.id)
    {
      KeyedList.DistinctAfterAppend(items, category);
      items := items + [category];
    }

    /** `upsertCategory`: replace the first element with the same id, or `push` when there is none. */
    method UpsertCategory(next: Category)
      modifies this
      ensures items == KeyedList.Upserted(old(items), next)
      ensures KeyedList.Find(items, next.id) == Some(next)
      ensures KeyedList.DistinctIds(old(items)) ==> KeyedList.DistinctIds(items)
    {
      KeyedList.FindAfterUpsert(items, next);
      if KeyedList.DistinctIds(items) {
        KeyedList.DistinctAfterUpsert(items, next);
      }
      var index := KeyedList.FirstIndexOf(items, next.id);
      if index == -1 {
        items := items + [next];
        return;
      }
      items := items[index := next];
    }

    /** `updateCategory`: merge the changes into the first match, keeping its id; an unknown id does nothing. */
    method UpdateCategory(id: Id, changes: Changes)
      modifies this
      ensures items == KeyedList.Updated(old(items), id, changes)
      ensures KeyedList.Ids(items) == KeyedList.Ids(old(items))
      ensures KeyedList.DistinctIds(old(items)) ==> KeyedList.DistinctIds(items)
    {
      KeyedList.UpdatedIds(items, id, changes);
      if KeyedList.DistinctIds(items) {
        KeyedList.DistinctAfterUpdate(items, id, changes);
      }
      var index := KeyedList.FirstIndexOf(items, id);
      if index == -1 {
        return;
      }
      items := items[index := Merge(items[index], changes)];
    }

    /** `removeCategory`: keep, in order, every element whose id differs. */
    method RemoveCategory(id: Id)
      modifies this
      ensures items == KeyedList.Removed(old(items), id)
      ensures !KeyedList.HasId(items, id)
      ensures KeyedList.DistinctIds(old(items)) ==> KeyedList.DistinctIds(items)
    {
      if KeyedList.DistinctIds(items) {
        KeyedList.DistinctAfterRemove(items, id);
      }
      items := KeyedList.Removed(items, id);
    }

    /** `clearCategories`: the list becomes empty. */
    method ClearCategories()
      modifies this
      ensures items == []
    {
      items := [];
    }

    /** `resetCategories`: the state goes back to the initial state. */
    method ResetCategories()
      modifies this
      ensures items == Seed && |items| == 27 && KeyedList.DistinctIds(items)
    {
      SeedIdsDistinct();
      items := Seed;
    }

    /** `selectCategoryById(id)`: the first category whose id matches, or none. */
    function SelectCategoryById(id: Id): (r: Option<Category>)
      reads this
      ensures r.None? <==> !KeyedList.HasId(items, id)
      ensures r.Some? ==> r.value == items[KeyedList.FirstIndexOf(items, id)]
    {
      KeyedList.FindIsAtFirstIndex(items, id);
      KeyedList.Find(items, id)
    }
  }
}
