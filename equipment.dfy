/**
 * `EquipmentView`, `AddEquipmentView` and `EditEquipmentView`: the issued-equipment
 * inventory, its sections, the held and returned counts, swipe deletion per section, and the
 * add and edit forms.
 */
module Equipment {
  import opened Clock
  import opened Wrappers
  import opened Collections
  import opened Store
  import Sections

  datatype EquipmentItem = EquipmentItem(
    name: string,
    category: string,
    serialNumber: Option<string>,
    isIssued: bool,
    isReturned: bool,
    issueDate: Option<Instant>,
    returnDate: Option<Instant>,
    notes: Option<string>)

  const CategoryOrder: seq<string> := ["Aseet", "Suojavarusteet", "Kantamukset", "Vaatteet", "Muu"]

  /** The add form's initial category; unlike the other checklists it has a section. */
  const AddFormDefaultCategory: string := "Muu"

  const Weapons: seq<(string, string)> := [
    ("RK 62 / RK 95", "Aseet"),
    ("Pistooli", "Aseet")
  ]

  const Protection: seq<(string, string)> := [
    ("Kypärä", "Suojavarusteet"),
    ("Suojalasit", "Suojavarusteet"),
    ("Kaasunaamari", "Suojavarusteet"),
    ("Taisteluvyö", "Suojavarusteet")
  ]

  const Carrying: seq<(string, string)> := [
    ("Reppu (selkäreppu)", "Kantamukset"),
    ("Taistelutasku", "Kantamukset"),
    ("Patruunapussit", "Kantamukset")
  ]

  const Clothing: seq<(string, string)> := [
    ("Kenttäpuku M05", "Vaatteet"),
    ("Saappaat", "Vaatteet"),
    ("Talvitakki", "Vaatteet"),
    ("Makuupussi", "Vaatteet")
  ]

  /** `allItems`: the groups in the order they are inserted. */
  function DefaultItems(): seq<(string, string)> {
    Weapons + Protection + Carrying + Clothing
  }

  /** `EquipmentItem(name:category:)` with every other field at its default. */
  function NewItem(name: string, category: string): EquipmentItem {
    EquipmentItem(name, category, None, false, false, None, None, None)
  }

  /** The records `populateDefaultItems` inserts. */
  function DefaultRecords(): (r: seq<EquipmentItem>)
    ensures |r| == |DefaultItems()|
    ensures forall k :: 0 <= k < |r| ==> r[k] == NewItem(DefaultItems()[k].0, DefaultItems()[k].1)
  {
    seq(|DefaultItems()|, k requires 0 <= k < |DefaultItems()| => NewItem(DefaultItems()[k].0, DefaultItems()[k].1))
  }

  lemma CategoryOrderDistinct()
    ensures NoDuplicates(CategoryOrder)
  {
  }

  /** There are 13 defaults, none issued or returned, each in a category that has a section. */
  lemma DefaultsShape()
    ensures |DefaultRecords()| == 13
    ensures forall k :: 0 <= k < 13 ==> !DefaultRecords()[k].isIssued && !DefaultRecords()[k].isReturned
    ensures forall k :: 0 <= k < 13 ==> DefaultRecords()[k].category in CategoryOrder
  {
    var all := DefaultItems();
    assert forall k :: 0 <= k < |all| ==> all[k].1 in CategoryOrder by {
      assert forall k :: 0 <= k < |Weapons| ==> Weapons[k].1 == CategoryOrder[0];
      assert forall k :: 0 <= k < |Protection| ==> Protection[k].1 == CategoryOrder[1];
      assert forall k :: 0 <= k < |Carrying| ==> Carrying[k].1 == CategoryOrder[2];
      assert forall k :: 0 <= k < |Clothing| ==> Clothing[k].1 == CategoryOrder[3];
    }
  }

  function CategoryOf(x: Stored<EquipmentItem>): string {
    x.value.category
  }

  /** `categories`: the fixed order, filtered to the categories present, each once and in order. */
  function Categories(items: seq<Stored<EquipmentItem>>): (r: seq<string>)
    ensures forall c :: c in r <==> c in CategoryOrder && exists i :: 0 <= i < |items| && items[i].value.category == c
    ensures NoDuplicates(r) && InOrderOf(r, CategoryOrder)
  {
    CategoryOrderDistinct();
    Sections.OrderedCategoriesDistinct(CategoryOrder, Sections.CategorySet(items, CategoryOf));
    Sections.Categories(CategoryOrder, items, CategoryOf)
  }

  /** `itemsInCategory(c)`. */
  function ItemsInCategory(items: seq<Stored<EquipmentItem>>, category: string): (r: seq<Stored<EquipmentItem>>)
    ensures forall i :: 0 <= i < |r| ==> r[i] in items && r[i].value.category == category
    ensures forall i :: 0 <= i < |items| && items[i].value.category == category ==> items[i] in r
  {
    Sections.ItemsInCategory(items, CategoryOf, category)
  }

  function IsHeld(x: Stored<EquipmentItem>): bool {
    x.value.isIssued && !x.value.isReturned
  }

  function IsReturned(x: Stored<EquipmentItem>): bool {
    x.value.isReturned
  }

  function NotReturned(x: Stored<EquipmentItem>): bool {
    !x.value.isReturned
  }

  function IsIssued(x: Stored<EquipmentItem>): bool {
    x.value.isIssued
  }

  /** `issuedCount`, shown as "Hallussa": issued and not yet returned. */
  function IssuedCount(items: seq<Stored<EquipmentItem>>): (r: nat)
    ensures r <= |items|
  {
    |Filter(items, IsHeld)|
  }

  /** `returnedCount`: returned, whether or not still marked issued. */
  function ReturnedCount(items: seq<Stored<EquipmentItem>>): (r: nat)
    ensures r <= |items|
  {
    |Filter(items, IsReturned)|
  }

  /** The items not yet returned are all issued exactly when every item is issued or returned. */
  lemma OpenItemsIssued(items: seq<Stored<EquipmentItem>>)
    ensures var open := Filter(items, NotReturned);
      (forall i :: 0 <= i < |open| ==> IsIssued(open[i]))
        <==> forall i :: 0 <= i < |items| ==> items[i].value.isIssued || items[i].value.isReturned
  {
    var open := Filter(items, NotReturned);
    if forall i :: 0 <= i < |open| ==> IsIssued(open[i]) {
      forall i | 0 <= i < |items| && !items[i].value.isReturned ensures items[i].value.isIssued {
        assert items[i] in open;
      }
    }
    if forall i :: 0 <= i < |items| ==> items[i].value.isIssued || items[i].value.isReturned {
      forall i | 0 <= i < |open| ensures IsIssued(open[i]) {
        assert open[i] in items && NotReturned(open[i]);
        var j :| 0 <= j < |items| && items[j] == open[i];
      }
    }
  }

  /** No item is counted both as held and as returned, so the two counts fit in the total. */
  lemma CountsDisjoint(items: seq<Stored<EquipmentItem>>)
    ensures IssuedCount(items) + ReturnedCount(items) <= |items|
    ensures IssuedCount(items) + ReturnedCount(items) == |items| <==>
      forall i :: 0 <= i < |items| ==> items[i].value.isIssued || items[i].value.isReturned
  {
    FilterSplits(items, IsReturned, NotReturned);
    FilterFilter(items, NotReturned, IsIssued, IsHeld);
    FilterFull(Filter(items, NotReturned), IsIssued);
    OpenItemsIssued(items);
  }

  /** Rows swiped in one section delete only items of that section's category. */
  lemma DeleteInCategoryKeepsOthers(items: seq<Stored<EquipmentItem>>, nextId: nat, category: string,
                                    offsets: seq<nat>, i: nat)
    requires WellKeyed(items, nextId)
    requires i < |items| && items[i].value.category != category
    ensures items[i].id !in IdsAt(ItemsInCategory(items, category), offsets)
  {
    var view := ItemsInCategory(items, category);
    forall k | 0 <= k < |offsets| && offsets[k] < |view| ensures view[offsets[k]].id != items[i].id {
      var j :| 0 <= j < |items| && items[j] == view[offsets[k]];
      assert i != j;
    }
  }

  /** `EditEquipmentView`'s form state, as `init(item:)` fills it in. */
  datatype EditDraft = EditDraft(serialNumber: string, isIssued: bool, isReturned: bool, notes: string)

  function DraftOf(item: EquipmentItem): (d: EditDraft)
    ensures d.isIssued == item.isIssued && d.isReturned == item.isReturned
    ensures item.serialNumber.Some? ==> d.serialNumber == item.serialNumber.value
    ensures item.serialNumber.None? ==> d.serialNumber == ""
    ensures item.notes.Some? ==> d.notes == item.notes.value
    ensures item.notes.None? ==> d.notes == ""
  {
    EditDraft(item.serialNumber.GetOr(""), item.isIssued, item.isReturned, item.notes.GetOr(""))
  }

  /** The edit form's Save: writes the four editable fields, empty text as nil, and nothing else. */
  function ApplyEdit(item: EquipmentItem, draft: EditDraft): (r: EquipmentItem)
    ensures r.name == item.name && r.category == item.category
    ensures r.issueDate == item.issueDate && r.returnDate == item.returnDate
    ensures r.isIssued == draft.isIssued && r.isReturned == draft.isReturned
    ensures r.serialNumber == None <==> draft.serialNumber == ""
    ensures r.serialNumber.Some? ==> r.serialNumber.value == draft.serialNumber
    ensures r.notes == None <==> draft.notes == ""
    ensures r.notes.Some? ==> r.notes.value == draft.notes
  {
    item.(serialNumber := NilIfEmpty(draft.serialNumber),
          isIssued := draft.isIssued,
          isReturned := draft.isReturned,
          notes := NilIfEmpty(draft.notes))
  }

  /** Neither optional text is present but empty; every add and edit save keeps this. */
  predicate NoEmptyText(item: EquipmentItem) {
    item.serialNumber != Some("") && item.notes != Some("")
  }

  /** Opening the edit form and saving without changes leaves the item as it was. */
  lemma EditWithoutChanges(item: EquipmentItem)
    requires NoEmptyText(item)
    ensures ApplyEdit(item, DraftOf(item)) == item
  {
  }

  /** An edit save always leaves the item with no present-but-empty text. */
  lemma EditKeepsNoEmptyText(item: EquipmentItem, draft: EditDraft)
    ensures NoEmptyText(ApplyEdit(item, draft))
  {
  }

  /** What the add form saves: empty serial and notes as nil, not returned, no dates. */
  function AddedItem(name: string, category: string, serialNumber: string, isIssued: bool, notes: string): (r: EquipmentItem)
    ensures NoEmptyText(r) && !r.isReturned && r.issueDate.None? && r.returnDate.None?
    ensures r.name == name && r.category == category && r.isIssued == isIssued
    ensures r.serialNumber == None <==> serialNumber == ""
    ensures r.notes == None <==> notes == ""
  {
    EquipmentItem(name, category, NilIfEmpty(serialNumber), isIssued, false, None, None, NilIfEmpty(notes))
  }

  class EquipmentStore {
    var items: seq<Stored<EquipmentItem>>
    var nextId: nat

    ghost predicate Valid()
      reads this
    {
      WellKeyed(items, nextId)
    }

    constructor ()
      ensures Valid() && items == []
    {
      items := [];
      nextId := 0;
    }

    /** `deleteItems(in:at:)`: offsets index that section's items; out-of-range ones are skipped. */
    method DeleteItems(category: string, offsets: seq<nat>)
      requires Valid()
      modifies this
      ensures Valid()
      ensures items == Without(old(items), IdsAt(ItemsInCategory(old(items), category), offsets))
      ensures nextId == old(nextId)
    {
      var categoryItems := ItemsInCategory(items, category);
      items := DeleteRows(items, categoryItems, offsets);
      WithoutWellKeyed(old(items), IdsAt(categoryItems, offsets), nextId);
    }

    /** `populateDefaultItems()`: inserts the defaults one by one. */
    method PopulateDefaultItems()
      requires Valid()
      modifies this
      ensures Valid()
      ensures Values(items) == old(Values(items)) + DefaultRecords()
      ensures Appended(old(items), items, old(nextId), DefaultRecords())
      ensures nextId == old(nextId) + |DefaultRecords()|
    {
      var allItems := DefaultItems();
      var records := DefaultRecords();
      ExtendsNothing(items, nextId);
      for k := 0 to |allItems|
        invariant Valid()
        invariant nextId == old(nextId) + k
        invariant Values(items) == old(Values(items)) + records[..k]
        invariant Extends(old(items), items, old(nextId))
      {
        var (name, category) := allItems[k];
        var item := NewItem(name, category);
        assert item == records[k];
        InsertRunStep(old(items), items, old(nextId), nextId, records, k);
        items := Insert(items, nextId, item);
        nextId := nextId + 1;
      }
      assert records[..|records|] == records;
    }

    /** `onAppear`: the defaults go in only when the list is empty, so a second appearance changes nothing. */
    method OnAppear()
      requires Valid()
      modifies this
      ensures Valid()
      ensures old(items) != [] ==> items == old(items) && nextId == old(nextId)
      ensures old(items) == [] ==> Values(items) == DefaultRecords()
      ensures items != []
    {
      if items == [] {
        PopulateDefaultItems();
        DefaultsShape();
        assert |Values(items)| == 13;
      }
    }

    /** `AddEquipmentView`'s Save, disabled while the name is empty. */
    method AddItem(name: string, category: string, serialNumber: string, isIssued: bool, notes: string)
      returns (saved: bool)
      requires Valid()
      modifies this
      ensures Valid()
      ensures saved <==> name != ""
      ensures saved ==> Values(items) == old(Values(items)) + [AddedItem(name, category, serialNumber, isIssued, notes)]
      ensures saved ==> Appended(old(items), items, old(nextId), [AddedItem(name, category, serialNumber, isIssued, notes)])
      ensures !saved ==> items == old(items)
    {
      saved := name != "";
      if saved {
        items := Insert(items, nextId, AddedItem(name, category, serialNumber, isIssued, notes));
        nextId := nextId + 1;
      }
    }

    /** `EditEquipmentView`'s Save on the item at `at`, in place. */
    method SaveEdit(at: nat, draft: EditDraft)
      requires Valid() && at < |items|
      modifies this
      ensures Valid()
      ensures items == old(items)[at := Stored(old(items)[at].id, ApplyEdit(old(items)[at].value, draft))]
      ensures nextId == old(nextId)
    {
      items := items[at := Stored(items[at].id, ApplyEdit(items[at].value, draft))];
    }
  }
}
