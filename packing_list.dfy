/**
 * `PackingListView` and `AddPackingItemView`: the packing checklist, its sections, the
 * checked count, and the default list filled in on first appearance.
 */
module PackingList {
  import opened Collections
  import opened Store
  import Sections

  datatype PackingItem = PackingItem(name: string, category: string, isChecked: bool, isCustom: bool)

  const CategoryOrder: seq<string> := ["Pakollinen", "Lääkkeet", "Vaatteet", "Hygienia", "Hyödylliset", "Ajanviete"]

  /** The add form's initial category, which its picker does not offer. */
  const AddFormDefaultCategory: string := "Muut"

  /** The add form's picker. */
  const AddFormCategories: seq<string> := ["Pakollinen", "Lääkkeet", "Hygienia", "Vaatteet", "Hyödylliset", "Ajanviete"]

  const Mandatory: seq<(string, string)> := [
    ("Henkilöllisyystodistus", "Pakollinen"),
    ("Palveluksen aloittamismääräys", "Pakollinen"),
    ("Tilinumero (IBAN-muodossa)", "Pakollinen"),
    ("Kela-kortti (sairausvakuutuskortti)", "Pakollinen"),
    ("Puhelin", "Pakollinen")
  ]

  const Medical: seq<(string, string)> := [
    ("Omat lääkkeet (~2 viikon tarve)", "Lääkkeet"),
    ("Reseptit", "Lääkkeet"),
    ("Rokotuskortti", "Lääkkeet"),
    ("Kipulääke (burana, panadol)", "Lääkkeet"),
    ("Laastarit", "Lääkkeet"),
    ("Rakkolaastarit", "Lääkkeet")
  ]

  const Hygiene: seq<(string, string)> := [
    ("Hammasharja + tahna", "Hygienia"),
    ("Saippua / suihkugeeli", "Hygienia"),
    ("Shampoo", "Hygienia"),
    ("Deodorantti", "Hygienia"),
    ("Partakone / -höylä", "Hygienia"),
    ("Pyyhkeet (1-2 kpl)", "Hygienia"),
    ("Kynsileikkuri / -sakset", "Hygienia"),
    ("Kosteuspyyhkeet", "Hygienia")
  ]

  const Clothes: seq<(string, string)> := [
    ("Omat alusvaatteet", "Vaatteet"),
    ("Sukat (paljon!)", "Vaatteet"),
    ("Pitkät aluskerrastot (talvi)", "Vaatteet"),
    ("Omat pohjalliset", "Vaatteet"),
    ("vapaa-ajan vaatteet", "Vaatteet"),
    ("Salivaatteet", "Vaatteet")
  ]

  /** The last entry of this group is filed under "Ajanviete", as in the source. */
  const Useful: seq<(string, string)> := [
    ("Rannekello (taustavalo!)", "Hyödylliset"),
    ("Käteistä rahaa", "Hyödylliset"),
    ("Otsalamppu / taskulamppu", "Hyödylliset"),
    ("Puukko / monitoimityökalu", "Hyödylliset"),
    ("Matka-akku (powerbank)", "Hyödylliset"),
    ("Kuulokkeet", "Hyödylliset"),
    ("Urheiluteippi", "Hyödylliset"),
    ("Laturi (USB-A ja -C)", "Hyödylliset"),
    ("lukuvalo", "Hyödylliset"),
    ("Juomapullo", "Ajanviete")
  ]

  const Entertainment: seq<(string, string)> := [
    ("Kirja / lehti", "Ajanviete"),
    ("Muistiinpanovälineet (vihko, kynä)", "Ajanviete"),
    ("Naposteltavaa (ei turhaa)", "Ajanviete")
  ]

  /** `allItems`: the groups in the order they are inserted. */
  function DefaultItems(): seq<(string, string)> {
    Mandatory + Medical + Hygiene + Clothes + Useful + Entertainment
  }

  /** The records `populateDefaultItems` inserts: unchecked, not custom. */
  function DefaultRecords(): (r: seq<PackingItem>)
    ensures |r| == |DefaultItems()|
    ensures forall k :: 0 <= k < |r| ==> r[k] == PackingItem(DefaultItems()[k].0, DefaultItems()[k].1, false, false)
  {
    seq(|DefaultItems()|, k requires 0 <= k < |DefaultItems()| => PackingItem(DefaultItems()[k].0, DefaultItems()[k].1, false, false))
  }

  lemma CategoryOrderDistinct()
    ensures NoDuplicates(CategoryOrder)
  {
  }

  /** There are 38 defaults, none checked or custom, each in a category that has a section. */
  lemma DefaultsShape()
    ensures |DefaultRecords()| == 38
    ensures forall k :: 0 <= k < 38 ==> !DefaultRecords()[k].isChecked && !DefaultRecords()[k].isCustom
    ensures forall k :: 0 <= k < 38 ==> DefaultRecords()[k].category in CategoryOrder
  {
    var all := DefaultItems();
    assert forall k :: 0 <= k < |all| ==> all[k].1 in CategoryOrder by {
      assert forall k :: 0 <= k < |Mandatory| ==> Mandatory[k].1 == CategoryOrder[0];
      assert forall k :: 0 <= k < |Medical| ==> Medical[k].1 == CategoryOrder[1];
      assert forall k :: 0 <= k < |Hygiene| ==> Hygiene[k].1 == CategoryOrder[3];
      assert forall k :: 0 <= k < |Clothes| ==> Clothes[k].1 == CategoryOrder[2];
      assert forall k :: 0 <= k < |Useful| ==> Useful[k].1 in CategoryOrder[4..];
      assert forall k :: 0 <= k < |Entertainment| ==> Entertainment[k].1 == CategoryOrder[5];
    }
  }

  function CategoryOf(x: Stored<PackingItem>): string {
    x.value.category
  }

  /** `categories`: the fixed order, filtered to the categories present, each once and in order. */
  function Categories(items: seq<Stored<PackingItem>>): (r: seq<string>)
    ensures forall c :: c in r <==> c in CategoryOrder && exists i :: 0 <= i < |items| && items[i].value.category == c
    ensures NoDuplicates(r) && InOrderOf(r, CategoryOrder)
  {
    CategoryOrderDistinct();
    Sections.OrderedCategoriesDistinct(CategoryOrder, Sections.CategorySet(items, CategoryOf));
    Sections.Categories(CategoryOrder, items, CategoryOf)
  }

  /** `itemsInCategory(c)`. */
  function ItemsInCategory(items: seq<Stored<PackingItem>>, category: string): (r: seq<Stored<PackingItem>>)
    ensures forall i :: 0 <= i < |r| ==> r[i] in items && r[i].value.category == category
    ensures forall i :: 0 <= i < |items| && items[i].value.category == category ==> items[i] in r
  {
    Sections.ItemsInCategory(items, CategoryOf, category)
  }

  /**
   * An item saved with the add form's untouched category is in no section: it counts toward
   * the total but has no row to check or delete it from.
   */
  lemma UntouchedCategoryHidden(items: seq<Stored<PackingItem>>, x: Stored<PackingItem>, c: string)
    requires x.value.category == AddFormDefaultCategory
    requires c in Categories(items)
    ensures x !in ItemsInCategory(items, c)
  {
    PickerCategoriesShown();
    assert c in Sections.Categories(CategoryOrder, items, CategoryOf);
    Sections.OutsideOrderNeverShown(CategoryOrder, items, CategoryOf, x, c);
  }

  /** Every category the picker offers has a section. */
  lemma PickerCategoriesShown()
    ensures forall c :: c in AddFormCategories ==> c in CategoryOrder
    ensures AddFormDefaultCategory !in CategoryOrder
  {
  }

  function IsChecked(x: Stored<PackingItem>): bool {
    x.value.isChecked
  }

  /** `checkedCount`, never more than `totalCount`. */
  function CheckedCount(items: seq<Stored<PackingItem>>): (r: nat)
    ensures r <= |items|
    ensures r == |items| <==> forall i :: 0 <= i < |items| ==> items[i].value.isChecked
  {
    var r := |Filter(items, IsChecked)|;
    if forall i :: 0 <= i < |items| ==> items[i].value.isChecked then
      FilterAll(items, IsChecked);
      r
    else
      var i :| 0 <= i < |items| && !items[i].value.isChecked;
      FilterMissesOne(items, IsChecked, i);
      r
  }

  /** The progress bar's total: the item count, but at least 1 so the bar is defined when empty. */
  function ProgressTotal(items: seq<Stored<PackingItem>>): (r: nat)
    ensures r >= 1 && CheckedCount(items) <= r
    ensures items != [] ==> r == |items|
  {
    if 1 > |items| then 1 else |items|
  }

  /** The row's check button: flips `isChecked` of the item at `at`. */
  function ToggleAt(items: seq<Stored<PackingItem>>, at: nat): (r: seq<Stored<PackingItem>>)
    requires at < |items|
    ensures |r| == |items| && r[at].id == items[at].id
    ensures r[at].value == items[at].value.(isChecked := !items[at].value.isChecked)
    ensures forall i :: 0 <= i < |items| && i != at ==> r[i] == items[i]
  {
    items[at := Stored(items[at].id, items[at].value.(isChecked := !items[at].value.isChecked))]
  }

  /** Toggling twice restores the list; each toggle moves the checked count by one. */
  lemma ToggleAtProperties(items: seq<Stored<PackingItem>>, at: nat)
    requires at < |items|
    ensures ToggleAt(ToggleAt(items, at), at) == items
    ensures items[at].value.isChecked ==> CheckedCount(ToggleAt(items, at)) + 1 == CheckedCount(items)
    ensures !items[at].value.isChecked ==> CheckedCount(ToggleAt(items, at)) == CheckedCount(items) + 1
  {
    FilterCountUpdate(items, at, ToggleAt(items, at)[at], IsChecked);
    assert ToggleAt(ToggleAt(items, at), at) == items;
  }

  /** `resetChecks()` on the whole list: everything unchecked, nothing else changed. */
  function Unchecked(items: seq<Stored<PackingItem>>): (r: seq<Stored<PackingItem>>)
    ensures |r| == |items|
    ensures forall i :: 0 <= i < |items| ==> r[i].id == items[i].id && r[i].value == items[i].value.(isChecked := false)
  {
    seq(|items|, i requires 0 <= i < |items| => Stored(items[i].id, items[i].value.(isChecked := false)))
  }

  lemma UncheckedCount(items: seq<Stored<PackingItem>>)
    ensures CheckedCount(Unchecked(items)) == 0
    ensures Unchecked(Unchecked(items)) == Unchecked(items)
  {
    FilterNone(Unchecked(items), IsChecked);
  }

  class PackingStore {
    var items: seq<Stored<PackingItem>>
    var nextId: nat

    ghost predicate Valid()
      reads this
    {
      WellKeyed(items, nextId)
    }

    constructor ()
      ensures Valid() && items == []
    {
      items := [];
      nextId := 0;
    }

    /** `item.isChecked.toggle()`. */
    method Toggle(at: nat)
      requires Valid() && at < |items|
      modifies this
      ensures Valid()
      ensures items == ToggleAt(old(items), at) && nextId == old(nextId)
    {
      items := items[at := Stored(items[at].id, items[at].value.(isChecked := !items[at].value.isChecked))];
    }

    /** `resetChecks()`: one item at a time, in list order. */
    method ResetChecks()
      requires Valid()
      modifies this
      ensures Valid()
      ensures items == Unchecked(old(items)) && nextId == old(nextId)
    {
      for k := 0 to |items|
        invariant |items| == |old(items)| && nextId == old(nextId)
        invariant forall i :: 0 <= i < k ==> items[i] == Unchecked(old(items))[i]
        invariant forall i :: k <= i < |items| ==> items[i] == old(items)[i]
      {
        items := items[k := Stored(items[k].id, items[k].value.(isChecked := false))];
      }
    }

    /** `populateDefaultItems()`: inserts the defaults one by one. */
    method PopulateDefaultItems()
      requires Valid()
      modifies this
      ensures Valid()
      ensures Values(items) == old(Values(items)) + DefaultRecords()
      ensures Appended(old(items), items, old(nextId), DefaultRecords())
      ensures nextId == old(nextId) + |DefaultRecords()|
    {
      var allItems := DefaultItems();
      var records := DefaultRecords();
      ExtendsNothing(items, nextId);
      for k := 0 to |allItems|
        invariant Valid()
        invariant nextId == old(nextId) + k
        invariant Values(items) == old(Values(items)) + records[..k]
        invariant Extends(old(items), items, old(nextId))
      {
        var (name, category) := allItems[k];
        var item := PackingItem(name, category, false, false);
        assert item == records[k];
        InsertRunStep(old(items), items, old(nextId), nextId, records, k);
        items := Insert(items, nextId, item);
        nextId := nextId + 1;
      }
      assert records[..|records|] == records;
    }

    /** `onAppear`: the defaults go in only when the list is empty, so a second appearance changes nothing. */
    method OnAppear()
      requires Valid()
      modifies this
      ensures Valid()
      ensures old(items) != [] ==> items == old(items) && nextId == old(nextId)
      ensures old(items) == [] ==> Values(items) == DefaultRecords()
      ensures items != []
    {
      if items == [] {
        PopulateDefaultItems();
        DefaultsShape();
        assert |Values(items)| == 38;
      }
    }

    /** `AddPackingItemView`'s Save, disabled while the name is empty; the item is custom and unchecked. */
    method AddItem(itemName: string, category: string) returns (saved: bool)
      requires Valid()
      modifies this
      ensures Valid()
      ensures saved <==> itemName != ""
      ensures saved ==> Values(items) == old(Values(items)) + [PackingItem(itemName, category, false, true)]
      ensures saved ==> Appended(old(items), items, old(nextId), [PackingItem(itemName, category, false, true)])
      ensures !saved ==> items == old(items)
    {
      saved := itemName != "";
      if saved {
        items := Insert(items, nextId, PackingItem(itemName, category, false, true));
        nextId := nextId + 1;
      }
    }

    /** The trash button, shown only on custom items: deletes that one item. */
    method DeleteItem(at: nat)
      requires Valid() && at < |items| && items[at].value.isCustom
      modifies this
      ensures Valid()
      ensures items == old(items)[..at] + old(items)[at + 1..]
    {
      WithoutOne(items, nextId, at);
      WithoutWellKeyed(items, {items[at].id}, nextId);
      items := Without(items, {items[at].id});
    }
  }
}
