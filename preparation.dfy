/**
 * `PreparationView` and `AddPreparationItemView`: the pre-service task list, its sections,
 * the completed count, the weeks left before service and the default tasks.
 */
module Preparation {
  import opened Clock
  import opened Wrappers
  import opened Collections
  import opened Store
  import Sections

  datatype PreparationItem = PreparationItem(
    title: string, category: string, isCompleted: bool, isCustom: bool, dueWeeksBefore: Option<int>)

  const CategoryOrder: seq<string> := ["Heti", "Fyysinen valmistautuminen", "Hallinnolliset asiat", "Taloudelliset", "Viimeinen viikko"]

  /** The add form's initial category, which its picker does not offer. */
  const AddFormDefaultCategory: string := "Henkilökohtaiset"

  const Immediately: seq<(string, string, int)> := [
    ("Lataa Särmä ja aseta palveluspäivät", "Heti", 12),
    ("Lue varuskuntasi alokasopas", "Heti", 12),
    ("Ilmoita työnantajalle / koululle", "Heti", 12)
  ]

  const Physical: seq<(string, string, int)> := [
    ("Tee Cooper-testi (lähtötaso)", "Fyysinen valmistautuminen", 12),
    ("Aloita säännöllinen juoksuharjoittelu", "Fyysinen valmistautuminen", 10),
    ("Lihaskuntoharjoittelu", "Fyysinen valmistautuminen", 10),
    ("Tee toinen Cooper-testi", "Fyysinen valmistautuminen", 6),
    ("Käy hammaslääkärissä", "Fyysinen valmistautuminen", 8),
    ("Käy lääkärissä tarvittaessa", "Fyysinen valmistautuminen", 6)
  ]

  const Administrative: seq<(string, string, int)> := [
    ("Ilmoita osoitteenmuutos", "Hallinnolliset asiat", 6),
    ("Järjestä postin ohjaus", "Hallinnolliset asiat", 4),
    ("Tulosta aloittamismääräys", "Hallinnolliset asiat", 2),
    ("Tarkista henkilöllisyystodistus", "Hallinnolliset asiat", 6),
    ("Hanki Kela-kortti jos ei ole", "Hallinnolliset asiat", 6)
  ]

  const Financial: seq<(string, string, int)> := [
    ("Peru / aseta tauolle kuntosali", "Taloudelliset", 4),
    ("Vaihda puhelinliittymä", "Taloudelliset", 4),
    ("Tarkista tilinumero", "Taloudelliset", 2),
    ("Selvitä laskujen maksu", "Taloudelliset", 3),
    ("Säästä rahaa varusteisiin", "Taloudelliset", 4)
  ]

  const LastWeek: seq<(string, string, int)> := [
    ("Tarkista Pakkauslista", "Viimeinen viikko", 1),
    ("Pakkaa tavarat", "Viimeinen viikko", 1),
    ("Tarkista matkareitit", "Viimeinen viikko", 1),
    ("Varmista aloittamismääräys mukana", "Viimeinen viikko", 0),
    ("Varaa junalippu", "Viimeinen viikko", 1),
    ("Lataa puhelin", "Viimeinen viikko", 0),
    ("Positiivinen asenne mukaan!", "Viimeinen viikko", 0)
  ]

  /** `allTasks`: the groups in the order they are inserted. */
  function DefaultTasks(): seq<(string, string, int)> {
    Immediately + Physical + Administrative + Financial + LastWeek
  }

  /** The records `populateDefaultItems` inserts: not completed, not custom, with their week count. */
  function DefaultRecords(): (r: seq<PreparationItem>)
    ensures |r| == |DefaultTasks()|
    ensures forall k :: 0 <= k < |r| ==>
      r[k] == PreparationItem(DefaultTasks()[k].0, DefaultTasks()[k].1, false, false, Some(DefaultTasks()[k].2))
  {
    seq(|DefaultTasks()|, k requires 0 <= k < |DefaultTasks()| =>
      PreparationItem(DefaultTasks()[k].0, DefaultTasks()[k].1, false, false, Some(DefaultTasks()[k].2)))
  }

  lemma CategoryOrderDistinct()
    ensures NoDuplicates(CategoryOrder)
  {
  }

  /** There are 26 default tasks, none done or custom, each due 0 to 12 weeks ahead, each in a section. */
  lemma DefaultsShape()
    ensures |DefaultRecords()| == 26
    ensures forall k :: 0 <= k < 26 ==> !DefaultRecords()[k].isCompleted && !DefaultRecords()[k].isCustom
    ensures forall k :: 0 <= k < 26 ==>
      DefaultRecords()[k].dueWeeksBefore.Some? && 0 <= DefaultRecords()[k].dueWeeksBefore.value <= 12
    ensures forall k :: 0 <= k < 26 ==> DefaultRecords()[k].category in CategoryOrder
  {
    var all := DefaultTasks();
    assert forall k :: 0 <= k < |all| ==> all[k].1 in CategoryOrder && 0 <= all[k].2 <= 12 by {
      assert forall k :: 0 <= k < |Immediately| ==> Immediately[k].1 == CategoryOrder[0] && 0 <= Immediately[k].2 <= 12;
      assert forall k :: 0 <= k < |Physical| ==> Physical[k].1 == CategoryOrder[1] && 0 <= Physical[k].2 <= 12;
      assert forall k :: 0 <= k < |Administrative| ==> Administrative[k].1 == CategoryOrder[2] && 0 <= Administrative[k].2 <= 12;
      assert forall k :: 0 <= k < |Financial| ==> Financial[k].1 == CategoryOrder[3] && 0 <= Financial[k].2 <= 12;
      assert forall k :: 0 <= k < |LastWeek| ==> LastWeek[k].1 == CategoryOrder[4] && 0 <= LastWeek[k].2 <= 12;
    }
  }

  function CategoryOf(x: Stored<PreparationItem>): string {
    x.value.category
  }

  /** `categories`: the fixed order, filtered to the categories present, each once and in order. */
  function Categories(items: seq<Stored<PreparationItem>>): (r: seq<string>)
    ensures forall c :: c in r <==> c in CategoryOrder && exists i :: 0 <= i < |items| && items[i].value.category == c
    ensures NoDuplicates(r) && InOrderOf(r, CategoryOrder)
  {
    CategoryOrderDistinct();
    Sections.OrderedCategoriesDistinct(CategoryOrder, Sections.CategorySet(items, CategoryOf));
    Sections.Categories(CategoryOrder, items, CategoryOf)
  }

  /** `itemsInCategory(c)`. */
  function ItemsInCategory(items: seq<Stored<PreparationItem>>, category: string): (r: seq<Stored<PreparationItem>>)
    ensures forall i :: 0 <= i < |r| ==> r[i] in items && r[i].value.category == category
    ensures forall i :: 0 <= i < |items| && items[i].value.category == category ==> items[i] in r
  {
    Sections.ItemsInCategory(items, CategoryOf, category)
  }

  /**
   * A task saved with the add form's untouched category is in no section: it counts toward
   * the total but has no row to complete or delete it from.
   */
  lemma UntouchedCategoryHidden(items: seq<Stored<PreparationItem>>, x: Stored<PreparationItem>, c: string)
    requires x.value.category == AddFormDefaultCategory
    requires c in Categories(items)
    ensures x !in ItemsInCategory(items, c)
  {
    DefaultCategoryUnlisted();
    assert c in Sections.Categories(CategoryOrder, items, CategoryOf);
    Sections.OutsideOrderNeverShown(CategoryOrder, items, CategoryOf, x, c);
  }

  lemma DefaultCategoryUnlisted()
    ensures AddFormDefaultCategory !in CategoryOrder
  {
  }

  function IsCompleted(x: Stored<PreparationItem>): bool {
    x.value.isCompleted
  }

  /** `completedCount`, never more than `totalCount`. */
  function CompletedCount(items: seq<Stored<PreparationItem>>): (r: nat)
    ensures r <= |items|
    ensures r == |items| <==> forall i :: 0 <= i < |items| ==> items[i].value.isCompleted
  {
    var r := |Filter(items, IsCompleted)|;
    if forall i :: 0 <= i < |items| ==> items[i].value.isCompleted then
      FilterAll(items, IsCompleted);
      r
    else
      var i :| 0 <= i < |items| && !items[i].value.isCompleted;
      FilterMissesOne(items, IsCompleted, i);
      r
  }

  /** The progress bar's total: the item count, but at least 1. */
  function ProgressTotal(items: seq<Stored<PreparationItem>>): (r: nat)
    ensures r >= 1 && CompletedCount(items) <= r
    ensures items != [] ==> r == |items|
  {
    if 1 > |items| then 1 else |items|
  }

  /** `weeksUntilService`: whole weeks from now to the start, never negative, none without a start. */
  function WeeksUntilService(start: Option<Instant>, now: Instant): (r: Option<nat>)
    ensures r.None? <==> start.None?
    ensures start.Some? && now <= start.value ==>
      r.value * WeekSeconds <= start.value - now < (r.value + 1) * WeekSeconds
    ensures start.Some? && start.value - now < WeekSeconds ==> r == Some(0)
  {
    if start.None? then None
    else
      var weeks := WholeWeeksBetween(now, start.value);
      Some(if 0 > weeks then 0 else weeks)
  }

  /** The "Tee n viikkoa ennen" line under a task: only for a positive week count. */
  function DueHint(item: PreparationItem): (r: Option<int>)
    ensures r.Some? <==> item.dueWeeksBefore.Some? && item.dueWeeksBefore.value > 0
    ensures r.Some? ==> r == item.dueWeeksBefore
  {
    match item.dueWeeksBefore
    case Some(weeks) => if weeks > 0 then Some(weeks) else None
    case None => None
  }

  /** The row's check button: flips `isCompleted` of the item at `at`. */
  function ToggleAt(items: seq<Stored<PreparationItem>>, at: nat): (r: seq<Stored<PreparationItem>>)
    requires at < |items|
    ensures |r| == |items| && r[at].id == items[at].id
    ensures r[at].value == items[at].value.(isCompleted := !items[at].value.isCompleted)
    ensures forall i :: 0 <= i < |items| && i != at ==> r[i] == items[i]
  {
    items[at := Stored(items[at].id, items[at].value.(isCompleted := !items[at].value.isCompleted))]
  }

  /** Toggling twice restores the list; each toggle moves the completed count by one. */
  lemma ToggleAtProperties(items: seq<Stored<PreparationItem>>, at: nat)
    requires at < |items|
    ensures ToggleAt(ToggleAt(items, at), at) == items
    ensures items[at].value.isCompleted ==> CompletedCount(ToggleAt(items, at)) + 1 == CompletedCount(items)
    ensures !items[at].value.isCompleted ==> CompletedCount(ToggleAt(items, at)) == CompletedCount(items) + 1
  {
    FilterCountUpdate(items, at, ToggleAt(items, at)[at], IsCompleted);
    assert ToggleAt(ToggleAt(items, at), at) == items;
  }

  /** `resetChecks()` on the whole list: nothing completed, nothing else changed. */
  function Uncompleted(items: seq<Stored<PreparationItem>>): (r: seq<Stored<PreparationItem>>)
    ensures |r| == |items|
    ensures forall i :: 0 <= i < |items| ==> r[i].id == items[i].id && r[i].value == items[i].value.(isCompleted := false)
  {
    seq(|items|, i requires 0 <= i < |items| => Stored(items[i].id, items[i].value.(isCompleted := false)))
  }

  lemma UncompletedCount(items: seq<Stored<PreparationItem>>)
    ensures CompletedCount(Uncompleted(items)) == 0
    ensures Uncompleted(Uncompleted(items)) == Uncompleted(items)
  {
    FilterNone(Uncompleted(items), IsCompleted);
  }

  class PreparationStore {
    var items: seq<Stored<PreparationItem>>
    var nextId: nat

    ghost predicate Valid()
      reads this
    {
      WellKeyed(items, nextId)
    }

    constructor ()
      ensures Valid() && items == []
    {
      items := [];
      nextId := 0;
    }

    /** `item.isCompleted.toggle()`. */
    method Toggle(at: nat)
      requires Valid() && at < |items|
      modifies this
      ensures Valid()
      ensures items == ToggleAt(old(items), at) && nextId == old(nextId)
    {
      items := items[at := Stored(items[at].id, items[at].value.(isCompleted := !items[at].value.isCompleted))];
    }

    /** `resetChecks()`: one task at a time, in list order. */
    method ResetChecks()
      requires Valid()
      modifies this
      ensures Valid()
      ensures items == Uncompleted(old(items)) && nextId == old(nextId)
    {
      for k := 0 to |items|
        invariant |items| == |old(items)| && nextId == old(nextId)
        invariant forall i :: 0 <= i < k ==> items[i] == Uncompleted(old(items))[i]
        invariant forall i :: k <= i < |items| ==> items[i] == old(items)[i]
      {
        items := items[k := Stored(items[k].id, items[k].value.(isCompleted := false))];
      }
    }

    /** `populateDefaultItems()`: inserts the default tasks one by one. */
    method PopulateDefaultItems()
      requires Valid()
      modifies this
      ensures Valid()
      ensures Values(items) == old(Values(items)) + DefaultRecords()
      ensures Appended(old(items), items, old(nextId), DefaultRecords())
      ensures nextId == old(nextId) + |DefaultRecords()|
    {
      var allTasks := DefaultTasks();
      var records := DefaultRecords();
      ExtendsNothing(items, nextId);
      for k := 0 to |allTasks|
        invariant Valid()
        invariant nextId == old(nextId) + k
        invariant Values(items) == old(Values(items)) + records[..k]
        invariant Extends(old(items), items, old(nextId))
      {
        var (title, category, weeks) := allTasks[k];
        var item := PreparationItem(title, category, false, false, Some(weeks));
        assert item == records[k];
        InsertRunStep(old(items), items, old(nextId), nextId, records, k);
        items := Insert(items, nextId, item);
        nextId := nextId + 1;
      }
      assert records[..|records|] == records;
    }

    /** `onAppear`: the defaults go in only when the list is empty, so a second appearance changes nothing. */
    method OnAppear()
      requires Valid()
      modifies this
      ensures Valid()
      ensures old(items) != [] ==> items == old(items) && nextId == old(nextId)
      ensures old(items) == [] ==> Values(items) == DefaultRecords()
      ensures items != []
    {
      if items == [] {
        PopulateDefaultItems();
        DefaultsShape();
        assert |Values(items)| == 26;
      }
    }

    /** `AddPreparationItemView`'s Save, disabled while the title is empty: a custom task with no due week. */
    method AddItem(title: string, category: string) returns (saved: bool)
      requires Valid()
      modifies this
      ensures Valid()
      ensures saved <==> title != ""
      ensures saved ==> Values(items) == old(Values(items)) + [PreparationItem(title, category, false, true, None)]
      ensures saved ==> Appended(old(items), items, old(nextId), [PreparationItem(title, category, false, true, None)])
      ensures !saved ==> items == old(items)
    {
      saved := title != "";
      if saved {
        items := Insert(items, nextId, PreparationItem(title, category, false, true, None));
        nextId := nextId + 1;
      }
    }

    /** The trash button, shown only on custom tasks: deletes that one task. */
    method DeleteItem(at: nat)
      requires Valid() && at < |items| && items[at].value.isCustom
      modifies this
      ensures Valid()
      ensures items == old(items)[..at] + old(items)[at + 1..]
    {
      WithoutOne(items, nextId, at);
      WithoutWellKeyed(items, {items[at].id}, nextId);
      items := Without(items, {items[at].id});
    }
  }
}
