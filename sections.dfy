/**
 * The grouping every checklist screen uses: a fixed list of category names, filtered to the
 * categories at least one item has, and one section per category holding its items.
 * `categoryOf` reads an item's `category` field.
 */
module Sections {
  import opened Collections

  function InSet(present: set<string>): string -> bool {
    (c: string) => c in present
  }

  /** `order.filter { existingCategories.contains($0) }`. */
  function OrderedCategories(order: seq<string>, present: set<string>): (r: seq<string>)
    ensures forall c :: c in r <==> c in order && c in present
  {
    Filter(order, InSet(present))
  }

  /** From an order without repeats, each category is listed once and in the order's order. */
  lemma OrderedCategoriesDistinct(order: seq<string>, present: set<string>)
    requires NoDuplicates(order)
    ensures NoDuplicates(OrderedCategories(order, present))
    ensures InOrderOf(OrderedCategories(order, present), order)
  {
    FilterNoDuplicates(order, InSet(present));
    FilterKeepsOrder(order, InSet(present));
  }

  /** `Set(items.map { $0.category })`. */
  function CategorySet<T>(items: seq<T>, categoryOf: T -> string): (r: set<string>)
    ensures forall i :: 0 <= i < |items| ==> categoryOf(items[i]) in r
    ensures forall c :: c in r ==> exists i :: 0 <= i < |items| && categoryOf(items[i]) == c
  {
    set i | 0 <= i < |items| :: categoryOf(items[i])
  }

  /** The `categories` property: the sections shown, in the fixed order. */
  function Categories<T>(order: seq<string>, items: seq<T>, categoryOf: T -> string): (r: seq<string>)
    ensures forall c :: c in r <==> c in order && exists i :: 0 <= i < |items| && categoryOf(items[i]) == c
  {
    OrderedCategories(order, CategorySet(items, categoryOf))
  }

  function InCategory<T>(categoryOf: T -> string, c: string): T -> bool {
    (x: T) => categoryOf(x) == c
  }

  /** `itemsInCategory(c)`: exactly the items of category `c`, in list order. */
  function ItemsInCategory<T>(items: seq<T>, categoryOf: T -> string, c: string): (r: seq<T>)
    ensures forall i :: 0 <= i < |r| ==> r[i] in items && categoryOf(r[i]) == c
    ensures forall i :: 0 <= i < |items| && categoryOf(items[i]) == c ==> items[i] in r
  {
    Filter(items, InCategory(categoryOf, c))
  }

  /** No listed section is empty. */
  lemma ListedCategoryHasItems<T>(order: seq<string>, items: seq<T>, categoryOf: T -> string, c: string)
    requires c in Categories(order, items, categoryOf)
    ensures ItemsInCategory(items, categoryOf, c) != []
  {
    var i :| 0 <= i < |items| && categoryOf(items[i]) == c;
    assert items[i] in ItemsInCategory(items, categoryOf, c);
  }

  /** An item whose category is in the order is shown, in the section of its category. */
  lemma ShownInItsSection<T>(order: seq<string>, items: seq<T>, categoryOf: T -> string, i: nat)
    requires i < |items| && categoryOf(items[i]) in order
    ensures categoryOf(items[i]) in Categories(order, items, categoryOf)
    ensures items[i] in ItemsInCategory(items, categoryOf, categoryOf(items[i]))
  {
  }

  /** An item whose category is outside the order is in no section shown. */
  lemma OutsideOrderNeverShown<T>(order: seq<string>, items: seq<T>, categoryOf: T -> string, x: T, c: string)
    requires categoryOf(x) !in order
    requires c in Categories(order, items, categoryOf)
    ensures x !in ItemsInCategory(items, categoryOf, c)
  {
  }
}
