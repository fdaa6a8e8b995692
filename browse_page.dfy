/** The browse page: a category tab narrows the item list, and only items
    still for sale are shown. */
module Browse {
  import opened Backend
  import opened Seqs

  /** The tab value for "All"; the other tabs carry an `ItemType` value. */
  const AllCategory: string := "all"

  /** The items query: there is no backend call that lists items, so it
      always answers with the empty list. */
  function ItemsQuery(): seq<Item> {
    []
  }

  /** `filteredItems` */
  function FilteredItems(items: seq<Item>, category: string): seq<Item> {
    if category == AllCategory then items
    else Filter(items, (x: Item) => ItemTypeName(x.itemType) == category)
  }

  /** `availableItems` */
  function AvailableItems(filtered: seq<Item>): seq<Item> {
    Filter(filtered, IsUnsold)
  }

  /** A type tab keeps exactly the items of that type, in order; "all"
      keeps the list as it is. */
  lemma {:induction false} CategoryFilterExact(items: seq<Item>, t: ItemType, x: Item)
    ensures FilteredItems(items, AllCategory) == items
    ensures x in FilteredItems(items, ItemTypeName(t)) <==> x in items && x.itemType == t
    ensures IsSubsequence(FilteredItems(items, ItemTypeName(t)), items)
  {
    var p := (y: Item) => ItemTypeName(y.itemType) == ItemTypeName(t);
    FilterIsSubsequence(items, p);
    ItemTypeNameInjective(x.itemType, t);
    if x in items {
      var i :| 0 <= i < |items| && items[i] == x;
    }
  }

  /** A tab value that is neither "all" nor a type's value shows nothing. */
  lemma UnknownCategoryEmpty(items: seq<Item>, category: string)
    requires category != AllCategory && forall t :: ItemTypeName(t) != category
    ensures FilteredItems(items, category) == []
  {
    var p := (x: Item) => ItemTypeName(x.itemType) == category;
    assert forall i :: 0 <= i < |items| ==> !p(items[i]) by {
      forall i | 0 <= i < |items| ensures !p(items[i]) {
        assert ItemTypeName(items[i].itemType) != category;
      }
    }
    FilterEmptyIff(items, p);
  }

  /** Available items are the items of the tab that are still for sale, in
      list order: available ⊆ filtered ⊆ items. */
  lemma {:induction false} AvailableChain(items: seq<Item>, category: string)
    ensures var f := FilteredItems(items, category);
            var a := AvailableItems(f);
            (forall i :: 0 <= i < |a| ==> a[i] in f && IsUnsold(a[i]))
            && (forall i :: 0 <= i < |f| ==> f[i] in items)
            && IsSubsequence(a, f) && IsSubsequence(f, items)
            && (category != AllCategory ==>
                  a == Filter(items, (x: Item) => ItemTypeName(x.itemType) == category && IsUnsold(x)))
  {
    var f := FilteredItems(items, category);
    FilterIsSubsequence(f, IsUnsold);
    if category != AllCategory {
      var p := (x: Item) => ItemTypeName(x.itemType) == category;
      FilterIsSubsequence(items, p);
      FilterCompose(items, p, IsUnsold, (x: Item) => ItemTypeName(x.itemType) == category && IsUnsold(x));
    } else {
      SubsequenceRefl(items);
    }
  }

  /** The empty state is shown exactly when no item of the tab is for sale. */
  function ShowsEmptyState(items: seq<Item>, category: string): (b: bool)
    ensures b <==> forall i :: 0 <= i < |FilteredItems(items, category)| ==> !IsUnsold(FilteredItems(items, category)[i])
  {
    var f := FilteredItems(items, category);
    var a := AvailableItems(f);
    assert a != [] ==> a[0] in f;
    |a| == 0
  }

  /** With the items query as it is, the page never lists an item: every
      tab shows the empty state. */
  lemma NothingEverAvailable(category: string)
    ensures AvailableItems(FilteredItems(ItemsQuery(), category)) == []
    ensures ShowsEmptyState(ItemsQuery(), category)
  {
  }
}
