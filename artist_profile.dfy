/** The artist profile page: the gallery split into items still for sale
    and sold items, and the total of the sold items' prices. */
module ArtistPage {
  import opened Wrappers
  import opened Backend
  import opened Seqs

  /** An item has been sold once its owner is no longer its artist. */
  predicate IsSold(item: Item) {
    !IsUnsold(item)
  }

  /** `activeItems` */
  function ActiveItems(gallery: seq<Item>): seq<Item> {
    Filter(gallery, IsUnsold)
  }

  /** `soldItems` */
  function SoldItems(gallery: seq<Item>): seq<Item> {
    Filter(gallery, IsSold)
  }

  /** `reduce((sum, item) => sum + Number(item.price), 0)`: the running sum
      from the left. */
  function TotalSales(sold: seq<Item>): int {
    if sold == [] then 0 else TotalSales(sold[..|sold| - 1]) + sold[|sold| - 1].price
  }

  /** Active items are exactly the gallery items their artist still owns,
      sold items exactly the others; both keep gallery order. */
  lemma {:induction false} ActiveAndSoldExact(gallery: seq<Item>, x: Item)
    ensures x in ActiveItems(gallery) <==> x in gallery && x.owner == x.artist
    ensures x in SoldItems(gallery) <==> x in gallery && x.owner != x.artist
    ensures IsSubsequence(ActiveItems(gallery), gallery) && IsSubsequence(SoldItems(gallery), gallery)
  {
    FilterIsSubsequence(gallery, IsUnsold);
    FilterIsSubsequence(gallery, IsSold);
    if x in gallery {
      var i :| 0 <= i < |gallery| && gallery[i] == x;
    }
  }

  /** The two lists partition the gallery: no item is in both, and together
      they hold every gallery item exactly once. */
  lemma ActiveSoldPartition(gallery: seq<Item>)
    ensures |ActiveItems(gallery)| + |SoldItems(gallery)| == |gallery|
    ensures multiset(ActiveItems(gallery)) + multiset(SoldItems(gallery)) == multiset(gallery)
    ensures forall i, j :: 0 <= i < |ActiveItems(gallery)| && 0 <= j < |SoldItems(gallery)|
              ==> ActiveItems(gallery)[i] != SoldItems(gallery)[j]
  {
    FilterPartition(gallery, IsUnsold, IsSold);
  }

  lemma {:induction false} TotalSalesConcat(a: seq<Item>, b: seq<Item>)
    ensures TotalSales(a + b) == TotalSales(a) + TotalSales(b)
    decreases |b|
  {
    if b != [] {
      assert (a + b)[..|a + b| - 1] == a + b[..|b| - 1];
      assert (a + b)[|a + b| - 1] == b[|b| - 1];
      TotalSalesConcat(a, b[..|b| - 1]);
      assert TotalSales(a + b) == TotalSales(a + b[..|b| - 1]) + b[|b| - 1].price;
    } else {
      assert a + b == a;
    }
  }

  /** The prices of the whole gallery are the active items' plus the sales
      total: every sold item is counted once and no active item is. */
  lemma {:induction false} TotalSalesSplit(gallery: seq<Item>)
    ensures TotalSales(gallery) == TotalSales(ActiveItems(gallery)) + TotalSales(SoldItems(gallery))
    decreases |gallery|
  {
    if gallery != [] {
      var init, last := gallery[..|gallery| - 1], gallery[|gallery| - 1];
      assert gallery == init + [last];
      TotalSalesSplit(init);
      FilterConcat(init, [last], IsUnsold);
      FilterConcat(init, [last], IsSold);
      assert [last][1..] == [];
      TotalSalesConcat(ActiveItems(init), Filter([last], IsUnsold));
      TotalSalesConcat(SoldItems(init), Filter([last], IsSold));
    }
  }

  /** Nothing sold, nothing earned: a gallery whose items all still belong
      to their artist has no sold items and a sales total of 0. */
  lemma NothingSoldNoSales(gallery: seq<Item>)
    requires forall i :: 0 <= i < |gallery| ==> gallery[i].owner == gallery[i].artist
    ensures SoldItems(gallery) == [] && TotalSales(SoldItems(gallery)) == 0
    ensures ActiveItems(gallery) == gallery
  {
    FilterKeepsAll(gallery, IsUnsold);
    ActiveSoldPartition(gallery);
  }

  /** Some item is sold exactly when the sold list is non-empty. */
  lemma SoldSectionIff(gallery: seq<Item>)
    ensures |SoldItems(gallery)| > 0 <==> exists i :: 0 <= i < |gallery| && gallery[i].owner != gallery[i].artist
  {
    FilterEmptyIff(gallery, IsSold);
  }

  /** No item is still for sale exactly when the active list is empty. */
  lemma NoActiveNoteIff(gallery: seq<Item>)
    ensures |ActiveItems(gallery)| == 0 <==> forall i :: 0 <= i < |gallery| ==> gallery[i].owner != gallery[i].artist
  {
    FilterEmptyIff(gallery, IsUnsold);
  }

  /** What the page renders. */
  datatype View =
    | Loading
    | NotFound
    | Profile(active: seq<Item>, sold: seq<Item>, totalSales: int, noActiveNote: bool, soldSection: bool)

  /** The page for the artist-profile query: `profile` is its data, absent
      while the query is disabled or after it failed. */
  function PageView(isLoading: bool, profile: Option<ArtistProfile>): (v: View)
    ensures isLoading <==> v.Loading?
    ensures v.NotFound? <==> !isLoading && profile.None?
    ensures v.Profile? ==> v.active == ActiveItems(profile.value.gallery) && v.sold == SoldItems(profile.value.gallery)
                           && v.totalSales == TotalSales(v.sold)
    ensures v.Profile? ==> (v.noActiveNote <==> forall i :: 0 <= i < |profile.value.gallery|
                                                 ==> profile.value.gallery[i].owner != profile.value.gallery[i].artist)
    ensures v.Profile? ==> (v.soldSection <==> exists i :: 0 <= i < |profile.value.gallery|
                                                && profile.value.gallery[i].owner != profile.value.gallery[i].artist)
  {
    if isLoading then Loading
    else if profile.None? then NotFound
    else
      var gallery := profile.value.gallery;
      SoldSectionIff(gallery);
      NoActiveNoteIff(gallery);
      var sold := SoldItems(gallery);
      var active := ActiveItems(gallery);
      Profile(active, sold, TotalSales(sold), |active| == 0, |sold| > 0)
  }
}
