/** The purchase button on an item: which of its four faces it shows. */
module PurchaseButton {
  import opened Wrappers
  import opened Backend

  datatype ButtonState = LoginToPurchase | YourItem | SoldOut | PurchaseNow

  /** The checks run in order: signed in, then the caller is the artist,
      then the item is sold. `identity` is the caller's principal. */
  function Decide(identity: Option<Principal>, item: Item): (b: ButtonState)
    ensures b == LoginToPurchase <==> identity.None?
    ensures b == YourItem <==> identity.Some? && item.artist == identity.value
    ensures b == SoldOut <==> identity.Some? && item.artist != identity.value && item.owner != item.artist
    ensures b == PurchaseNow <==> identity.Some? && item.artist != identity.value && item.owner == item.artist
  {
    if identity.None? then LoginToPurchase
    else if item.artist == identity.value then YourItem
    else if !IsUnsold(item) then SoldOut
    else PurchaseNow
  }

  /** Only "Purchase Now" opens the purchase modal. */
  predicate ModalReachable(identity: Option<Principal>, item: Item) {
    Decide(identity, item) == PurchaseNow
  }

  /** The ownership test looks at the artist, not the current owner: the
      buyer who now owns a sold item is shown "Sold Out", while the artist
      is shown "Your Item" even after the sale. */
  lemma OwnershipIsArtistship(item: Item)
    requires item.owner != item.artist
    ensures Decide(Some(item.owner), item) == SoldOut
    ensures Decide(Some(item.artist), item) == YourItem
    ensures forall p :: !ModalReachable(Some(p), item)
  {
  }

  /** The modal cannot be reached while signed out, by the artist, or for
      a sold item; it can be reached by anyone else for an unsold one. */
  lemma ModalReachableIff(identity: Option<Principal>, item: Item)
    ensures ModalReachable(identity, item) <==>
              identity.Some? && identity.value != item.artist && item.owner == item.artist
  {
  }
}
