/** The records of the backend interface (`backend.d.ts`) and the remote
    actor through which every backend call goes. The actor's replies come
    from an oracle that may look at every earlier call, so a repeated call
    can be answered differently. */
module Backend {

  newtype byte = x: int | 0 <= x < 256

  /** A principal as the storefront compares it: by its textual form. */
  datatype Principal = Principal(text: string)

  datatype ItemType = Nft | DigitalArt | CraftItem | PhysicalProduct

  /** The string value of each `ItemType` member. */
  function ItemTypeName(t: ItemType): string {
    match t
    case Nft => "nft"
    case DigitalArt => "digitalArt"
    case CraftItem => "craftItem"
    case PhysicalProduct => "physicalProduct"
  }

  /** Distinct item types have distinct string values. */
  lemma ItemTypeNameInjective(a: ItemType, b: ItemType)
    ensures ItemTypeName(a) == ItemTypeName(b) <==> a == b
  {
  }

  datatype PaymentStatus = Pending | Completed | Failed

  datatype Purchase = Purchase(paymentStatus: PaymentStatus, purchaseDate: int, buyer: Principal, price: int)

  datatype Item = Item(
    id: string,
    title: string,
    owner: Principal,
    blob: seq<byte>,
    description: string,
    purchaseHistory: seq<Purchase>,
    itemType: ItemType,
    artist: Principal,
    price: int)

  datatype ArtistProfile = ArtistProfile(name: string, artist: Principal, gallery: seq<Item>)

  datatype UserProfile = UserProfile(bio: string, isArtist: bool, name: string)

  /** An item is still for sale while its owner is its artist; every page
      that tells sold items apart uses this one test. */
  predicate IsUnsold(item: Item) {
    item.owner == item.artist
  }

  /** What a rejected promise carries: an `Error` with its message, or some
      other thrown value. */
  datatype Thrown = Error(message: string) | NonError

  /** The backend calls the storefront's upload and profile flows make. */
  datatype Call =
    | CreateItem(title: string, description: string, price: int, itemType: ItemType)
    | SaveItemImage(itemId: string, blob: seq<byte>)
    | CreateNft(itemId: string)
    | SaveCallerUserProfile(profile: UserProfile)

  /** A call's settled promise; `value` is the item id for `CreateItem`. */
  datatype Reply = Resolved(value: string) | Rejected(reason: Thrown)

  /** The remote actor: it records every call and answers from `respond`. */
  class Actor {
    const respond: (seq<Call>, Call) -> Reply
    var calls: seq<Call>

    constructor (respond: (seq<Call>, Call) -> Reply)
      ensures this.respond == respond && calls == []
    {
      this.respond := respond;
      calls := [];
    }

    method Invoke(c: Call) returns (r: Reply)
      modifies this
      ensures calls == old(calls) + [c]
      ensures r == respond(old(calls), c)
    {
      r := respond(calls, c);
      calls := calls + [c];
    }
  }
}
