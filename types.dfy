/** The records the photo-billing app keeps: products on the shelf, the line
    items of a bill, bills, the shop profile and the snapshot that holds all
    three. Money is a `real` (no floating point); quantities are integers,
    since every caller parses or floors them before they reach the store. */
module Types {

  datatype Option<+T> = None | Some(value: T) {
    function GetOr(default: T): T {
      match this
      case Some(v) => v
      case None => default
    }
  }

  /** A product in the inventory; `id` is its identity. */
  datatype Product = Product(id: string, name: string, price: real, quantity: int)

  /** A line of a bill: a copy of a product's name and price at billing time. */
  datatype BillItem = BillItem(productId: string, name: string, price: real, quantity: int)

  datatype Bill = Bill(id: string, items: seq<BillItem>, total: real, createdAt: string)

  datatype Profile = Profile(storeName: string, ownerName: string, openingBalance: real)

  /** The snapshot that is persisted as one whole. Bills are newest first. */
  datatype AppData = AppData(inventory: seq<Product>, bills: seq<Bill>, profile: Profile)

  /** The fields of a product an inventory edit may overwrite; `None` is an absent key. */
  datatype InventoryUpdate = InventoryUpdate(quantity: Option<int>, price: Option<real>)

  /** A partial profile; `None` is an absent key. */
  datatype ProfileUpdate = ProfileUpdate(storeName: Option<string>, ownerName: Option<string>, openingBalance: Option<real>)

  /** A product as the inventory screen hands it over, before it has an id. */
  datatype NewProduct = NewProduct(name: string, price: real, quantity: int)

  /** No two products of the inventory share an id. */
  predicate UniqueIds(inv: seq<Product>) {
    forall i, j :: 0 <= i < j < |inv| ==> inv[i].id != inv[j].id
  }

  predicate HasId(inv: seq<Product>, id: string) {
    exists k :: 0 <= k < |inv| && inv[k].id == id
  }

  function Max0(x: int): (r: int)
    ensures r >= 0 && r >= x
    ensures r == x || r == 0
  {
    if x < 0 then 0 else x
  }

  function Max0Real(x: real): (r: real)
    ensures r >= 0.0 && r >= x
    ensures r == x || r == 0.0
  {
    if x < 0.0 then 0.0 else x
  }
}
