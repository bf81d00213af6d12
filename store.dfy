/** The application store: the in-memory snapshot (inventory, bills,
    profile), the pending bill items staged between detection and billing,
    and the id of the bill generated last. Every operation that changes the
    snapshot hands the whole new snapshot to `Persist`, which keeps it in
    memory and mirrors it to storage; the storage write is modelled only by
    the ghost field `saved`. */
module AppDataStore {
  import opened Types

  // ---------------------------------------------------------------------
  // Looking a product up by id (the keyed map built at the start of a sale)
  // ---------------------------------------------------------------------

  /** The first position at or after `from` whose product has id `id`. */
  function FindFrom(inv: seq<Product>, id: string, from: nat): (r: Option<nat>)
    requires from <= |inv|
    decreases |inv| - from
    ensures r.Some? ==> from <= r.value < |inv| && inv[r.value].id == id
    ensures r.Some? ==> forall k :: from <= k < r.value ==> inv[k].id != id
    ensures r.None? <==> forall k :: from <= k < |inv| ==> inv[k].id != id
  {
    if from == |inv| then None
    else if inv[from].id == id then Some(from)
    else FindFrom(inv, id, from + 1)
  }

  // ---------------------------------------------------------------------
  // Selling: the inventory after a bill's items have been taken out
  // ---------------------------------------------------------------------

  /** One step of the sale: the product whose id the item names loses the
      item's quantity, and its stock is clamped at zero. */
  function SellItem(inv: seq<Product>, item: BillItem): (r: seq<Product>)
    ensures SameCatalogue(inv, r)
    ensures forall k :: 0 <= k < |inv| && inv[k].id == item.productId ==>
      r[k].quantity == Max0(inv[k].quantity - item.quantity)
    ensures forall k :: 0 <= k < |inv| && inv[k].id != item.productId ==> r[k] == inv[k]
    ensures !HasId(inv, item.productId) ==> r == inv
  {
    seq(|inv|, k requires 0 <= k < |inv| =>
      if inv[k].id == item.productId
      then inv[k].(quantity := Max0(inv[k].quantity - item.quantity))
      else inv[k])
  }

  /** The inventory after the items are sold one after the other, in order. */
  function SellAll(inv: seq<Product>, items: seq<BillItem>): (r: seq<Product>)
    ensures |r| == |inv|
  {
    if items == [] then inv
    else SellItem(SellAll(inv, items[..|items| - 1]), items[|items| - 1])
  }

  /** The total quantity the items take of product `id`. */
  function SoldOf(items: seq<BillItem>, id: string): int
  {
    if items == [] then 0
    else SoldOf(items[..|items| - 1], id)
         + (if items[|items| - 1].productId == id then items[|items| - 1].quantity else 0)
  }

  predicate Refers(items: seq<BillItem>, id: string) {
    exists j :: 0 <= j < |items| && items[j].productId == id
  }

  predicate NonNegativeQuantities(items: seq<BillItem>) {
    forall j :: 0 <= j < |items| ==> items[j].quantity >= 0
  }

  predicate NonNegativeStock(inv: seq<Product>) {
    forall k :: 0 <= k < |inv| ==> inv[k].quantity >= 0
  }

  /** Products keep their place, id, name and price; only stock may change. */
  predicate SameCatalogue(inv: seq<Product>, inv': seq<Product>) {
    |inv'| == |inv| &&
    forall k :: 0 <= k < |inv| ==>
      inv'[k].id == inv[k].id && inv'[k].name == inv[k].name && inv'[k].price == inv[k].price
  }

  /** A sale keeps the catalogue: length, order, ids, names and prices. */
  lemma {:induction false} SellAllKeepsCatalogue(inv: seq<Product>, items: seq<BillItem>)
    ensures SameCatalogue(inv, SellAll(inv, items))
    decreases |items|
  {
    if items != [] {
      SellAllKeepsCatalogue(inv, items[..|items| - 1]);
    }
  }

  lemma SameCatalogueKeepsUniqueIds(inv: seq<Product>, inv': seq<Product>)
    requires SameCatalogue(inv, inv') && UniqueIds(inv)
    ensures UniqueIds(inv')
  {
  }

  /** Items that name no product of the inventory take nothing from it. */
  lemma {:induction false} SellUnknownIgnored(inv: seq<Product>, items: seq<BillItem>)
    requires forall j :: 0 <= j < |items| ==> !HasId(inv, items[j].productId)
    ensures SellAll(inv, items) == inv
    decreases |items|
  {
    if items != [] {
      var last := items[|items| - 1];
      SellUnknownIgnored(inv, items[..|items| - 1]);
      assert !HasId(inv, last.productId);
      assert SellItem(inv, last) == inv;
    }
  }

  /** An item naming no product is skipped wherever it stands in the bill:
      the sale is the same as without it. */
  lemma {:induction false} SellSkipsUnknown(inv: seq<Product>, a: seq<BillItem>, x: BillItem, b: seq<BillItem>)
    requires !HasId(inv, x.productId)
    ensures SellAll(inv, a + [x] + b) == SellAll(inv, a + b)
    decreases |b|
  {
    if b == [] {
      assert a + [x] + b == a + [x] && a + b == a;
      assert (a + [x])[..|a|] == a;
      SellAllKeepsCatalogue(inv, a);
      assert !HasId(SellAll(inv, a), x.productId);
    } else {
      var pre, last := b[..|b| - 1], b[|b| - 1];
      SellSkipsUnknown(inv, a, x, pre);
      assert (a + [x] + b)[..|a + [x] + b| - 1] == a + [x] + pre;
      assert (a + b)[..|a + b| - 1] == a + pre;
      assert (a + [x] + b)[|a + [x] + b| - 1] == last;
      assert (a + b)[|a + b| - 1] == last;
    }
  }

  lemma {:induction false} SoldOfUnreferenced(items: seq<BillItem>, id: string)
    requires !Refers(items, id)
    ensures SoldOf(items, id) == 0
    decreases |items|
  {
    if items != [] {
      var pre := items[..|items| - 1];
      assert !Refers(pre, id) by {
        forall j | 0 <= j < |pre| ensures pre[j].productId != id {
          assert pre[j] == items[j];
        }
      }
      SoldOfUnreferenced(pre, id);
    }
  }

  /** The stock of each product after a sale, when item quantities are not
      negative: products no item names keep their stock; the others end at
      their old stock less everything sold of them, clamped at zero. The
      clamp after every step agrees with one clamp at the end. */
  lemma {:induction false} SellAllStock(inv: seq<Product>, items: seq<BillItem>, k: int)
    requires NonNegativeQuantities(items)
    requires 0 <= k < |inv|
    ensures |SellAll(inv, items)| == |inv|
    ensures SellAll(inv, items)[k].quantity ==
      if Refers(items, inv[k].id) then Max0(inv[k].quantity - SoldOf(items, inv[k].id))
      else inv[k].quantity
    decreases |items|
  {
    SellAllKeepsCatalogue(inv, items);
    if items != [] {
      var pre := items[..|items| - 1];
      var last := items[|items| - 1];
      var id := inv[k].id;
      assert NonNegativeQuantities(pre) by {
        forall j | 0 <= j < |pre| ensures pre[j].quantity >= 0 {
          assert pre[j] == items[j];
        }
      }
      SellAllStock(inv, pre, k);
      SellAllKeepsCatalogue(inv, pre);
      var before := SellAll(inv, pre);
      assert before[k].id == id;
      if last.productId == id {
        assert Refers(items, id) by { assert items[|items| - 1].productId == id; }
        if !Refers(pre, id) {
          SoldOfUnreferenced(pre, id);
        }
      } else {
        assert Refers(items, id) <==> Refers(pre, id) by {
          if Refers(items, id) {
            var j :| 0 <= j < |items| && items[j].productId == id;
            assert j < |pre| && pre[j] == items[j];
          }
          if Refers(pre, id) {
            var j :| 0 <= j < |pre| && pre[j].productId == id;
            assert items[j] == pre[j];
          }
        }
      }
    }
  }

  /** With stock and item quantities not negative, every product ends at
      max(0, old stock - quantity sold), so no stock goes negative. */
  lemma SellAllClampedStock(inv: seq<Product>, items: seq<BillItem>, k: int)
    requires NonNegativeQuantities(items) && NonNegativeStock(inv)
    requires 0 <= k < |inv|
    ensures |SellAll(inv, items)| == |inv|
    ensures SellAll(inv, items)[k].quantity == Max0(inv[k].quantity - SoldOf(items, inv[k].id))
    ensures SellAll(inv, items)[k].quantity >= 0
  {
    SellAllStock(inv, items, k);
    if !Refers(items, inv[k].id) {
      SoldOfUnreferenced(items, inv[k].id);
    }
  }

  /** Whatever the item quantities, a sale never leaves negative stock
      behind where there was none. */
  lemma {:induction false} SellAllKeepsNonNegativeStock(inv: seq<Product>, items: seq<BillItem>)
    requires NonNegativeStock(inv)
    ensures NonNegativeStock(SellAll(inv, items))
    decreases |items|
  {
    if items != [] {
      SellAllKeepsNonNegativeStock(inv, items[..|items| - 1]);
    }
  }

  /** Selling 2 of 20 leaves 18; selling 25 of 20 leaves 0, not -5. */
  lemma SaleExamples()
    ensures SellAll([Product("1", "Milk", 45.0, 20)], [BillItem("1", "Milk", 45.0, 2)])
         == [Product("1", "Milk", 45.0, 18)]
    ensures SellAll([Product("1", "Milk", 45.0, 20)], [BillItem("1", "Milk", 45.0, 25)])
         == [Product("1", "Milk", 45.0, 0)]
  {
    var inv := [Product("1", "Milk", 45.0, 20)];
    var two, many := [BillItem("1", "Milk", 45.0, 2)], [BillItem("1", "Milk", 45.0, 25)];
    assert two[..0] == [] && many[..0] == [];
    assert SellItem(inv, two[0])[0] == Product("1", "Milk", 45.0, 18);
    assert SellItem(inv, many[0])[0] == Product("1", "Milk", 45.0, 0);
  }

  /** With unique ids, the one-step sale is an update of the one slot found
      by id, or nothing when no product has that id. */
  lemma SellItemIsSlotUpdate(inv: seq<Product>, item: BillItem)
    requires UniqueIds(inv)
    ensures FindFrom(inv, item.productId, 0).None? ==> SellItem(inv, item) == inv
    ensures FindFrom(inv, item.productId, 0).Some? ==>
      var k := FindFrom(inv, item.productId, 0).value;
      SellItem(inv, item) == inv[k := inv[k].(quantity := Max0(inv[k].quantity - item.quantity))]
  {
  }

  // ---------------------------------------------------------------------
  // Inventory edits and profile merge
  // ---------------------------------------------------------------------

  /** The inventory with the supplied fields written over every product whose
      id is `productId`. */
  function ApplyInventoryUpdate(inv: seq<Product>, productId: string, upd: InventoryUpdate): (r: seq<Product>)
    ensures |r| == |inv|
    ensures forall k :: 0 <= k < |inv| && inv[k].id != productId ==> r[k] == inv[k]
    ensures forall k :: 0 <= k < |inv| && inv[k].id == productId ==>
      r[k].id == inv[k].id && r[k].name == inv[k].name &&
      r[k].quantity == upd.quantity.GetOr(inv[k].quantity) &&
      r[k].price == upd.price.GetOr(inv[k].price)
    ensures !HasId(inv, productId) ==> r == inv
    ensures upd == InventoryUpdate(None, None) ==> r == inv
  {
    seq(|inv|, k requires 0 <= k < |inv| =>
      if inv[k].id == productId
      then inv[k].(quantity := upd.quantity.GetOr(inv[k].quantity), price := upd.price.GetOr(inv[k].price))
      else inv[k])
  }

  /** The profile with the supplied fields written over it. */
  function MergeProfile(p: Profile, upd: ProfileUpdate): (r: Profile)
    ensures upd.storeName.None? ==> r.storeName == p.storeName
    ensures upd.ownerName.None? ==> r.ownerName == p.ownerName
    ensures upd.openingBalance.None? ==> r.openingBalance == p.openingBalance
    ensures upd.storeName.Some? ==> r.storeName == upd.storeName.value
    ensures upd.ownerName.Some? ==> r.ownerName == upd.ownerName.value
    ensures upd.openingBalance.Some? ==> r.openingBalance == upd.openingBalance.value
  {
    Profile(upd.storeName.GetOr(p.storeName),
            upd.ownerName.GetOr(p.ownerName),
            upd.openingBalance.GetOr(p.openingBalance))
  }

  /** Merging the same partial profile twice is merging it once. */
  lemma MergeProfileIdempotent(p: Profile, upd: ProfileUpdate)
    ensures MergeProfile(MergeProfile(p, upd), upd) == MergeProfile(p, upd)
  {
  }

  // ---------------------------------------------------------------------
  // The store
  // ---------------------------------------------------------------------

  class AppStore {
    var data: AppData
    var pendingBillItems: seq<BillItem>
    var lastGeneratedBillId: Option<string>
    /** The snapshot last written to storage by this store, if any. */
    ghost var saved: Option<AppData>

    ghost predicate Valid()
      reads this
    {
      UniqueIds(data.inventory)
    }

    /** The store once the snapshot has been loaded (from storage, or the seed). */
    constructor (loaded: AppData)
      requires UniqueIds(loaded.inventory)
      ensures Valid()
      ensures data == loaded && pendingBillItems == [] && lastGeneratedBillId == None
      ensures saved == None
    {
      data := loaded;
      pendingBillItems := [];
      lastGeneratedBillId := None;
      saved := None;
    }

    /** Replaces the snapshot in memory and writes the same snapshot out. */
    method Persist(next: AppData)
      requires UniqueIds(next.inventory)
      modifies this`data, this`saved
      ensures Valid()
      ensures data == next && saved == Some(next)
    {
      data := next;
      saved := Some(next);
    }

    /** Stages candidate bill items; the snapshot is neither changed nor saved. */
    method SetPendingBillItems(items: seq<BillItem>)
      modifies this`pendingBillItems
      ensures pendingBillItems == items
    {
      pendingBillItems := items;
    }

    /** Drops the staged items and forgets the last bill; nothing is saved. */
    method ClearPendingBill()
      modifies this`pendingBillItems, this`lastGeneratedBillId
      ensures pendingBillItems == [] && lastGeneratedBillId == None
    {
      pendingBillItems := [];
      lastGeneratedBillId := None;
    }

    /** Records a bill made of `items` with the caller's `total` (not
        recomputed), puts it in front of the older bills, takes the items out
        of stock, saves, clears the staged items and returns the new bill's
        id. `clock` is the text of the current time in milliseconds and
        `createdAt` the current time as an ISO string. */
    method AddBill(items: seq<BillItem>, total: real, clock: string, createdAt: string) returns (billId: string)
      requires Valid()
      modifies this
      ensures Valid()
      ensures billId == "bill-" + clock
      ensures data.bills == [Bill(billId, items, total, createdAt)] + old(data.bills)
      ensures data.inventory == SellAll(old(data.inventory), items)
      ensures data.profile == old(data.profile)
      ensures saved == Some(data)
      ensures pendingBillItems == [] && lastGeneratedBillId == Some(billId)
    {
      billId := "bill-" + clock;
      var bill := Bill(billId, items, total, createdAt);
      var snapshot := data;
      var before := snapshot.inventory;
      var inv := before;
      for i := 0 to |items|
        invariant inv == SellAll(before, items[..i])
        invariant UniqueIds(inv)
      {
        var item := items[i];
        assert items[..i + 1][..i] == items[..i];
        SellItemIsSlotUpdate(inv, item);
        var found := FindFrom(inv, item.productId, 0);
        if found.Some? {
          var p := inv[found.value];
          inv := inv[found.value := p.(quantity := Max0(p.quantity - item.quantity))];
        }
        SellAllKeepsCatalogue(before, items[..i + 1]);
        SameCatalogueKeepsUniqueIds(before, SellAll(before, items[..i + 1]));
      }
      assert items[..|items|] == items;
      Persist(AppData(inv, [bill] + snapshot.bills, snapshot.profile));
      pendingBillItems := [];
      lastGeneratedBillId := Some(billId);
    }

    /** Writes the supplied quantity and price over the product with this id;
        an unknown id leaves the inventory as it was. Saves either way. */
    method UpdateInventory(productId: string, upd: InventoryUpdate)
      requires Valid()
      modifies this`data, this`saved
      ensures Valid()
      ensures data.inventory == ApplyInventoryUpdate(old(data.inventory), productId, upd)
      ensures data.bills == old(data.bills) && data.profile == old(data.profile)
      ensures saved == Some(data)
    {
      var inventory := ApplyInventoryUpdate(data.inventory, productId, upd);
      assert forall k :: 0 <= k < |inventory| ==> inventory[k].id == data.inventory[k].id;
      Persist(data.(inventory := inventory));
    }

    /** Appends a product with id "p-" followed by `clock`, the text of the
        current time in milliseconds, which must not be taken already. */
    method AddProduct(product: NewProduct, clock: string)
      requires Valid()
      requires !HasId(data.inventory, "p-" + clock)
      modifies this`data, this`saved
      ensures Valid()
      ensures data.inventory ==
        old(data.inventory) + [Product("p-" + clock, product.name, product.price, product.quantity)]
      ensures data.bills == old(data.bills) && data.profile == old(data.profile)
      ensures saved == Some(data)
    {
      var id := "p-" + clock;
      var inventory := data.inventory + [Product(id, product.name, product.price, product.quantity)];
      Persist(data.(inventory := inventory));
    }

    /** Writes the supplied profile fields over the profile and saves. */
    method UpdateProfile(upd: ProfileUpdate)
      requires Valid()
      modifies this`data, this`saved
      ensures Valid()
      ensures data.profile == MergeProfile(old(data.profile), upd)
      ensures data.inventory == old(data.inventory) && data.bills == old(data.bills)
      ensures saved == Some(data)
    {
      Persist(data.(profile := MergeProfile(data.profile, upd)));
    }
  }
}
