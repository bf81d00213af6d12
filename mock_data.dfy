/** The seed snapshot used when nothing has been stored yet, and the stub
    that stands in for recognising products in a photo. The stub's two
    random choices are parameters here: the order the inventory is shuffled
    into (a permutation of positions) and the extra count `extra` in 0, 1, 2. */
module MockData {
  import opened Types
  import BillEdit

  const MockProducts: seq<Product> := [
    Product("1", "Milk", 45.0, 20),
    Product("2", "Bread", 30.0, 15),
    Product("3", "Eggs", 120.0, 10),
    Product("4", "Rice (1kg)", 85.0, 25),
    Product("5", "Cooking Oil", 180.0, 12),
    Product("6", "Sugar (500g)", 55.0, 18),
    Product("7", "Tea", 200.0, 8),
    Product("8", "Soap", 40.0, 30)
  ]

  /** The two seed bills; `dayAgo` and `now` are the ISO texts of one day
      before the current time and of the current time. The older bill comes
      first. Each total, 240 and 350, is the sum of price times quantity of
      the bill's lines. */
  function MockBills(dayAgo: string, now: string): (r: seq<Bill>)
    ensures |r| == 2
    ensures forall b :: b in r ==> BillEdit.Total(b.items) == b.total
  {
    var first := [BillItem("1", "Milk", 45.0, 2),
                  BillItem("2", "Bread", 30.0, 1),
                  BillItem("3", "Eggs", 120.0, 1)];
    var second := [BillItem("4", "Rice (1kg)", 85.0, 2),
                   BillItem("5", "Cooking Oil", 180.0, 1)];
    assert first[..2][..1][..0] == [];
    assert BillEdit.Total(first[..1]) == 90.0;
    assert BillEdit.Total(first[..2]) == 120.0;
    assert BillEdit.Total(first) == 240.0;
    assert second[..1][..0] == [];
    assert BillEdit.Total(second[..1]) == 170.0;
    assert BillEdit.Total(second) == 350.0;
    [Bill("bill-1", first, 240.0, dayAgo), Bill("bill-2", second, 350.0, now)]
  }

  const SeedProfile: Profile := Profile("My Retail Store", "Store Owner", 5000.0)

  /** The seed snapshot: the sample products, the sample bills and the
      default profile with an opening balance of 5000. */
  function InitialAppData(dayAgo: string, now: string): (d: AppData)
    ensures d.inventory == MockProducts && d.bills == MockBills(dayAgo, now)
    ensures d.profile == SeedProfile && d.profile.openingBalance == 5000.0
    ensures UniqueIds(d.inventory)
  {
    SeedProductsWellFormed();
    AppData(MockProducts, MockBills(dayAgo, now), SeedProfile)
  }

  /** Seed product ids are pairwise distinct; no seed price or stock is negative. */
  lemma SeedProductsWellFormed()
    ensures UniqueIds(MockProducts)
    ensures forall k :: 0 <= k < |MockProducts| ==> MockProducts[k].price >= 0.0 && MockProducts[k].quantity >= 0
  {
  }

  /** Every seed bill line names a seed product and copies its name and price. */
  lemma SeedItemsReferenceProducts(dayAgo: string, now: string)
    ensures forall b, item :: b in MockBills(dayAgo, now) && item in b.items ==>
      exists k :: 0 <= k < |MockProducts| && MockProducts[k].id == item.productId &&
        MockProducts[k].name == item.name && MockProducts[k].price == item.price
  {
    var bills := MockBills(dayAgo, now);
    forall b, item | b in bills && item in b.items
      ensures exists k :: (0 <= k < |MockProducts| && MockProducts[k].id == item.productId &&
                           MockProducts[k].name == item.name && MockProducts[k].price == item.price)
    {
      var k :=
        if item.productId == "1" then 0 else if item.productId == "2" then 1
        else if item.productId == "3" then 2 else if item.productId == "4" then 3 else 4;
      assert MockProducts[k].id == item.productId;
    }
  }

  // ---------------------------------------------------------------------
  // Detection stub
  // ---------------------------------------------------------------------

  /** `perm` lists every position below `n` exactly once. */
  predicate IsPermutation(perm: seq<int>, n: nat) {
    && |perm| == n
    && (forall k :: 0 <= k < n ==> 0 <= perm[k] < n)
    && (forall i, j :: 0 <= i < j < n ==> perm[i] != perm[j])
  }

  function Min(a: int, b: int): int {
    if a < b then a else b
  }

  /** The candidate lines "detected" in a photo: the inventory shuffled into
      the order `perm`, cut to 2 + `extra` products (fewer if the inventory is
      smaller), each as a line of quantity 1 copying the product's id, name
      and price. */
  function MockDetectedProducts(inventory: seq<Product>, perm: seq<int>, extra: int): (d: seq<BillItem>)
    requires IsPermutation(perm, |inventory|)
    requires 0 <= extra < 3
    ensures |d| == Min(2 + extra, |inventory|)
    ensures Min(2, |inventory|) <= |d| <= Min(4, |inventory|)
    ensures forall k :: 0 <= k < |d| ==>
      d[k] == BillItem(inventory[perm[k]].id, inventory[perm[k]].name, inventory[perm[k]].price, 1)
  {
    var shuffled := seq(|inventory|, k requires 0 <= k < |inventory| => inventory[perm[k]]);
    var count := Min(2 + extra, |shuffled|);
    seq(count, k requires 0 <= k < count =>
      BillItem(shuffled[k].id, shuffled[k].name, shuffled[k].price, 1))
  }

  /** Every detected line has quantity 1 and copies a product of the inventory. */
  lemma DetectedItemsCopyInventory(inventory: seq<Product>, perm: seq<int>, extra: int)
    requires IsPermutation(perm, |inventory|) && 0 <= extra < 3
    ensures forall item :: item in MockDetectedProducts(inventory, perm, extra) ==>
      item.quantity == 1 &&
      exists p :: p in inventory && p.id == item.productId && p.name == item.name && p.price == item.price
  {
    var d := MockDetectedProducts(inventory, perm, extra);
    forall item | item in d
      ensures item.quantity == 1
      ensures exists p :: p in inventory && p.id == item.productId && p.name == item.name && p.price == item.price
    {
      var k :| 0 <= k < |d| && d[k] == item;
      assert inventory[perm[k]] in inventory;
    }
  }

  /** Detected lines come from distinct positions of the inventory, so with
      unique product ids no product is detected twice. */
  lemma DetectedProductsDistinct(inventory: seq<Product>, perm: seq<int>, extra: int)
    requires IsPermutation(perm, |inventory|) && 0 <= extra < 3
    requires UniqueIds(inventory)
    ensures var d := MockDetectedProducts(inventory, perm, extra);
      forall i, j :: 0 <= i < j < |d| ==> d[i].productId != d[j].productId
  {
    var d := MockDetectedProducts(inventory, perm, extra);
    forall i, j | 0 <= i < j < |d| ensures d[i].productId != d[j].productId {
      var a, b := perm[i], perm[j];
      assert a != b;
      if a < b {
        assert inventory[a].id != inventory[b].id;
      } else {
        assert inventory[b].id != inventory[a].id;
      }
    }
  }
}
