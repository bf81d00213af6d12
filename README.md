# Photo billing store — a Dafny model

This project models the core of a small "photo billing" shop app. A photo of
the counter is "recognised" as a few products from the inventory. The user
edits the proposed bill lines and generates a bill. The app then takes the
sold quantities out of stock. The modelled parts are:

- `types.dfy` (module `Types`): the records: Product, BillItem, Bill,
  Profile and AppData, the snapshot of inventory, bills and profile. It also
  holds the partial updates that the inventory and profile edits accept.
- `store.dfy` (module `AppDataStore`): the application store. The class
  `AppStore` has the snapshot, the pending bill items and the id of the bill
  generated last as fields. It also has a ghost field `saved`, the snapshot
  last written to storage. Every snapshot-changing method goes through
  `Persist`, which sets both `data` and `saved`. Beside the class are the
  pure functions that specify it: `SellAll` is the inventory after a sale,
  `ApplyInventoryUpdate` is a product edit and `MergeProfile` is a profile
  merge. The lemmas about them come with these functions.
- `bill_edit.dfy` (module `BillEdit`): the bill editor. It has the running
  total, the edit of one line (the entered number is clamped at 0, and a
  quantity is floored), removal by position, and the filter to lines with a
  positive quantity. The class `BillEditor` holds the lines. Its
  `GenerateBill` calls the store's `AddBill`.
- `mock_data.dfy` (module `MockData`): the seed products, bills and snapshot,
  and the detection stub. In the stub, the random shuffle is an explicit
  permutation of positions, and the random count is `extra` in {0, 1, 2}.

Money (prices, totals, the opening balance) is a Dafny `real`. Quantities are
`int`, because every caller parses them as integers or floors them.

## Model

| member | source | states |
|---|---|---|
| `AppDataStore.AppStore.constructor` | context/AppDataContext.tsx:20-36 | After loading, the store holds the loaded snapshot. No items are pending, there is no last bill id, and this store has saved nothing yet. |
| `AppDataStore.AppStore.Persist` | context/AppDataContext.tsx:30-33 | The snapshot in memory and the saved copy both become the given snapshot. |
| `AppDataStore.AppStore.SetPendingBillItems` | context/AppDataContext.tsx:38-40 | The pending items are replaced wholesale. The snapshot, the saved copy and the last bill id are not touched (frame). |
| `AppDataStore.AppStore.ClearPendingBill` | context/AppDataContext.tsx:42-45 | The pending items become empty and the last bill id becomes none. Nothing else changes and nothing is saved. |
| `AppDataStore.AppStore.AddBill` | context/AppDataContext.tsx:47-74 | Exactly one bill goes in front of the older bills, which follow unchanged. Its id is "bill-" + clock, and its items and total are the arguments as given. The inventory becomes `SellAll` of the old one. The loop updates a copy of the inventory sequence at the position `FindFrom` returns. Under the unique-id invariant this is the same as the source's id-keyed map. The loop is proved equal to `SellAll`. The profile is unchanged and the saved copy equals the new snapshot. Pending items are emptied, and the last bill id is the returned id. |
| `AppDataStore.AppStore.UpdateInventory` | context/AppDataContext.tsx:76-84 | The inventory becomes `ApplyInventoryUpdate` of the old one. Bills and profile are unchanged, and the result is saved. |
| `AppDataStore.AppStore.AddProduct` | context/AppDataContext.tsx:86-93 | One product with id "p-" + clock and the given name, price and quantity is appended at the end. All earlier entries, the bills and the profile are unchanged, and the result is saved. |
| `AppDataStore.AppStore.UpdateProfile` | context/AppDataContext.tsx:95-100 | The profile becomes the merge of the old profile with the update. Inventory and bills are unchanged, and the result is saved. |
| `AppDataStore.FindFrom` | context/AppDataContext.tsx:55-57 | The id lookup of the sale loop returns the first position holding that id, or none exactly when no product has that id. |
| `AppDataStore.SellItem` | context/AppDataContext.tsx:57-61 | One sold item keeps the inventory's length, order, ids, names and prices. Each product with the item's id drops to max(0, stock - quantity), and every other product is unchanged. When no product has the id, the inventory is unchanged. |
| `AppDataStore.SellAll` | context/AppDataContext.tsx:55-62 | The items are sold one after the other, in bill order. The inventory keeps its length. |
| `AppDataStore.SellAllKeepsCatalogue` | context/AppDataContext.tsx:55-66 | A sale keeps the inventory's length and order, and each product's id, name and price. |
| `AppDataStore.SellUnknownIgnored` | context/AppDataContext.tsx:57-61 | A bill whose items all name ids that are not in the inventory changes nothing. |
| `AppDataStore.SellSkipsUnknown` | context/AppDataContext.tsx:57-58 | One item whose id is not in the inventory is skipped wherever it stands in the bill. Selling the bill gives the same inventory as selling it without that item. |
| `AppDataStore.SellAllStock` | context/AppDataContext.tsx:55-62 | With item quantities that are not negative, a product no item names keeps its stock. Any other product ends at max(0, old stock minus the sum of the matching items' quantities). Clamping after every step equals clamping once at the end. |
| `AppDataStore.SellAllClampedStock` | context/AppDataContext.tsx:59 | With stock and item quantities that are not negative, every product ends at max(0, old - sold), which is never negative. |
| `AppDataStore.SellAllKeepsNonNegativeStock` | context/AppDataContext.tsx:59 | For any item quantities, a sale applied to stock that is not negative leaves stock that is not negative. |
| `AppDataStore.SaleExamples` | context/AppDataContext.tsx:59 | Selling 2 Milk from 20 leaves 18. Selling 25 from 20 leaves 0. |
| `AppDataStore.ApplyInventoryUpdate` | context/AppDataContext.tsx:78-80 | The length is kept. Products with another id are unchanged. The matching product keeps its id and name, and takes the supplied quantity and price, keeping its own where a field is absent. An unknown id, or an empty update, leaves the inventory unchanged. |
| `AppDataStore.MergeProfile` | context/AppDataContext.tsx:97 | Each supplied field replaces the old value, and each absent field keeps it. |
| `AppDataStore.MergeProfileIdempotent` | context/AppDataContext.tsx:97 | Merging the same update twice gives the same profile as merging it once. |
| `BillEdit.BillEditor.constructor` | app/bill-edit.tsx:24-26 | The editor's lines are a copy of the pending items, or empty when there are none. |
| `BillEdit.TotalIsSumOfLines` | app/bill-edit.tsx:30-33 | The running total (a left fold) equals the sum of price times quantity over the lines. |
| `BillEdit.TotalAppend` | app/bill-edit.tsx:30-33 | The total of two runs of lines placed one after the other is the sum of their totals. |
| `BillEdit.Total` | app/bill-edit.tsx:30-33 | The running total, summed from the left. Lines with no negative price or quantity have a total of at least 0. |
| `BillEdit.TotalSnoc` | app/bill-edit.tsx:30-33 | One more line adds its price times quantity to the total. |
| `BillEdit.EnteredAmount` | app/bill-edit.tsx:37 | The entered number is never negative. It is the parsed value when that value is at least 0. It is 0 when the entry does not parse or is at most 0. |
| `BillEdit.EditedItem` | app/bill-edit.tsx:37-40 | Only the chosen field changes. A quantity becomes the floor of the entered amount, a whole number of at least 0. A price becomes the entered amount. The product id and name are kept. |
| `BillEdit.EditKeepsNonNegative` | app/bill-edit.tsx:37-40 | If no price or quantity was negative before an edit, none is negative after it. |
| `BillEdit.BillEditor.UpdateItem` | app/bill-edit.tsx:35-45 | The line at `index` is replaced by its edited form. Every other line and the length stay the same. |
| `BillEdit.WithoutIndex` | app/bill-edit.tsx:48 | The lines at every position but `index`. There is one line fewer when `index` is a valid position, and the same number otherwise. |
| `BillEdit.WithoutIndexRemovesOne` | app/bill-edit.tsx:47-49 | Removing a valid position drops exactly that line. The others keep their order and the length shrinks by one. Any other position leaves the lines unchanged. |
| `BillEdit.BillEditor.RemoveItem` | app/bill-edit.tsx:47-49 | The lines become the position filter of the old lines. |
| `BillEdit.Billable` | app/bill-edit.tsx:52 | Every billed line has a positive quantity, and there are no more billed lines than lines. |
| `BillEdit.BillableSnoc` | app/bill-edit.tsx:52 | One more line is billed after the earlier billed lines exactly when its quantity is positive. |
| `BillEdit.BillableMembers` | app/bill-edit.tsx:52 | A line is billed exactly when it is among the lines and its quantity is positive. |
| `BillEdit.BillableEmpty` | app/bill-edit.tsx:52-53 | Nothing is billed exactly when no line has a positive quantity. |
| `BillEdit.BillableAppend` | app/bill-edit.tsx:52 | Filtering two runs placed one after the other equals filtering each run: the original order is kept. |
| `BillEdit.BillableKeepsTotalStep` | app/bill-edit.tsx:52-54 | If the billed lines so far have the same total as all lines, one more line with no negative quantity keeps the two totals equal. |
| `BillEdit.BillableKeepsTotal` | app/bill-edit.tsx:52-54 | With no negative quantity, the total passed to the store equals the total of the billed lines. |
| `BillEdit.BillEditor.GenerateBill` | app/bill-edit.tsx:51-56 | The guard: no id comes back exactly when no line has a positive quantity. In that case nothing is called, the store is unchanged and no id comes back. Otherwise the store's new first bill holds exactly the positive-quantity lines, in order, with the running total. Its stock is sold by those lines, and the bill's id is returned. |
| `MockData.SeedProductsWellFormed` | data/mockData.ts:3-12 | Seed product ids are pairwise distinct. No seed price or stock is negative. |
| `MockData.MockBills` | data/mockData.ts:14-34 | There are two seed bills. Each bill's stored total (240 and 350) is the running total of its lines. |
| `MockData.SeedItemsReferenceProducts` | data/mockData.ts:3-34 | Every seed bill line names a seed product id and has that product's name and price. |
| `MockData.InitialAppData` | data/mockData.ts:48-56 | The seed snapshot's inventory is the seed products, its bills are the seed bills, and its profile is the default profile, with an opening balance of 5000. Its product ids are unique, so a store can be built from it. |
| `MockData.MockDetectedProducts` | data/mockData.ts:36-46 | min(2 + extra, inventory size) lines are detected, so between min(2, n) and min(4, n). Line k copies the id, name and price of the product at shuffled position k, with quantity 1. |
| `MockData.DetectedItemsCopyInventory` | data/mockData.ts:40-45 | Every detected line has quantity 1 and copies the id, name and price of some inventory product. |
| `MockData.DetectedProductsDistinct` | data/mockData.ts:38-45 | Detected lines come from distinct positions of the shuffled inventory. With unique product ids, no product id appears twice. |

## Left out

- I/O is left out: reading and writing the device's key-value storage, JSON encoding and the fallback to the seed on a failed load (utils/storage.ts). A save is modelled only as the ghost `saved` snapshot. Whether the write succeeds is not modelled.
- The loading flag, React state and hooks, the asynchronous load effect and stale closures are left out, because they are framework plumbing. The constructor stands for the state once loading has finished.
- Clocks are parameters. `Date.now()` appears as the text `clock`, from which ids are formed, and `toISOString()` appears as `createdAt`. Id uniqueness is not proved, because the source does not guarantee it.
- `AppDataStore.AppStore.AddProduct` requires that "p-" + clock is not an id already in the inventory. The source relies on the clock for this and does not check it. The requirement keeps the store's invariant of unique product ids, which the sale in `AddBill` needs.
- `AppDataStore.AppStore.AddBill` assumes unique product ids (the store's `Valid()`). With duplicate ids, the source's id-keyed map would merge products into one entry. That case is not modelled.
- `parseFloat`, `parseInt`, `toFixed` and `toLocaleString` are string and number formatting. The editor receives an already parsed value, with `None` for a number that does not parse. Money is a `real`, so there is no floating-point rounding and no infinities.
- `MockData.MockDetectedProducts`: `Math.random` is replaced by a permutation argument and the count `extra`. No statistical property is modelled.
- The camera, navigation after generating a bill, the bill preview lookup and the screens are left out, because they are UI only.
- Revenue, profit, best-seller and cash-balance figures are left out. They are computed by screens outside the modelled core.
