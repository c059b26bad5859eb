# Cart store model

This project models the client-side shopping cart store of `src/stores/cart.js`.
The store keeps one current cart: an ordered list of line items and a cached
total. A line item has an `id`, an `is_fake_store_api` flag, a `price`, a
`quantity` and a `stock`. The pair `(id, flag)` identifies an entry. The
mutating actions update the cart in place. Every mutating action except
loading also overwrites the snapshot stored under the local-storage key `cart`.

The model has two modules.

- `CartLogic` (`cart_logic.dfy`) holds the values and the pure helpers:
  - the datatypes;
  - `FindIndex`, which models `getIndexByIdAndApi`;
  - `Fold` and `GetTotal`, which model the `reduce` of `getTotal`, with `Sum` as its specification;
  - `GetCurrentStock`;
  - one function per action (`AddedTo`, `RemovedAt`, `IncreasedAt`, `DecreasedAt`) giving the new list of products;
  - the lemmas about all of these.
- `CartStore` (`cart_store.dfy`) holds the class `Cart`. Its fields are
  `products`, `total` and `stored`. The field `stored` stands for the
  local-storage entry, with `None` meaning that no entry exists. Each action
  is a method, and its `ensures` ties the new state to the functions in
  `CartLogic`.

Modelling choices:

- **The flag.** It is compared with `===`, and `getCurrentStock` defaults it to
  `undefined`. So it is modelled as `SourceFlag = Given(bool) | Unspecified`.
  A query with `Unspecified` finds only entries whose flag is also unspecified
  (`UnspecifiedQueryMatchesOnlyUnspecified`).
- **Numbers.** Prices, quantities and stock are integers (for example cents and units).
- **The stale snapshot.** `addProduct`, `removeProduct`,
  `increaseProductQuantity` and `decreaseProductQuantity` write the snapshot
  before they recompute the total. The snapshot therefore holds the new products
  next to the total from before the call. `loadFromLocalStorage` takes that
  total as it is. The model keeps this behaviour:
  - each of these methods ensures `stored == Some(CartValue(products, old(total)))`;
  - `ReloadAfterAddScenario` shows a reloaded cart whose total (0) differs from the sum of its products (20).
- **The invariants.** "total equals the sum of `price * quantity`" holds after
  every mutation. It is not a class invariant, because a load can break it.
  `Cart.Valid()` holds what the actions do keep, both in memory and in the
  snapshot:
  - at most one entry per key;
  - every quantity at least 1.

## Model

| member | source | states |
|---|---|---|
| `CartLogic.FindIndex` | src/stores/cart.js:36-39 | the result is -1 exactly when no entry has the key `(id, flag)`; otherwise it is the least index whose entry has that id and that flag |
| `CartLogic.UniqueFirstMatch` | src/stores/cart.js:36-39 | in a list with unique keys, looking up an entry's own key finds that entry's index |
| `CartLogic.Fold` | src/stores/cart.js:26-28 | the left-to-right `reduce` from accumulator `acc` gives `acc` plus the sum of `price * quantity` |
| `CartLogic.GetTotal` | src/stores/cart.js:24-30 | `getTotal` returns the sum of `price * quantity` over the products |
| `CartLogic.SumAppend` | src/stores/cart.js:26-28 | appending an entry adds its `price * quantity` to the sum |
| `CartLogic.SumUpdate` | src/stores/cart.js:26-28 | replacing the entry at `k` changes the sum by the new subtotal minus the old one |
| `CartLogic.SumRemove` | src/stores/cart.js:26-28 | removing the entry at `k` takes its subtotal off the sum |
| `CartLogic.GetCurrentStock` | src/stores/cart.js:116-123 | -1 when no entry has the key; otherwise `stock - quantity` of the first entry with the key |
| `CartLogic.StockOfEntry` | src/stores/cart.js:116-123 | with unique keys, the stock query for an entry's own key reports that entry's `stock - quantity` |
| `CartLogic.UnspecifiedQueryMatchesOnlyUnspecified` | src/stores/cart.js:36-39 | a lookup with the flag unspecified finds only an entry whose flag is unspecified, and a lookup with a boolean flag finds only an entry with that same boolean |
| `CartLogic.UnspecifiedQueryMissesGivenFlags` | src/stores/cart.js:116-122 | when every entry has a boolean flag, a query that omits the flag finds no entry (the lookup returns -1), so the stock query returns the sentinel -1 |
| `CartLogic.StockSentinelIsAmbiguous` | src/stores/cart.js:118-122 | an entry that is present, with stock one less than its quantity, also yields -1, so -1 does not imply absence |
| `CartLogic.AddedTo` | src/stores/cart.js:54-59 | the list keeps its length exactly when the item's key is already present; for a new key the item is appended at the end |
| `CartLogic.AddedToShape` | src/stores/cart.js:53-59 | a new key is appended at the end; for an existing key, the first matching entry gains the added quantity and keeps its id, flag, price and stock, while the length and all other entries are unchanged |
| `CartLogic.AddedToWellFormed` | src/stores/cart.js:53-59 | if keys are unique and quantities positive before the add, and the added quantity is positive, both still hold after it (a merge never duplicates a key) |
| `CartLogic.AddedToTotal` | src/stores/cart.js:53-62 | the sum grows by the added quantity times the price of the entry that receives it: the item's own price on an append, the existing entry's price on a merge |
| `CartLogic.RemovedAt` | src/stores/cart.js:65-66 | `splice(i, 1)` produces a list one shorter; entries before `i` are unchanged and entries after `i` move down by one, in order |
| `CartLogic.RemovedAtWellFormed` | src/stores/cart.js:65-66 | removing an entry keeps keys unique and quantities positive |
| `CartLogic.IncreasedAt` | src/stores/cart.js:72-73 | the list keeps its length, entry `i` gains one unit and keeps its other fields, and every other entry is unchanged |
| `CartLogic.IncreasedAtWellFormed` | src/stores/cart.js:72-73 | adding one unit to an entry keeps keys unique and quantities positive |
| `CartLogic.IncreasedAtTotal` | src/stores/cart.js:72-76 | adding one unit raises the sum by that entry's price |
| `CartLogic.DecreasedAt` | src/stores/cart.js:79-84 | an entry with quantity 1 is removed by index; any other entry has its quantity lowered by one, and nothing else changes |
| `CartLogic.DecreasedAtWellFormed` | src/stores/cart.js:79-84 | a decrease keeps keys unique and quantities positive, and the list shrinks exactly when the entry's quantity was 1 |
| `CartLogic.DecreasedAtTotal` | src/stores/cart.js:79-87 | removing one unit lowers the sum by that entry's price, whether or not the entry is removed |
| `CartStore.Cart.constructor` | src/stores/cart.js:8-11 | the store starts with no products, total 0, and whatever the storage already holds |
| `CartStore.Cart.SetCartToLocalStorage` | src/stores/cart.js:20-22 | the snapshot becomes a copy of the current products and total |
| `CartStore.Cart.SetTotals` | src/stores/cart.js:32-34 | the cached total becomes the sum of `price * quantity` |
| `CartStore.Cart.AddProduct` | src/stores/cart.js:53-63 | products become the merge-or-append of the item; total equals the new sum; the snapshot holds the new products and the pre-call total; the invariants are kept when the added quantity is positive |
| `CartStore.Cart.RemoveProduct` | src/stores/cart.js:65-70 | exactly entry `i` is removed and the others keep their order; total equals the new sum, which is the old sum less that entry's subtotal; the snapshot holds the new products and the pre-call total; the invariants are kept |
| `CartStore.Cart.IncreaseProductQuantity` | src/stores/cart.js:72-77 | only entry `i` gains one unit; total equals the new sum, which is the old sum plus that entry's price; the snapshot holds the new products and the pre-call total; the invariants are kept |
| `CartStore.Cart.DecreaseProductQuantity` | src/stores/cart.js:79-88 | entry `i` loses one unit and is removed when that leaves 0; total equals the new sum, which is the old sum less that entry's price; the snapshot holds the new products and the pre-call total; the invariants are kept |
| `CartStore.Cart.LoadFromLocalStorage` | src/stores/cart.js:90-95 | products and total are replaced by the stored ones exactly when a snapshot exists with a non-empty product list; otherwise they are unchanged; the stored total is not recomputed |
| `CartStore.Cart.ResetCurrentCart` | src/stores/cart.js:97-102 | products become empty, total becomes 0, the snapshot becomes that empty cart, and the invariants hold |
| `CartStore.MergeThenDrainScenario` | src/stores/cart.js:53-88 | adding `{id 1, price 10, quantity 2}` and then the same key with quantity 1 gives one entry with quantity 3 and total 30; three decreases at index 0 then leave an empty cart with total 0 |
| `CartStore.ReloadAfterAddScenario` | src/stores/cart.js:53-95 | after one add into an empty cart, a new session that loads the snapshot gets the added products with the stale total 0, while their sum is 20 |

## Left out

- `sendDataToApi` is not modelled. It is an asynchronous HTTP POST whose failure is only logged, and it does not change the cart.
- `getCurrentCart` is not modelled as a separate member. It is a reactive getter that returns the cart itself, which is the class's fields here.
- `getCartFromLocalStorage` and its JSON and local-storage I/O are not modelled. The stored value is the field `stored`, so serialization and parse failures are not modelled.
- Vue/Pinia reactivity (`ref`, `computed`, `defineStore`) is not modelled. The state is plain class fields.
- Floating-point arithmetic is not modelled. Prices, quantities and stock are unbounded integers.
- Ids are modelled as integers compared by equality. The source compares ids of any JavaScript type with `===`.
- Out-of-range indices are not modelled. `RemoveProduct`, `IncreaseProductQuantity` and `DecreaseProductQuantity` require `0 <= i < |products|`, so the model does not cover `splice` with a negative or too-large index, or the `TypeError` the source raises on a missing entry.
- Aliasing is not modelled. `push(productInfo)` stores the caller's object, which a later merge would also change. Items here are values.
