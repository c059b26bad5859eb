/**
  Values and pure helpers of the client-side cart store: line items, the
  snapshot written to local storage, lookup by the composite key
  `(id, is_fake_store_api)`, the total, the stock query, and the change each
  action makes to the ordered list of line items.
 */
module CartLogic {

  datatype Option<T> = None | Some(value: T)

  /** The `is_fake_store_api` flag as the store compares it with `===`:
      a boolean, or `undefined` when a caller omits it. */
  datatype SourceFlag = Given(isFake: bool) | Unspecified

  /** One product entry; prices, quantities and stock are integers (cents, units). */
  datatype LineItem = LineItem(id: int, flag: SourceFlag, price: int, quantity: int, stock: int)

  /** `{ products, total }`, as held in memory and as written under the key `cart`. */
  datatype CartValue = CartValue(products: seq<LineItem>, total: int)

  // ---------------------------------------------------------------- lookup

  predicate Matches(item: LineItem, id: int, flag: SourceFlag) {
    item.id == id && item.flag == flag
  }

  predicate HasKey(s: seq<LineItem>, id: int, flag: SourceFlag) {
    exists j :: 0 <= j < |s| && Matches(s[j], id, flag)
  }

  /** `k` is the least index whose entry has key `(id, flag)`. */
  predicate FirstMatch(s: seq<LineItem>, k: int, id: int, flag: SourceFlag) {
    && 0 <= k < |s|
    && Matches(s[k], id, flag)
    && forall j :: 0 <= j < k ==> !Matches(s[j], id, flag)
  }

  /** `getIndexByIdAndApi`: `findIndex` with strict equality on both key parts. */
  function FindIndex(s: seq<LineItem>, id: int, flag: SourceFlag): (r: int)
    ensures r == -1 <==> !HasKey(s, id, flag)
    ensures r != -1 ==> FirstMatch(s, r, id, flag)
    decreases |s|
  {
    if s == [] then -1
    else if Matches(s[0], id, flag) then 0
    else
      var r := FindIndex(s[1..], id, flag);
      if r == -1 then -1 else r + 1
  }

  // ------------------------------------------------------------ invariants

  /** At most one entry per `(id, flag)`. */
  predicate Unique(s: seq<LineItem>) {
    forall i, j :: 0 <= i < j < |s| ==> !Matches(s[j], s[i].id, s[i].flag)
  }

  predicate PositiveQuantities(s: seq<LineItem>) {
    forall i :: 0 <= i < |s| ==> s[i].quantity >= 1
  }

  predicate WellFormed(s: seq<LineItem>) {
    Unique(s) && PositiveQuantities(s)
  }

  /** In a list with unique keys, the entry at `k` is the one found by its key. */
  lemma UniqueFirstMatch(s: seq<LineItem>, k: int)
    requires Unique(s) && 0 <= k < |s|
    ensures FirstMatch(s, k, s[k].id, s[k].flag)
    ensures FindIndex(s, s[k].id, s[k].flag) == k
  {
  }

  /** There is only one least matching index. */
  lemma FirstMatchIsUnique(s: seq<LineItem>, k: int, m: int, id: int, flag: SourceFlag)
    requires FirstMatch(s, k, id, flag) && FirstMatch(s, m, id, flag)
    ensures k == m
  {
  }

  // ----------------------------------------------------------------- total

  function Subtotal(item: LineItem): int {
    item.price * item.quantity
  }

  /** Changing an entry's quantity by `d` changes its subtotal by `price * d`. */
  lemma SubtotalShift(item: LineItem, d: int)
    ensures Subtotal(item.(quantity := item.quantity + d)) == Subtotal(item) + item.price * d
  {
  }

  /** The sum of `price * quantity` over the list. */
  function Sum(s: seq<LineItem>): int
    decreases |s|
  {
    if s == [] then 0 else Subtotal(s[0]) + Sum(s[1..])
  }

  /** The `reduce` of `getTotal`: an accumulator carried from left to right. */
  function Fold(acc: int, s: seq<LineItem>): (r: int)
    ensures r == acc + Sum(s)
    decreases |s|
  {
    if s == [] then acc else Fold(acc + Subtotal(s[0]), s[1..])
  }

  /** `getTotal`: the reduce started at 0 is the sum of `price * quantity`. */
  function GetTotal(products: seq<LineItem>): (r: int)
    ensures r == Sum(products)
  {
    Fold(0, products)
  }

  lemma {:induction false} SumAppend(s: seq<LineItem>, x: LineItem)
    ensures Sum(s + [x]) == Sum(s) + Subtotal(x)
    decreases |s|
  {
    if s == [] {
      assert s + [x] == [x];
      assert [x][1..] == [];
    } else {
      assert (s + [x])[1..] == s[1..] + [x];
      SumAppend(s[1..], x);
    }
  }

  lemma {:induction false} SumUpdate(s: seq<LineItem>, k: int, v: LineItem)
    requires 0 <= k < |s|
    ensures Sum(s[k := v]) == Sum(s) - Subtotal(s[k]) + Subtotal(v)
    decreases |s|
  {
    if k == 0 {
      assert s[k := v][1..] == s[1..];
    } else {
      assert s[k := v][1..] == s[1..][k - 1 := v];
      SumUpdate(s[1..], k - 1, v);
    }
  }

  lemma {:induction false} SumRemove(s: seq<LineItem>, k: int)
    requires 0 <= k < |s|
    ensures Sum(RemovedAt(s, k)) == Sum(s) - Subtotal(s[k])
    decreases |s|
  {
    if k == 0 {
      assert RemovedAt(s, 0) == s[1..];
    } else {
      var r := RemovedAt(s, k);
      assert r[0] == s[0];
      assert r[1..] == RemovedAt(s[1..], k - 1);
      SumRemove(s[1..], k - 1);
    }
  }

  // ----------------------------------------------------------------- stock

  /** `getCurrentStock`: `stock - quantity` of the entry with the key, or the
      sentinel -1 when there is none. */
  function GetCurrentStock(products: seq<LineItem>, id: int, flag: SourceFlag): (r: int)
    ensures !HasKey(products, id, flag) ==> r == -1
    ensures forall k :: FirstMatch(products, k, id, flag) ==>
              r == products[k].stock - products[k].quantity
  {
    var index := FindIndex(products, id, flag);
    if index != -1 then products[index].stock - products[index].quantity else -1
  }

  /** With unique keys, the query for an entry's own key reports that entry. */
  lemma StockOfEntry(s: seq<LineItem>, k: int)
    requires Unique(s) && 0 <= k < |s|
    ensures GetCurrentStock(s, s[k].id, s[k].flag) == s[k].stock - s[k].quantity
  {
  }

  /** A query with the flag left unspecified matches only an entry whose flag
      is unspecified too: `undefined === b` is false for every boolean `b`. */
  lemma UnspecifiedQueryMatchesOnlyUnspecified(s: seq<LineItem>, id: int)
    ensures FindIndex(s, id, Unspecified) != -1 ==>
              s[FindIndex(s, id, Unspecified)].flag == Unspecified
    ensures forall b :: FindIndex(s, id, Given(b)) != -1 ==>
              s[FindIndex(s, id, Given(b))].flag == Given(b)
  {
  }

  /** When every entry carries a boolean flag, a query that omits the flag finds
      no entry, and the stock query answers with the sentinel. */
  lemma UnspecifiedQueryMissesGivenFlags(s: seq<LineItem>, id: int)
    requires forall j :: 0 <= j < |s| ==> s[j].flag.Given?
    ensures !HasKey(s, id, Unspecified)
    ensures FindIndex(s, id, Unspecified) == -1
    ensures GetCurrentStock(s, id, Unspecified) == -1
  {
  }

  /** The sentinel does not mean "absent": an entry one short of its stock reports -1 too. */
  lemma StockSentinelIsAmbiguous(item: LineItem)
    requires item.stock == item.quantity - 1
    ensures HasKey([item], item.id, item.flag)
    ensures GetCurrentStock([item], item.id, item.flag) == -1
  {
  }

  // ---------------------------------------------------------- addProduct

  /** The list after `addProduct(item)`: merge into the entry with the same key,
      else append. */
  function AddedTo(s: seq<LineItem>, item: LineItem): (r: seq<LineItem>)
    ensures |r| == |s| <==> HasKey(s, item.id, item.flag)
    ensures !HasKey(s, item.id, item.flag) ==> r == s + [item]
  {
    var index := FindIndex(s, item.id, item.flag);
    if index == -1 then s + [item]
    else s[index := s[index].(quantity := s[index].quantity + item.quantity)]
  }

  /** A new key is appended at the end; an existing key has the added quantity
      summed into its first entry, whose price and stock stay, while the length
      and every other entry stay as they were. */
  lemma AddedToShape(s: seq<LineItem>, item: LineItem)
    ensures !HasKey(s, item.id, item.flag) ==> AddedTo(s, item) == s + [item]
    ensures forall k :: FirstMatch(s, k, item.id, item.flag) ==>
              && |AddedTo(s, item)| == |s|
              && AddedTo(s, item)[k] == s[k].(quantity := s[k].quantity + item.quantity)
              && forall j :: 0 <= j < |s| && j != k ==> AddedTo(s, item)[j] == s[j]
  {
  }

  /** Merge never duplicates a key, and keeps quantities positive when the added one is. */
  lemma AddedToWellFormed(s: seq<LineItem>, item: LineItem)
    requires WellFormed(s) && item.quantity >= 1
    ensures WellFormed(AddedTo(s, item))
  {
  }

  /** The total grows by the added quantity at the price of the entry that
      receives it: the stored entry's price on a merge, the item's on an append. */
  lemma AddedToTotal(s: seq<LineItem>, item: LineItem)
    ensures !HasKey(s, item.id, item.flag) ==>
              Sum(AddedTo(s, item)) == Sum(s) + item.price * item.quantity
    ensures forall k :: FirstMatch(s, k, item.id, item.flag) ==>
              Sum(AddedTo(s, item)) == Sum(s) + s[k].price * item.quantity
  {
    var r := AddedTo(s, item);
    var index := FindIndex(s, item.id, item.flag);
    if index == -1 {
      assert r == s + [item];
      SumAppend(s, item);
    } else {
      var v := s[index].(quantity := s[index].quantity + item.quantity);
      assert r == s[index := v];
      SumUpdate(s, index, v);
      SubtotalShift(s[index], item.quantity);
      assert Sum(r) == Sum(s) + s[index].price * item.quantity;
      forall k | FirstMatch(s, k, item.id, item.flag)
        ensures Sum(r) == Sum(s) + s[k].price * item.quantity
      {
        FirstMatchIsUnique(s, k, index, item.id, item.flag);
      }
    }
  }

  // ------------------------------------------------------- removeProduct

  /** The list after `splice(i, 1)`: entry `i` is gone, the rest keep their order. */
  function RemovedAt(s: seq<LineItem>, i: int): (r: seq<LineItem>)
    requires 0 <= i < |s|
    ensures |r| == |s| - 1
    ensures forall j :: 0 <= j < i ==> r[j] == s[j]
    ensures forall j :: i <= j < |r| ==> r[j] == s[j + 1]
  {
    s[..i] + s[i + 1..]
  }

  lemma RemovedAtWellFormed(s: seq<LineItem>, i: int)
    requires WellFormed(s) && 0 <= i < |s|
    ensures WellFormed(RemovedAt(s, i))
  {
  }

  // --------------------------------------------- increaseProductQuantity

  /** The list after `products[i].quantity += 1`. */
  function IncreasedAt(s: seq<LineItem>, i: int): (r: seq<LineItem>)
    requires 0 <= i < |s|
    ensures |r| == |s|
    ensures r[i] == s[i].(quantity := s[i].quantity + 1)
    ensures forall j :: 0 <= j < |s| && j != i ==> r[j] == s[j]
  {
    s[i := s[i].(quantity := s[i].quantity + 1)]
  }

  lemma IncreasedAtWellFormed(s: seq<LineItem>, i: int)
    requires WellFormed(s) && 0 <= i < |s|
    ensures WellFormed(IncreasedAt(s, i))
  {
  }

  /** One more unit adds the entry's price to the total. */
  lemma IncreasedAtTotal(s: seq<LineItem>, i: int)
    requires 0 <= i < |s|
    ensures Sum(IncreasedAt(s, i)) == Sum(s) + s[i].price
  {
    SumUpdate(s, i, s[i].(quantity := s[i].quantity + 1));
    SubtotalShift(s[i], 1);
  }

  // --------------------------------------------- decreaseProductQuantity

  /** The list after `products[i].quantity -= 1`, followed by `splice(i, 1)`
      when that quantity is now exactly 0. */
  function DecreasedAt(s: seq<LineItem>, i: int): (r: seq<LineItem>)
    requires 0 <= i < |s|
    ensures s[i].quantity == 1 ==> r == RemovedAt(s, i)
    ensures s[i].quantity != 1 ==> r == s[i := s[i].(quantity := s[i].quantity - 1)]
  {
    var t := s[i := s[i].(quantity := s[i].quantity - 1)];
    if t[i].quantity == 0 then
      assert t[..i] == s[..i] && t[i + 1..] == s[i + 1..];
      RemovedAt(t, i)
    else t
  }

  /** Decrease keeps keys unique and quantities positive: an entry leaves the
      list exactly when its quantity reaches 0. */
  lemma DecreasedAtWellFormed(s: seq<LineItem>, i: int)
    requires WellFormed(s) && 0 <= i < |s|
    ensures WellFormed(DecreasedAt(s, i))
    ensures |DecreasedAt(s, i)| == |s| - 1 <==> s[i].quantity == 1
  {
  }

  /** One unit fewer takes the entry's price off the total, whether or not the entry is removed. */
  lemma DecreasedAtTotal(s: seq<LineItem>, i: int)
    requires 0 <= i < |s|
    ensures Sum(DecreasedAt(s, i)) == Sum(s) - s[i].price
  {
    if s[i].quantity == 1 {
      SumRemove(s, i);
    } else {
      var v := s[i].(quantity := s[i].quantity - 1);
      SumUpdate(s, i, v);
      SubtotalShift(s[i], -1);
      assert DecreasedAt(s, i) == s[i := v];
    }
  }
}
