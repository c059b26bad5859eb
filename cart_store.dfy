/**
  The cart store itself: the current cart (`products`, `total`) updated in
  place by the actions, and the snapshot kept under the local-storage key
  `cart`, which every mutating action overwrites.
 */
module CartStore {
  import opened CartLogic

  class Cart {
    var products: seq<LineItem>
    var total: int
    /** The value stored under the key `cart`; None when nothing is stored. */
    var stored: Option<CartValue>

    /** The invariants the actions keep: unique keys and positive quantities,
        in memory and in the snapshot. The total is not part of it: a loaded
        snapshot can carry a total that lags behind its products. */
    ghost predicate Valid()
      reads this
    {
      && WellFormed(products)
      && (stored.Some? ==> WellFormed(stored.value.products))
    }

    /** A fresh store starts with an empty cart and finds whatever an earlier
        session left in storage. */
    constructor (persisted: Option<CartValue>)
      ensures products == [] && total == 0 && stored == persisted
      ensures Valid() <==> (persisted.Some? ==> WellFormed(persisted.value.products))
    {
      products := [];
      total := 0;
      stored := persisted;
    }

    /** `setCartToLocalStorage`: write a copy of the current cart. */
    method SetCartToLocalStorage()
      modifies this`stored
      ensures stored == Some(CartValue(products, total))
    {
      stored := Some(CartValue(products, total));
    }

    /** `setTotals`: recompute the cached total. */
    method SetTotals()
      modifies this`total
      ensures total == Sum(products)
    {
      total := GetTotal(products);
    }

    /** `addProduct`. The snapshot is written before the total is recomputed,
        so it holds the new products beside the total from before the call. */
    method AddProduct(productInfo: LineItem)
      modifies this
      ensures products == AddedTo(old(products), productInfo)
      ensures total == Sum(products)
      ensures stored == Some(CartValue(products, old(total)))
      ensures old(Valid()) && productInfo.quantity >= 1 ==> Valid()
    {
      ghost var wasValid := Valid();
      var index := FindIndex(products, productInfo.id, productInfo.flag);
      if index == -1 {
        products := products + [productInfo];
      } else {
        products := products[index := products[index].(quantity := products[index].quantity + productInfo.quantity)];
      }
      SetCartToLocalStorage();
      SetTotals();
      if wasValid && productInfo.quantity >= 1 {
        AddedToWellFormed(old(products), productInfo);
      }
    }

    /** `removeProduct`: `splice(productIndex, 1)`. */
    method RemoveProduct(productIndex: int)
      requires 0 <= productIndex < |products|
      modifies this
      ensures products == RemovedAt(old(products), productIndex)
      ensures total == Sum(products) == Sum(old(products)) - Subtotal(old(products)[productIndex])
      ensures stored == Some(CartValue(products, old(total)))
      ensures old(Valid()) ==> Valid()
    {
      ghost var wasValid := Valid();
      products := products[..productIndex] + products[productIndex + 1..];
      SetCartToLocalStorage();
      SetTotals();
      SumRemove(old(products), productIndex);
      if wasValid {
        RemovedAtWellFormed(old(products), productIndex);
      }
    }

    /** `increaseProductQuantity`: one more unit of the entry at the index. */
    method IncreaseProductQuantity(productIndex: int)
      requires 0 <= productIndex < |products|
      modifies this
      ensures products == IncreasedAt(old(products), productIndex)
      ensures total == Sum(products) == Sum(old(products)) + old(products)[productIndex].price
      ensures stored == Some(CartValue(products, old(total)))
      ensures old(Valid()) ==> Valid()
    {
      ghost var wasValid := Valid();
      products := products[productIndex := products[productIndex].(quantity := products[productIndex].quantity + 1)];
      SetCartToLocalStorage();
      SetTotals();
      IncreasedAtTotal(old(products), productIndex);
      if wasValid {
        IncreasedAtWellFormed(old(products), productIndex);
      }
    }

    /** `decreaseProductQuantity`: one unit fewer, and the entry leaves the
        cart when its quantity is then exactly 0. */
    method DecreaseProductQuantity(productIndex: int)
      requires 0 <= productIndex < |products|
      modifies this
      ensures products == DecreasedAt(old(products), productIndex)
      ensures total == Sum(products) == Sum(old(products)) - old(products)[productIndex].price
      ensures stored == Some(CartValue(products, old(total)))
      ensures old(Valid()) ==> Valid()
    {
      ghost var wasValid := Valid();
      products := products[productIndex := products[productIndex].(quantity := products[productIndex].quantity - 1)];
      if products[productIndex].quantity == 0 {
        products := products[..productIndex] + products[productIndex + 1..];
      }
      SetCartToLocalStorage();
      SetTotals();
      DecreasedAtTotal(old(products), productIndex);
      if wasValid {
        DecreasedAtWellFormed(old(products), productIndex);
      }
    }

    /** `loadFromLocalStorage`: take the stored cart, total included and not
        recomputed, only when it exists and has at least one product. */
    method LoadFromLocalStorage()
      modifies this`products, this`total
      ensures stored.Some? && |stored.value.products| != 0 ==>
                products == stored.value.products && total == stored.value.total
      ensures !(stored.Some? && |stored.value.products| != 0) ==>
                products == old(products) && total == old(total)
      ensures old(Valid()) ==> Valid()
    {
      var cartLocalStorage := stored;
      if cartLocalStorage.Some? && |cartLocalStorage.value.products| != 0 {
        products := cartLocalStorage.value.products;
        total := cartLocalStorage.value.total;
      }
    }

    /** `resetCurrentCart`: empty the cart and store the empty cart. */
    method ResetCurrentCart()
      modifies this
      ensures products == [] && total == 0
      ensures stored == Some(CartValue([], 0))
      ensures Valid()
    {
      products := [];
      total := 0;
      SetCartToLocalStorage();
    }
  }

  /** Two adds of the same key merge into one entry; three decreases then
      empty the cart. */
  method MergeThenDrainScenario() returns (lengthAfterAdds: int, quantityAfterAdds: int,
                                           totalAfterAdds: int, lengthAtEnd: int, totalAtEnd: int)
    ensures lengthAfterAdds == 1 && quantityAfterAdds == 3 && totalAfterAdds == 30
    ensures lengthAtEnd == 0 && totalAtEnd == 0
  {
    var cart := new Cart(None);
    var item := LineItem(1, Given(false), 10, 2, 5);
    cart.AddProduct(item);
    assert cart.products == [item];
    assert cart.total == 20;
    cart.AddProduct(item.(quantity := 1));
    assert Matches(cart.products[0], 1, Given(false));
    assert cart.products == [item.(quantity := 3)];
    lengthAfterAdds, quantityAfterAdds, totalAfterAdds := |cart.products|, cart.products[0].quantity, cart.total;
    cart.DecreaseProductQuantity(0);
    cart.DecreaseProductQuantity(0);
    cart.DecreaseProductQuantity(0);
    lengthAtEnd, totalAtEnd := |cart.products|, cart.total;
  }

  /** A snapshot written by `addProduct` carries the total from before the add,
      and loading it in the next session keeps that stale total. */
  method ReloadAfterAddScenario() returns (reloadedProducts: seq<LineItem>, reloadedTotal: int,
                                           recomputedTotal: int)
    ensures reloadedProducts == [LineItem(1, Given(false), 10, 2, 5)]
    ensures reloadedTotal == 0 && recomputedTotal == 20
  {
    var cart := new Cart(None);
    var item := LineItem(1, Given(false), 10, 2, 5);
    cart.AddProduct(item);
    assert cart.products == [item];
    var nextSession := new Cart(cart.stored);
    nextSession.LoadFromLocalStorage();
    reloadedProducts, reloadedTotal := nextSession.products, nextSession.total;
    recomputedTotal := GetTotal(reloadedProducts);
  }
}
