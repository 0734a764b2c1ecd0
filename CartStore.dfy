/** The cart store: the in-memory cart and its stored copy under the key
    `@RocketShoes:cart`, changed only by the three cart operations. */
module CartStore {
  import opened Wrappers
  import opened CartItems

  class Store {
    /** The cart the store exposes. */
    var cart: seq<Item>
    /** The stored copy; None while nothing has been written under the key. */
    var stored: Option<seq<Item>>

    /** Reading the stored copy back gives the in-memory cart. */
    ghost predicate Valid()
      reads this
    {
      Load(stored) == cart
    }

    /** The store as set up at start: the cart is what storage holds, or empty. */
    constructor (initial: Option<seq<Item>>)
      ensures Valid()
      ensures stored == initial && cart == Load(initial)
    {
      stored := initial;
      cart := Load(initial);
    }

    /** `addProduct(productId)`; `stock` and `record` are the answers of the
        stock and catalog lookups, None when a lookup fails. */
    method AddProduct(productId: int, stock: Option<int>, record: Option<string>) returns (outcome: Outcome)
      requires Valid()
      modifies this
      ensures Valid()
      ensures Step(cart, outcome) == AddStep(old(cart), productId, stock, record)
      ensures outcome == Done ==> stored == Some(cart)
      ensures outcome != Done ==> cart == old(cart) && stored == old(stored)
      ensures WellFormed(old(cart)) ==> WellFormed(cart)
    {
      var updated := cart;
      var found := FindIndex(updated, productId);
      if stock.None? {
        return LookupFailed;
      }
      var current := if found >= 0 then updated[found].amount else 0;
      var amount := current + 1;
      if stock.value < amount {
        return OutOfStock;
      }
      if found >= 0 {
        updated := updated[found := updated[found].(amount := amount)];
      } else {
        if record.None? {
          return LookupFailed;
        }
        updated := updated + [Item(productId, 1, record.value)];
      }
      cart := updated;
      stored := Some(updated);
      outcome := Done;
    }

    /** `removeProduct(productId)`. */
    method RemoveProduct(productId: int) returns (outcome: Outcome)
      requires Valid()
      modifies this
      ensures Valid()
      ensures Step(cart, outcome) == RemoveStep(old(cart), productId)
      ensures outcome == Done ==> stored == Some(cart)
      ensures outcome != Done ==> cart == old(cart) && stored == old(stored)
      ensures WellFormed(old(cart)) ==> WellFormed(cart)
    {
      var updated := cart;
      var found := FindIndex(updated, productId);
      if found >= 0 {
        updated := updated[..found] + updated[found + 1..];
        cart := updated;
        stored := Some(updated);
        outcome := Done;
      } else {
        outcome := NotFound;
      }
    }

    /** `updateProductAmount({productId, amount})`; `stock` is the answer of the
        stock lookup, None when it fails. */
    method UpdateProductAmount(productId: int, amount: int, stock: Option<int>) returns (outcome: Outcome)
      requires Valid()
      modifies this
      ensures Valid()
      ensures Step(cart, outcome) == UpdateStep(old(cart), productId, amount, stock)
      ensures outcome == Done ==> stored == Some(cart)
      ensures outcome != Done ==> cart == old(cart) && stored == old(stored)
      ensures WellFormed(old(cart)) ==> WellFormed(cart)
    {
      if amount <= 0 {
        return Ignored;
      }
      var updated := cart;
      if stock.None? {
        return LookupFailed;
      }
      var found := FindIndex(updated, productId);
      if amount > stock.value {
        return OutOfStock;
      }
      if found >= 0 {
        updated := updated[found := updated[found].(amount := amount)];
        cart := updated;
        stored := Some(updated);
        outcome := Done;
      } else {
        outcome := NotFound;
      }
    }
  }

  /** Adding a product twice, the second stock lookup reporting one unit. */
  method ScenarioAddTwice()
  {
    var s := new Store(None);
    var o := s.AddProduct(1, Some(5), Some("shoes"));
    assert o == Done && s.cart == [Item(1, 1, "shoes")] && s.stored == Some(s.cart);
    o := s.AddProduct(1, Some(1), Some("shoes"));
    assert o == OutOfStock && s.cart == [Item(1, 1, "shoes")];
  }

  /** A zero amount is ignored; a positive one within stock is set exactly. */
  method ScenarioUpdate()
  {
    var s := new Store(Some([Item(1, 2, "shoes")]));
    var o := s.UpdateProductAmount(1, 0, None);
    assert o == Ignored && s.cart == [Item(1, 2, "shoes")];
    o := s.UpdateProductAmount(1, 3, Some(3));
    assert o == Done && s.cart == [Item(1, 3, "shoes")];
  }

  /** Removing an absent product fails; removing a present one empties the cart. */
  method ScenarioRemove()
  {
    var s := new Store(Some([Item(2, 1, "shoes")]));
    var o := s.RemoveProduct(1);
    assert o == NotFound && s.cart == [Item(2, 1, "shoes")];
    o := s.RemoveProduct(2);
    assert o == Done && s.cart == [] && s.stored == Some([]);
  }
}
