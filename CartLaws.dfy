/** Properties that relate several cart transitions, or a transition to the
    amount lookup `AmountOf` of `addProduct`. */
module CartLaws {
  import opened Wrappers
  import opened CartItems

  /** The first position of an identifier is unique, so `FindIndex` returns it. */
  lemma FindIndexIsFirst(cart: seq<Item>, id: int, k: int)
    requires IsFirst(cart, id, k)
    ensures FindIndex(cart, id) == k
  {
  }

  /** Replacing an entry by one with the same identifier moves no identifier. */
  lemma FindIndexAfterReplace(cart: seq<Item>, k: int, item: Item, x: int)
    requires 0 <= k < |cart| && item.id == cart[k].id
    ensures FindIndex(cart[k := item], x) == FindIndex(cart, x)
  {
    var m := FindIndex(cart, x);
    if m >= 0 {
      FindIndexIsFirst(cart[k := item], x, m);
    }
  }

  /** Appending an entry finds it only when its identifier was absent. */
  lemma FindIndexAfterAppend(cart: seq<Item>, item: Item, x: int)
    ensures FindIndex(cart + [item], x) ==
      if FindIndex(cart, x) >= 0 then FindIndex(cart, x)
      else if item.id == x then |cart| else -1
  {
    var m := FindIndex(cart, x);
    if m >= 0 {
      FindIndexIsFirst(cart + [item], x, m);
    } else if item.id == x {
      FindIndexIsFirst(cart + [item], x, |cart|);
    }
  }

  /** A successful add raises the amount `addProduct` reads for `id` by one,
      keeps it within the reported stock, and leaves every other amount alone. */
  lemma AddIncrementsAmount(cart: seq<Item>, id: int, stock: Option<int>, record: Option<string>)
    requires AddStep(cart, id, stock, record).outcome == Done
    ensures var after := AddStep(cart, id, stock, record).cart;
      AmountOf(after, id) == AmountOf(cart, id) + 1 &&
      stock.Some? && AmountOf(after, id) <= stock.value &&
      forall x :: x != id ==> AmountOf(after, x) == AmountOf(cart, x)
  {
    var after := AddStep(cart, id, stock, record).cart;
    var k := FindIndex(cart, id);
    if k >= 0 {
      forall x {
        FindIndexAfterReplace(cart, k, cart[k].(amount := cart[k].amount + 1), x);
      }
    } else {
      forall x {
        FindIndexAfterAppend(cart, Item(id, 1, record.value), x);
      }
    }
  }

  /** A successful update makes `id` read exactly `amount` (set, not added),
      within the reported stock, and leaves every other amount alone. */
  lemma UpdateSetsAmount(cart: seq<Item>, id: int, amount: int, stock: Option<int>)
    requires UpdateStep(cart, id, amount, stock).outcome == Done
    ensures var after := UpdateStep(cart, id, amount, stock).cart;
      AmountOf(after, id) == amount &&
      stock.Some? && amount <= stock.value &&
      forall x :: x != id ==> AmountOf(after, x) == AmountOf(cart, x)
  {
    var k := FindIndex(cart, id);
    forall x {
      FindIndexAfterReplace(cart, k, cart[k].(amount := amount), x);
    }
  }

  /** Updating twice with the same request is the same as updating once. */
  lemma UpdateIdempotent(cart: seq<Item>, id: int, amount: int, stock: Option<int>)
    ensures var once := UpdateStep(cart, id, amount, stock);
      UpdateStep(once.cart, id, amount, stock) == once
  {
    var once := UpdateStep(cart, id, amount, stock);
    if once.outcome == Done {
      var k := FindIndex(cart, id);
      FindIndexAfterReplace(cart, k, cart[k].(amount := amount), id);
    }
  }

  /** In a well-formed cart, a successful remove leaves no entry for `id` and
      every other identifier with the amount it had. */
  lemma RemoveDropsOnlyId(cart: seq<Item>, id: int)
    requires WellFormed(cart)
    requires RemoveStep(cart, id).outcome == Done
    ensures var after := RemoveStep(cart, id).cart;
      !Contains(after, id) &&
      forall x :: x != id ==> AmountOf(after, x) == AmountOf(cart, x)
  {
    var after := RemoveStep(cart, id).cart;
    var k := FindIndex(cart, id);
    assert after == RemoveAt(cart, k);
    forall x | x != id
      ensures AmountOf(after, x) == AmountOf(cart, x)
    {
      var m := FindIndex(cart, x);
      if m >= 0 {
        if m < k {
          FindIndexIsFirst(after, x, m);
        } else {
          assert after[m - 1] == cart[m];
          FindIndexIsFirst(after, x, m - 1);
        }
      }
    }
  }

  /** Removing an item that was just added for the first time restores the cart. */
  lemma RemoveUndoesFirstAdd(cart: seq<Item>, id: int, stock: Option<int>, record: Option<string>)
    requires !Contains(cart, id)
    requires AddStep(cart, id, stock, record).outcome == Done
    ensures RemoveStep(AddStep(cart, id, stock, record).cart, id) == Step(cart, Done)
  {
    var item := Item(id, 1, record.value);
    FindIndexAfterAppend(cart, item, id);
    assert RemoveAt(cart + [item], |cart|) == cart;
  }

  /** The cart after `addProduct` is called, in order, once for every element of
      `ids`, with stock and catalog answers taken from `stock` and `records`
      (a missing key stands for a failed lookup). */
  function AddAll(cart: seq<Item>, ids: seq<int>, stock: map<int, int>, records: map<int, string>): seq<Item>
  {
    if ids == [] then cart
    else
      var last := ids[|ids| - 1];
      var before := AddAll(cart, ids[..|ids| - 1], stock, records);
      AddStep(before, last,
              if last in stock then Some(stock[last]) else None,
              if last in records then Some(records[last]) else None).cart
  }

  /** Starting from the empty cart, adding each of `ids` with enough stock gives
      exactly one well-formed entry per distinct identifier, whose amount is the
      number of times that identifier was added. */
  lemma {:induction false} AddAllCounts(ids: seq<int>, stock: map<int, int>, records: map<int, string>)
    requires forall x :: x in ids ==> x in stock && x in records && multiset(ids)[x] <= stock[x]
    ensures var c := AddAll([], ids, stock, records);
      WellFormed(c) &&
      (forall x :: Contains(c, x) <==> x in ids) &&
      (forall x :: AmountOf(c, x) == multiset(ids)[x])
  {
    if ids != [] {
      var last := ids[|ids| - 1];
      var prefix := ids[..|ids| - 1];
      assert ids == prefix + [last];
      assert multiset(ids) == multiset(prefix) + multiset{last};
      AddAllCounts(prefix, stock, records);
      var before := AddAll([], prefix, stock, records);
      var step := AddStep(before, last, Some(stock[last]), Some(records[last]));
      assert step.outcome == Done;
      AddIncrementsAmount(before, last, Some(stock[last]), Some(records[last]));
    }
  }
}
