/** The values of the cart store: cart items, the outcome of an operation, and
    the three cart transitions (add, remove, set amount) as functions on the
    ordered item sequence. */
module CartItems {
  import opened Wrappers

  /** One cart entry. `details` stands for the product's display fields (title,
      price, image), which the cart passes through unchanged. */
  datatype Item = Item(id: int, amount: int, details: string)

  /** What an operation reports instead of a toast. `Done` is the only success;
      `Ignored` is the silent no-op of a non-positive amount update. */
  datatype Outcome = Done | Ignored | OutOfStock | NotFound | LookupFailed

  /** The cart an operation leaves behind, with its outcome. */
  datatype Step = Step(cart: seq<Item>, outcome: Outcome)

  /** Some entry of `cart` has identifier `id`. */
  predicate Contains(cart: seq<Item>, id: int)
  {
    exists k :: 0 <= k < |cart| && cart[k].id == id
  }

  /** `k` is the first position of `cart` holding identifier `id`. */
  predicate IsFirst(cart: seq<Item>, id: int, k: int)
  {
    0 <= k < |cart| && cart[k].id == id && forall j :: 0 <= j < k ==> cart[j].id != id
  }

  /** At most one entry per identifier. */
  predicate UniqueIds(cart: seq<Item>)
  {
    forall i, j :: 0 <= i < j < |cart| ==> cart[i].id != cart[j].id
  }

  /** Every entry holds at least one unit. */
  predicate PositiveAmounts(cart: seq<Item>)
  {
    forall i :: 0 <= i < |cart| ==> cart[i].amount >= 1
  }

  /** The invariant the three operations keep. */
  predicate WellFormed(cart: seq<Item>)
  {
    UniqueIds(cart) && PositiveAmounts(cart)
  }

  /** The position `find`/`findIndex` picks for `id`: the first entry with that
      identifier, or -1 when there is none. */
  function FindIndex(cart: seq<Item>, id: int): (r: int)
    ensures -1 <= r < |cart|
    ensures 0 <= r ==> IsFirst(cart, id, r)
    ensures r < 0 ==> forall j :: 0 <= j < |cart| ==> cart[j].id != id
  {
    if cart == [] then -1
    else if cart[0].id == id then 0
    else
      var k := FindIndex(cart[1..], id);
      if k < 0 then -1 else k + 1
  }

  /** The amount of the entry `find` picks for `id`, or 0 when there is none. */
  function AmountOf(cart: seq<Item>, id: int): (r: int)
    ensures !Contains(cart, id) ==> r == 0
    ensures forall k :: IsFirst(cart, id, k) ==> r == cart[k].amount
  {
    var k := FindIndex(cart, id);
    if k < 0 then 0 else cart[k].amount
  }

  /** `splice(k, 1)`: the sequence without its entry at `k`. */
  function RemoveAt(cart: seq<Item>, k: int): (r: seq<Item>)
    requires 0 <= k < |cart|
    ensures |r| == |cart| - 1
    ensures forall j :: 0 <= j < k ==> r[j] == cart[j]
    ensures forall j :: k <= j < |r| ==> r[j] == cart[j + 1]
  {
    cart[..k] + cart[k + 1..]
  }

  /** The cart as read back from storage: the stored sequence, or the empty cart
      when nothing is stored. */
  function Load(stored: Option<seq<Item>>): seq<Item>
  {
    if stored.Some? then stored.value else []
  }

  /** `addProduct(id)` with the stock lookup answering `stock` and the catalog
      lookup answering `record` (None stands for a failed lookup). */
  function AddStep(cart: seq<Item>, id: int, stock: Option<int>, record: Option<string>): (r: Step)
    ensures r.outcome == Done || r.outcome == OutOfStock || r.outcome == LookupFailed
    ensures r.outcome != Done ==> r.cart == cart
    ensures stock.None? ==> r.outcome == LookupFailed
    ensures stock.Some? && stock.value < AmountOf(cart, id) + 1 ==> r.outcome == OutOfStock
    ensures stock.Some? && stock.value >= AmountOf(cart, id) + 1 && Contains(cart, id) ==>
      r.outcome == Done &&
      exists k :: IsFirst(cart, id, k) && r.cart == cart[k := cart[k].(amount := cart[k].amount + 1)]
    ensures stock.Some? && stock.value >= 1 && !Contains(cart, id) ==>
      if record.None? then r.outcome == LookupFailed
      else r.outcome == Done && r.cart == cart + [Item(id, 1, record.value)]
    ensures WellFormed(cart) ==> WellFormed(r.cart)
  {
    var k := FindIndex(cart, id);
    if stock.None? then Step(cart, LookupFailed)
    else
      var amount := (if k >= 0 then cart[k].amount else 0) + 1;
      if stock.value < amount then Step(cart, OutOfStock)
      else if k >= 0 then Step(cart[k := cart[k].(amount := amount)], Done)
      else if record.None? then Step(cart, LookupFailed)
      else Step(cart + [Item(id, 1, record.value)], Done)
  }

  /** `removeProduct(id)`. */
  function RemoveStep(cart: seq<Item>, id: int): (r: Step)
    ensures r.outcome == Done || r.outcome == NotFound
    ensures r.outcome == Done <==> Contains(cart, id)
    ensures r.outcome == NotFound ==> r.cart == cart
    ensures r.outcome == Done ==>
      |r.cart| == |cart| - 1 &&
      exists k :: IsFirst(cart, id, k) && r.cart == cart[..k] + cart[k + 1..]
    ensures WellFormed(cart) ==> WellFormed(r.cart)
  {
    var k := FindIndex(cart, id);
    if k >= 0 then Step(RemoveAt(cart, k), Done) else Step(cart, NotFound)
  }

  /** `updateProductAmount({productId: id, amount})` with the stock lookup
      answering `stock` (None stands for a failed lookup). */
  function UpdateStep(cart: seq<Item>, id: int, amount: int, stock: Option<int>): (r: Step)
    ensures r.outcome != Done ==> r.cart == cart
    ensures amount <= 0 ==> r.outcome == Ignored
    ensures amount > 0 && stock.None? ==> r.outcome == LookupFailed
    ensures amount > 0 && stock.Some? && amount > stock.value ==> r.outcome == OutOfStock
    ensures 0 < amount && stock.Some? && amount <= stock.value && !Contains(cart, id) ==>
      r.outcome == NotFound
    ensures r.outcome == Done <==>
      0 < amount && stock.Some? && amount <= stock.value && Contains(cart, id)
    ensures r.outcome == Done ==>
      exists k :: IsFirst(cart, id, k) && r.cart == cart[k := cart[k].(amount := amount)]
    ensures WellFormed(cart) ==> WellFormed(r.cart)
  {
    if amount <= 0 then Step(cart, Ignored)
    else if stock.None? then Step(cart, LookupFailed)
    else
      var k := FindIndex(cart, id);
      if amount > stock.value then Step(cart, OutOfStock)
      else if k >= 0 then Step(cart[k := cart[k].(amount := amount)], Done)
      else Step(cart, NotFound)
  }
}
