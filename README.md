# Cart store of the RocketShoes storefront

A model of the shopping-cart store in `src/hooks/useCart.tsx`. The store holds
the ordered list of cart items (`cart`) and a copy of it kept under the storage
key `@RocketShoes:cart` (`stored`). Three operations change it:

- `addProduct` checks the stock, then raises the amount of the item already in
  the cart by one, or appends the product with amount 1;
- `removeProduct` deletes the entry with the given identifier;
- `updateProductAmount` silently ignores a non-positive amount, otherwise checks
  the stock and sets the item's amount to exactly the requested value.

Each operation either succeeds, replacing the cart and writing it through to
storage, or fails with out-of-stock, not-found or a failed lookup, and then
changes nothing.

Files:

- `Wrappers.dfy`: `Option`.
- `CartItems.dfy`: the values (`Item`, `Outcome`, `Step`), the lookup used by
  `find`/`findIndex`, the invariant `WellFormed` (one entry per identifier,
  every amount at least 1), and each operation as a transition function on the
  item sequence (`AddStep`, `RemoveStep`, `UpdateStep`) whose contract spells
  out every branch of the source.
- `CartLaws.dfy`: properties relating transitions to each other and to the
  amount `addProduct` reads: increments, absolute set, idempotent update,
  remove undoing a first add, and the count law for a run of adds.
- `CartStore.dfy`: the class `Store` with the fields `cart` and `stored`. Its
  methods copy the cart, change the copy, and on success assign it to both
  fields. Each method is proved equal to its transition function. The
  invariant `Valid` says that reading `stored` back gives `cart`.

The stock and catalog requests become parameters: `stock: Option<int>` is the
stock amount the service reports, and `record: Option<string>` is the
product's display data from the catalog. `None` stands for a failed request.
The toasts become the returned `Outcome`. The model keeps `NotFound` and
`LookupFailed` apart even where the source shows one message for both
(`updateProductAmount`).

The operations do not require the cart to be well formed, because the initial
cart is whatever storage holds. Like `find` and `findIndex`, they act on the
first entry with the identifier. Each one keeps `WellFormed` when it held before.

## Model

| member | source | states |
|---|---|---|
| `CartItems.FindIndex` | src/hooks/useCart.tsx:38-93 | the index picked by `find` (lines 38 and 93) and `findIndex` (line 68): the first entry with the identifier, or -1 exactly when no entry has it |
| `CartItems.AmountOf` | src/hooks/useCart.tsx:41 | the current amount `addProduct` reads: the amount of the first entry with the id, or 0 when no entry has it |
| `CartItems.RemoveAt` | src/hooks/useCart.tsx:71 | `splice(k, 1)` drops exactly position k: one shorter, earlier entries in place, later ones shifted down by one |
| `CartItems.AddStep` | src/hooks/useCart.tsx:35-63 | failed stock lookup gives LookupFailed; (current amount or 0) + 1 above stock gives OutOfStock; with enough stock a present id has its first entry raised by 1 in place and nothing else changes, whatever the catalog answers; an absent id gets `Item(id, 1, record)` appended, or LookupFailed if the catalog fails; every failure leaves the cart as it was; WellFormed is kept |
| `CartItems.RemoveStep` | src/hooks/useCart.tsx:65-79 | succeeds exactly when the id is present, removing its first entry and keeping the others in order, one shorter; otherwise NotFound with the cart unchanged; WellFormed is kept |
| `CartItems.UpdateStep` | src/hooks/useCart.tsx:81-116 | amount <= 0 gives Ignored with no change, whatever the stock; then a failed lookup gives LookupFailed; amount above stock gives OutOfStock even for an absent id; an absent id gives NotFound; success happens exactly when 0 < amount <= stock and the id is present, and then the first entry's amount is set to exactly `amount`, nothing else changed; WellFormed is kept |
| `CartLaws.AddIncrementsAmount` | src/hooks/useCart.tsx:41-53 | after a successful add, the amount read for the id is the old one plus 1 and within the reported stock; every other id's amount is unchanged |
| `CartLaws.UpdateSetsAmount` | src/hooks/useCart.tsx:95-102 | after a successful update, the amount read for the id is exactly the requested one (set, not added) and within stock; every other id's amount is unchanged |
| `CartLaws.UpdateIdempotent` | src/hooks/useCart.tsx:86-110 | repeating an update with the same request and the same stock answer gives the same cart and outcome |
| `CartLaws.RemoveDropsOnlyId` | src/hooks/useCart.tsx:68-73 | in a well-formed cart, a successful remove leaves no entry for the id and every other id with its old amount |
| `CartLaws.RemoveUndoesFirstAdd` | src/hooks/useCart.tsx:50-71 | removing an id right after its first successful add gives back the original cart |
| `CartLaws.AddAllCounts` | src/hooks/useCart.tsx:35-63 | from an empty cart, a run of adds with enough stock gives a well-formed cart with an entry for exactly the ids added, each with amount equal to its number of adds |
| `CartStore.Store.constructor` | src/hooks/useCart.tsx:25-33 | the cart starts as `Load` of the stored copy (the stored sequence, or empty when nothing is stored), so `Valid` holds: reading storage back gives the cart |
| `CartStore.Store.AddProduct` | src/hooks/useCart.tsx:35-63 | the new cart and outcome are those of `AddStep`; on success the stored copy equals the new cart; on any failure cart and stored copy are as before; WellFormed and Valid are kept |
| `CartStore.Store.RemoveProduct` | src/hooks/useCart.tsx:65-79 | the new cart and outcome are those of `RemoveStep`; write-through on success, no change on NotFound; WellFormed and Valid are kept |
| `CartStore.Store.UpdateProductAmount` | src/hooks/useCart.tsx:81-116 | the new cart and outcome are those of `UpdateStep`; write-through on success, no change on Ignored and on every failure; WellFormed and Valid are kept |

## Left out

- The React context, provider, `useCart` hook and `useState` (lines 1-33, 118-131): UI framework glue. Only the initial load of lines 25-33 is modelled, as the constructor.
- The JSON encoding of the stored cart and `localStorage` itself: `stored` holds the item sequence directly. A `setItem` failure and a `JSON.parse` failure at start-up are not modelled.
- The `/stock/` and `/products/` requests are not modelled: their answers are parameters. A malformed stock response is not modelled either; in JavaScript a missing `amount` compares false and would let the operation go ahead.
- The catalog answer is taken to describe the requested product. The appended item gets the requested id, while the source copies the id from the catalog record.
- Toast messages: replaced by the returned `Outcome`.
- Interleaving of the asynchronous operations: calls are taken to run one at a time.
- Product display fields: one opaque `details` string.
- JavaScript numbers are modelled as unbounded integers, so fractional amounts, NaN and precision loss are not modelled.
- Shallow-copy aliasing: `[...cart]` copies only the array, so lines 49 and 102 also change the item object the old state refers to. The old state is replaced at once, so the model treats this as a value update at an index.
