# Cart store and pricing utilities

A Dafny model of the two pieces of logic in a small storefront front end:

- **The cart store** (`src/context/cart/index.tsx`): a state container holding an
  ordered sequence of line items (a product plus a `quantity`). It starts empty and
  has four transitions, each of which overwrites the whole sequence with a new one
  computed from the old: `addItem` appends, `removeItem` keeps only entries whose id
  differs from the given product's, `changeQuantity` replaces every entry with the
  given item's id by that item, and `clear` empties the cart. Duplicate ids are
  allowed, unknown ids are silent no-ops and no transition fails.
  Module `Cart` (`cart.dfy`) gives the three sequence computations as functions
  (`WithoutId`, `ReplaceById`, and `WithId` for the test's selection by id) and the
  class `CartStore`, whose `items` field each method reassigns, with postconditions
  stated against those functions. The lemmas relate the functions: order
  preservation, multiplicities, idempotence, no-op cases, and how transitions compose.
- **The pricing utilities** (`src/utils/index.ts`): `isNumber` (a number that is not
  NaN), `calculateTotalPrice` (a `reduce` that adds `price * quantity` for every
  element that is truthy and has a numeric price and a numeric quantity, and returns
  0 for a non-array) and `calculateTotalPriceWithDiscount` (clamps the discount into
  [0, 100], a non-number or NaN discount counting as 0, and scales the total by
  `1 - d/100`). Module `Pricing` (`pricing.dfy`) models dynamic values as
  `Num(Finite(r)) | Num(NaN) | NonNumber`, list elements as `NotRecord | Record(price,
  quantity)` and the argument as `NotArray | Arr(elements)`. The reduce is modelled
  literally as a left fold (`Reduce` with callback `Step`) and proved equal to an
  independent sum (`Sum`); the discount clamp is specified as the point of [0, 100]
  nearest to the requested discount.
- Module `CartPricing` (`cart_pricing.dfy`) reads a cart snapshot as pricing input
  (every entry a record with numeric price and quantity) and proves how each cart
  transition moves the total.

Numbers are exact `real`s, so `price * quantity` and `/ 100` carry no rounding.

The code and its unit tests disagree on one point. The code
(`src/utils/index.ts:19`) skips an element whose quantity is not a number; it never
defaults the quantity to 1. Several tests in `src/utils/index.test.ts` use products
with no `quantity` field and expect results as if each quantity were 1:

- the four-product fixture at lines 6-11: line 32 expects a total of 10000, and the
  discount tests on it (lines 59, 62, 71 and 85-88) expect 10000 and 9000;
- a single product priced 42: line 36 expects 42;
- a single product priced -10: line 40 expects -10 (this is the test about negative
  prices being summed);
- a single product priced 100 with a 50% discount: line 75 expects 50;
- a single product priced -100 with a 10% discount: line 79 expects -90.

The model follows the code: under it all of these give 0, as
`Pricing.NoQuantitiesTotalZero`, `Pricing.FixtureWithoutQuantities` and
`Pricing.SingleProductsWithoutQuantities` state. That negative prices are summed
without clamping is stated for priced elements by `Pricing.SinglePriced`.

## Model

| member | source | states |
|---|---|---|
| `Cart.WithoutId` | src/context/cart/index.tsx:31-33 | the filtered cart is no longer than the old one, no entry carries the removed id, and every entry comes from the old cart |
| `Cart.WithId` | src/context/cart/cart.context.test.tsx:141 | the selection by id holds only entries with that id, all taken from the cart |
| `Cart.ReplaceById` | src/context/cart/index.tsx:23-25 | length is preserved; each position with the item's id becomes exactly the item, every other position is unchanged |
| `Cart.WithoutIdConcat` | src/context/cart/index.tsx:32 | removal distributes over concatenation, so survivors keep their relative order |
| `Cart.WithoutIdCounts` | src/context/cart/index.tsx:32 | after removal an entry with the id occurs 0 times and every other entry occurs exactly as often as before |
| `Cart.WithoutIdIdentity` | src/context/cart/index.tsx:32 | removal leaves the cart equal to the old one if and only if no entry carries the id |
| `Cart.WithoutIdNoMatch` | src/context/cart/index.tsx:32 | removing an id no entry carries is the identity |
| `Cart.WithoutIdIdempotent` | src/context/cart/index.tsx:31-33 | removing an id twice equals removing it once |
| `Cart.PartitionById` | src/context/cart/index.tsx:32 | the entries with an id and those without it partition the cart, in count and as a multiset |
| `Cart.WithIdConcat` | src/context/cart/index.tsx:28 | selection by id distributes over concatenation |
| `Cart.AppendNeverMerges` | src/context/cart/index.tsx:27-29 | appending two items with the same id leaves both as separate entries, in call order |
| `Cart.RemoveAfterAppend` | src/context/cart/index.tsx:27-33 | removing an id right after appending an item with that id gives the same cart as removing it before the append |
| `Cart.ReplaceByIdIdentity` | src/context/cart/index.tsx:23-25 | replacement leaves the cart equal to the old one if and only if every entry with the id already equals the item |
| `Cart.ReplaceUnknownId` | src/context/cart/index.tsx:24 | replacing by an id no entry carries leaves the cart unchanged |
| `Cart.ReplaceByIdIdempotent` | src/context/cart/index.tsx:23-25 | replacing twice with the same item equals replacing once |
| `Cart.RemoveAfterReplace` | src/context/cart/index.tsx:23-33 | changing the entries of an id and then removing that id equals removing it directly |
| `Cart.CartStore.constructor` | src/context/cart/index.tsx:20 | a new store holds no items |
| `Cart.CartStore.AddItem` | src/context/cart/index.tsx:27-29 | the new items are the old items followed by the added item: one longer, old entries in place, new item last |
| `Cart.CartStore.RemoveItem` | src/context/cart/index.tsx:31-33 | the new items are the old items without the product's id; none carries that id |
| `Cart.CartStore.ChangeQuantity` | src/context/cart/index.tsx:23-25 | the new items are the old ones with every entry of the item's id replaced by the item, all other entries unchanged |
| `Cart.CartStore.Clear` | src/context/cart/index.tsx:35-37 | the items are empty afterwards, from any state |
| `Pricing.IsNumber` | src/utils/index.ts:5-7 | holds exactly of values that are neither a non-number nor NaN |
| `Pricing.Sum` | src/utils/index.ts:18-24 | reference sum of `price * quantity` over priced elements; 0 when no element is priced |
| `Pricing.TotalPrice` | src/utils/index.ts:14-25 | a non-array totals 0; an array totals the reference sum of its priced elements |
| `Pricing.SafeDiscount` | src/utils/index.ts:34-40 | the applied discount lies in [0, 100], is 0 for a non-number or NaN, and is the point of [0, 100] nearest to a numeric discount |
| `Pricing.TotalPriceWithDiscount` | src/utils/index.ts:27-43 | a non-array gives 0; a non-negative total is never increased nor made negative; a non-positive total moves towards 0 without crossing it |
| `Pricing.SumConcat` | src/utils/index.ts:18-24 | the reference sum of a concatenation is the sum of the parts |
| `Pricing.ReduceIsSum` | src/utils/index.ts:18-24 | the reduce from accumulator `acc` returns `acc` plus the reference sum |
| `Pricing.EmptyTotal` | src/utils/index.ts:18-24 | the empty array totals 0 |
| `Pricing.TotalAdditive` | src/utils/index.ts:18-24 | the total of a concatenation is the sum of the totals |
| `Pricing.SinglePriced` | src/utils/index.ts:23 | one priced element totals its price times its quantity, negative prices included |
| `Pricing.UnpricedSkipped` | src/utils/index.ts:19-21 | an element that is not a record or lacks a numeric price or quantity is skipped and the summation carries on |
| `Pricing.NoQuantitiesTotalZero` | src/utils/index.ts:19 | a list whose records all lack a numeric quantity totals 0: the quantity is never defaulted |
| `Pricing.FixtureWithoutQuantities` | src/utils/index.test.ts:6-11 | the unit test's four-product fixture totals 0 under the code, not the 10000 the test expects |
| `Pricing.SingleProductsWithoutQuantities` | src/utils/index.test.ts:34-79 | the single products of the unit tests, with no quantity, total 0 and discount to 0 under the code, not 42, -10, 50 or -90 |
| `Pricing.SafeDiscountCases` | src/utils/index.ts:34-40 | a discount below 0 becomes 0, above 100 becomes 100, and within [0, 100] is kept |
| `Pricing.FullDiscount` | src/utils/index.ts:34-42 | any discount of 100 or more gives 0 |
| `Pricing.NoDiscount` | src/utils/index.ts:34-42 | a discount of 0 or less, NaN or a non-number gives exactly the undiscounted total |
| `Pricing.PartialDiscount` | src/utils/index.ts:41-42 | a discount d in [0, 100] gives the total minus d percent of it |
| `Pricing.DiscountAdditive` | src/utils/index.ts:27-43 | the discounted total of a concatenation is the sum of the discounted totals |
| `CartPricing.AsElement` | src/utils/index.ts:19-23 | a cart entry is a priced element contributing its price times its quantity |
| `CartPricing.CartTotal` | src/utils/index.ts:14-25 | the empty cart totals 0 |
| `CartPricing.TotalCons` | src/utils/index.ts:18-24 | a cart's total is its first entry's contribution (its price times its quantity) plus the total of the rest |
| `CartPricing.TotalAfterAdd` | src/context/cart/index.tsx:27-29 | adding an item raises the total by exactly its price times its quantity |
| `CartPricing.TotalAfterRemove` | src/context/cart/index.tsx:31-33 | removing an id lowers the total by exactly the total of the entries carrying that id |
| `CartPricing.TotalAfterChange` | src/context/cart/index.tsx:23-25 | after a change the total is that of the other entries plus that of as many copies of the new item as there were matching entries |

## Left out

- `formatPrice` (src/utils/index.ts:9-12): it delegates to the platform's locale-aware currency formatting, which is not part of this model; only its use of `isNumber` as a fallback to 0 is shared with the modelled code.
- IEEE-754 behaviour: prices, quantities and discounts are exact reals, so rounding in `price * quantity` and `1 - d/100` is not modelled; NaN is a separate tag that the guard rejects, and infinities are not modelled.
- JavaScript truthiness is collapsed: every element that is falsy or has no fields (null, undefined, a primitive) is `NotRecord`, and every missing or non-numeric field is `NonNumber`; the code treats all of these alike.
- The React wiring: the context's default value, the provider component and re-render and notification timing (src/context/cart/index.tsx:5-17, 39-43). The store's transitions are modelled as synchronous updates of one object.
- Object-reference identity: values are compared structurally, so "the untouched entry is the same object" is captured only as value equality.
- `LineItem.quantity` and `LineItem.price` are reals: the source's `number` may also be NaN or an infinity, which a cart entry in the model cannot hold. The cart never validates either field, and neither does the model.
- `CartPricing.AsElement`: holds only for cart entries with a finite price and quantity. A source entry with a NaN price or quantity would be skipped by the total, and an infinite one could make the total NaN; neither is modelled, so `CartPricing.TotalAfterAdd`, `TotalAfterRemove` and `TotalAfterChange` are about finite entries only.
- `CartPricing.TotalAfterChange`: states the matching entries' new contribution as the total of copies of the item rather than as a count times the item's price times quantity, to keep the proof within linear arithmetic.
