# Store inventory domain, modelled in Dafny

This project models the domain core of a small command-line store/checkout
program. The core has three parts:

- **`Products`** (`product.dfy`) models one catalogue entry. A `Product` is a
  class with mutable fields `name`, `price`, `quantity` and `active`. It can be
  constructed (with validation), restocked with `SetQuantity`, toggled with
  `Activate`/`Deactivate`, and bought from with `Buy`. What a purchase does is
  given once, by the pure function `Purchase` on a `ProductState` value
  (price, stock, active flag). `Buy` is proved to do exactly that to the object.
  A stock level is `Finite(n)` or `Unlimited`. `Unlimited` is the
  floating-point infinity that `set_quantity` accepts: it never runs down, and
  the store's stock total skips it.
- **`Stores`** (`store.dfy`) models a `Store`: a class holding an ordered
  sequence of products. It can add one product or a list, remove the first
  occurrence of a product, and answer queries: the active products, the stock
  total, membership, and the comma-joined names. It also builds a combined
  store (`Plus`, Python's `+`). `Order` buys a list of `(product, quantity)`
  lines in turn and sums the charges. The lines may name the same product
  more than once. `Order` is proved against the pure function `Checkout`,
  which threads a map from products to their states through the lines.
  `Checkout` is not transactional. Once a line fails, the order ends with that
  failure, and the states the earlier lines left stay as they are.
- **`Promotions`** (`promotion.dfy`) models the three pricing formulas as pure
  functions on a unit price (`real`) and a quantity: second unit half price,
  every third unit free, and a percentage off. Each formula is proved equal to
  an independent unit-by-unit reference sum (`ByUnits`). From that, every
  promotion's total is proved to lie in `[0, price * quantity]`.
- **`Outcomes`** (`outcomes.dfy`) holds the error kinds and the
  `Result`/`Option` wrappers. Every raised exception of the source becomes an
  `Err` value.

Prices are exact `real`s and quantities are integers.

Behaviour of the code that the model keeps, even where one might expect otherwise:

- A product constructed with zero stock starts **active**
  (`product.py:29`). It becomes inactive only through `deactivate()`,
  `set_quantity(0)`, or a `buy` that takes the last units. A product with zero
  stock cannot be bought from, because any positive quantity exceeds its stock
  (`product.py:134-135`), so `buy` never deactivates it.
- For an empty store, `__str__` returns `None` rather than a string
  (`store.py:169-170`), so Python's `str()` or `print` of an empty store
  raises a `TypeError`. `Describe` returns the method's own value, an
  `Option` that is `None` exactly for the empty store.
- `buy` charges plain `price * quantity` (`product.py:139`). No code attaches
  promotions to a product or chains them.
- A product may belong to several stores at once. `__add__` shares the same
  product objects (`store.py:152-155`).
- There are no non-stocked or purchase-limited product variants in the code.
  The only trace of an unlimited stock is the infinity filter at
  `store.py:85`.

## Model

| member | source | states |
|---|---|---|
| Products.Validate | product.py:17-23 | Construction is refused exactly when the name is empty, the price is negative or the quantity is negative. The checks run in that order, and the first one that fails is reported. |
| Products.Product.constructor | product.py:26-29 | A new product holds exactly the given name, price and quantity. It starts active, even with zero stock. |
| Products.NewProduct | product.py:3-29 | `Product(...)` fails with the validation error, or returns a fresh, active product holding exactly its arguments. |
| Products.Product.SetQuantity | product.py:58-68 | A negative count is refused and changes nothing. Otherwise the stock becomes the given amount, and the product is active iff that amount is not zero. Name and price never change, so validity is kept. |
| Products.Product.Activate | product.py:86-88 | Always ends active, whatever the flag was, so a second call changes nothing. Stock, name and price are untouched, so validity is kept. |
| Products.Product.Deactivate | product.py:97-99 | Always ends inactive, whatever the flag was, so a second call changes nothing. Stock, name and price are untouched, so validity is kept. |
| Products.Purchase | product.py:128-146 | Failures come in a fixed precedence: inactive, then quantity <= 0, then quantity above a finite stock. A failed purchase changes nothing. A purchase succeeds exactly when the product is active and `0 < q` is within a finite stock (or the stock is unlimited). A successful one charges `price * q`, which is non-negative for a non-negative price, and takes `q` units from a finite stock, which never goes negative. Afterwards the product is inactive iff that stock reached zero. An unlimited stock is never depleted. |
| Products.Product.Buy | product.py:114-146 | The method's outcome and the object's new state are exactly those of `Purchase` on its old state. The name never changes, validity (non-empty name, non-negative price) is kept, and a valid product's successful buy returns a non-negative total. |
| Products.PurchaseSplit | product.py:134-144 | Buying `a` units and then `b` units succeeds iff buying `a + b` units at once does. Both then end in the same state, and the two charges add up to the single charge. |
| Stores.RemoveFirst | store.py:69 | Removes exactly the first occurrence: the length drops by one, and the elements before and after that position keep their order. |
| Stores.StockSum | store.py:85 | `Stores.Store.TotalQuantity` is this sum over the store's products. The total skips unlimited stock. It is zero iff every product has zero or unlimited stock, and it bounds every single finite stock. Inactive products count too. |
| Stores.StockSumAppend | store.py:85 | The stock total of a concatenation is the sum of the two totals. |
| Stores.ActiveOnly | store.py:100 | `Stores.Store.AllProducts` is this filter over the store's products. It holds exactly the active products: every element is an active product of the input, and every active product of the input is in it. A store whose products are all active is returned unchanged. |
| Stores.ActiveOnlyAppend | store.py:100 | The filter distributes over concatenation, so it keeps insertion order. |
| Stores.Join | store.py:169 | Joining a single name gives that name. |
| Stores.JoinAppend | store.py:169 | Joining two non-empty lists equals joining each and putting one ", " between them. |
| Stores.Store.Describe | store.py:169-170 | `None` iff the store is empty. A one-product store is described by that product's name. |
| Stores.Store.Contains | store.py:138 | Membership by identity in the store's sequence. What it means across operations is stated by Stores.Store.AddProduct, Stores.Store.RemoveProduct, Stores.RemoveFirstMembership and Stores.CombinedQueries. |
| Stores.RemoveFirstMembership | store.py:69 | After the first occurrence of `x` is removed, an element is still present iff it was present and is not `x`, or it is `x` and occurred more than once. |
| Stores.Store.AddProduct | store.py:45-50 | One product is appended at the end. A list extends the sequence in order (an empty list changes nothing). Anything else is refused and changes nothing. After adding one product, the store contains it. |
| Stores.Store.RemoveProduct | store.py:68-69 | Succeeds iff the product is in the store, and then removes its first occurrence. An absent product is refused and changes nothing. After a successful removal, the store still contains the product iff it occurred more than once. |
| Stores.NewStore | store.py:8-26 | A new store holds the single product as a singleton, or the list in the same order. Any other argument is refused. |
| Stores.Store.Plus | store.py:152-155 | A fresh store whose sequence is the left operand's products followed by the right's. Neither operand changes. |
| Stores.CombinedQueries | store.py:85-170 | For a combined store, the stock totals add, the active products are the left's then the right's, the description is the two descriptions joined by ", ", and a product is in it iff it is in either operand. |
| Stores.Checkout | store.py:118-123 | The order semantics on product states: lines are bought in turn, and the first failing line ends the order with no rollback. Its contract states that the products with a state stay the same; what it computes is stated by Stores.Store.Order, Stores.CheckoutSucceeded and Stores.CheckoutFailed. |
| Stores.Store.Order | store.py:103-123 | Buying the lines one by one on the real objects gives the outcome of `Checkout` and leaves exactly the product states that `Checkout` computes. This holds even when lines share a product. No product's name changes. |
| Stores.CheckoutSucceeded | store.py:118-123 | On success, every line had a positive quantity, and the total is the sum of `price * q` over the lines. Each product loses exactly the units its lines ask for in all. A product that is on no line is unchanged. |
| Stores.CheckoutFailed | store.py:120-122 | On failure there is a line k. The lines before k all succeeded, and the state they left is the final state. Line k's purchase from that state gives the failure. Lines after k are never applied. |
| Promotions.NewPercentDiscount | promotion.py:118-121 | Fails iff the percentage is below 0 or above 100. Otherwise it returns a discount that stores exactly that percentage. The percentage defaults to 0. |
| Promotions.SecondHalfPriceTotal | promotion.py:62-71 | For an even quantity, the total is `0.75 * price * quantity`. |
| Promotions.ThirdOneFreeTotal | promotion.py:91-96 | Fewer than three units pay full price. |
| Promotions.PercentDiscountTotal | promotion.py:134-137 | 0% charges `price * quantity`, and 100% charges nothing. |
| Promotions.ApplyTo | promotion.py:22-33 | Applying a promotion to a product reads only the product's price (its reads frame is that one field), and it changes nothing. For a valid promotion, a non-negative price and a non-negative quantity, the total lies in `[0, price * quantity]`. |
| Promotions.SecondHalfPriceByUnits | promotion.py:62-71 | The closed form equals charging odd-numbered units full price and even-numbered units half price. |
| Promotions.ThirdOneFreeByUnits | promotion.py:91-96 | The closed form equals charging every unit except each third one, which is free. |
| Promotions.PercentDiscountByUnits | promotion.py:134-137 | The closed form equals charging every unit the discounted unit price. |
| Promotions.ApplyByUnits | promotion.py:50-137 | For every promotion kind, the total equals the sum of its per-unit charges. |
| Promotions.ApplyBounded | promotion.py:50-137 | For a non-negative price and quantity, every valid promotion charges between 0 and `price * quantity`. |
| Promotions.WorkedExamples | promotion.py:62-137 | Second-half-price on 3 units at 20 charges 50. Third-one-free on 3 units at 30 charges 60. A 50% discount on 2 units at 100 charges 100. A discount built without a percentage takes 0% off. |

## Left out

- The interactive menu, input parsing and printing (main.py) are left out: they are console input/output.
- Every `print` inside the domain methods is left out. The messages printed by `activate`/`deactivate` are swapped relative to what the methods do; only the flag change is modelled.
- `Product.__str__`, `Product.show` and `Promotion.__str__` are left out: they are text formatting of floats.
- Floating-point rounding is not modelled. Prices are exact reals and quantities are whole numbers. The `int()`/`float()` coercions of the constructor and of `set_quantity` are left out, and so are fractional quantities.
- `get_quantity` and `is_active` are plain reads of the `quantity` and `active` fields, so they have no separate members.
- The type checks are not modelled as such. The argument of `add_product` is a `Single`, `Batch` or `Other` value, and `Other` stands for every non-product argument, including a list holding a non-product. The wrong-type branch of `remove_product` (store.py:70-71) cannot occur in a typed model.
- The tuple check in `order` (store.py:119) always holds for a sequence of pairs, and the unreachable `else` in `buy` (product.py:147-148) has no counterpart.
- Exception messages are not modelled. Each exception becomes an `Error` constructor.
- Non-stocked and purchase-limited products are left out: they are imported by main.py but defined nowhere. Attaching promotions to products and chaining promotions are left out for the same reason.
- A `Product` whose quantity is infinity is reached only through `SetQuantity(Infinity)`. Constructing one with an infinite quantity is a different error in the source (`int` of infinity), and it is not modelled.
- Negative quantities reach the promotion formulas as they reach the source's (floor division and remainder by a positive constant). The unit-by-unit and bound properties are stated only for quantities >= 0, the quantities a purchase can have.
