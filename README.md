# E-commerce entities: stock, pricing and order-line totals

A Dafny model of the behavioural core of an e-commerce backend's entity layer:

- **Product** (`product.dfy`, module `Products`): a class with the pricing
  fields (list price, optional discounted price) and stock fields (on-hand,
  reserved, reorder level), the constructor defaults (reserved 0, reorder
  level 5), plain setters that each change one field, and four queries:
  available stock, effective price, low stock and in stock.
- **OrderItem** (`order_item.dfy`, module `OrderItems`): a class whose
  quantity, unit-price, discount and tax setters recompute the total
  (`unitPrice * quantity - discount + tax`, a null discount or tax counting as
  zero), with `calculateTax`, `applyDiscount`, the pre-persist and pre-update
  hooks, and the `setTotalPrice` override. Its pricing fields are mirrored by
  the value `Line`; every operation is also a case of `Op`, and `Step`/`Run`
  give the effect of one operation and of a sequence of them. Each method of
  the class is proved to change its fields exactly as `Step` says, and the
  properties of the total are lemmas about `Line`, `Step` and `Run`.
- **CustomerTier** (`customer_tier.dfy`, module `CustomerTiers`): the closed
  enumeration Bronze, Silver, Gold, Platinum with display names and
  minimum-point thresholds.

Shared pieces: `wrappers.dfy` (`Option` for a Java reference that may be null;
`Result` for an expression that may throw `NullPointerException` when it
unboxes a null `Integer`) and `int32.dfy` (Java `int` and its wrapping
subtraction).

Modelling decisions:

- `BigDecimal` arithmetic in the source is exact and never rounded, so money is
  `real`. A worked cascade (3 units at 19.99, discount 5.00, tax at 7%) gives a
  tax of 3.8479 and a total of 58.8179, unrounded (`OrderItems.CascadeExample`).
  The `unit_price`, `total_price`, `discount_amount` and `tax_amount` columns
  declare scale 2 (`OrderItem.java:35-45`), but the code never rounds, so
  neither does the model.
- The Product stock fields are nullable `Integer`s. The queries unbox them, so
  a null operand throws; the model returns `NullPointer` there. The
  no-argument constructor leaves `stockQuantity` null, so its available stock
  is such an error until the quantity is set.
- `stockQuantity - reserverdQuantity` is 32-bit `int` subtraction and wraps on
  overflow (`Int32.Sub`); when both are non-negative, as validation demands, it
  is the exact difference, negative when more is reserved than is on hand.
- The field `reserverdQuantity` keeps the source's spelling.
- Clock readings (`System.currentTimeMillis()`, `LocalDateTime.now()`) are a
  `now: int` parameter of the constructors and update hooks.
- The pre-persist and pre-update hooks recompute the total, so a total set with
  `setTotalPrice` on a line that has a quantity and a unit price is replaced at
  the next save (`OrderItems.PrePersistAfterOverride`).

## Model

| member | source | states |
|---|---|---|
| `Int32.Sub` | src/main/java/com/ecommerce/api/ecommerce_api_manaagement/entity/Product.java:134-136 | Java `int` subtraction: the exact difference when it fits in 32 bits, otherwise the difference plus or minus 2^32, always congruent to it modulo 2^32 |
| `Int32.SubOfNonNegativeIsExact` | src/main/java/com/ecommerce/api/ecommerce_api_manaagement/entity/Product.java:58-69 | two non-negative quantities (what validation demands) never wrap when subtracted |
| `Products.Product.constructor` | src/main/java/com/ecommerce/api/ecommerce_api_manaagement/entity/Product.java:113-116 | a product built without arguments has every pricing and stock field null except reserved = 0 and reorder level = 5, and both timestamps equal to the clock reading |
| `Products.Product.Create` | src/main/java/com/ecommerce/api/ecommerce_api_manaagement/entity/Product.java:118-126 | the catalogue constructor stores its arguments over the defaults; with a stock quantity, available stock equals it, the product is low on stock iff it is at most 5 and in stock iff it is positive; the effective price is the list price |
| `Products.Product.PreUpdate` | src/main/java/com/ecommerce/api/ecommerce_api_manaagement/entity/Product.java:128-131 | the update hook writes only the update time |
| `Products.Product.AvailableStock` | src/main/java/com/ecommerce/api/ecommerce_api_manaagement/entity/Product.java:134-136 | defined iff both quantities are non-null; then on-hand minus reserved, not clamped, exact whenever the difference fits in an `int` and congruent to it modulo 2^32 otherwise |
| `Products.Product.EffectivePrice` | src/main/java/com/ecommerce/api/ecommerce_api_manaagement/entity/Product.java:138-140 | the discounted price when set, otherwise the list price; never compared with the list price; null only when both are |
| `Products.Product.IsLowStock` | src/main/java/com/ecommerce/api/ecommerce_api_manaagement/entity/Product.java:142-144 | defined iff available stock and the reorder level are; then true iff available stock is at most the reorder level |
| `Products.Product.IsInStock` | src/main/java/com/ecommerce/api/ecommerce_api_manaagement/entity/Product.java:146-148 | defined iff available stock is; then true iff available stock is positive |
| `Products.Product.SetPrice` | src/main/java/com/ecommerce/api/ecommerce_api_manaagement/entity/Product.java:187-189 | changes only the list price; without a discounted price it becomes the effective price |
| `Products.Product.SetDiscountedPrice` | src/main/java/com/ecommerce/api/ecommerce_api_manaagement/entity/Product.java:195-197 | changes only the discounted price; a non-null one becomes the effective price |
| `Products.Product.SetStockQuantity` | src/main/java/com/ecommerce/api/ecommerce_api_manaagement/entity/Product.java:203-205 | changes only the on-hand quantity |
| `Products.Product.SetReserverdQuantity` | src/main/java/com/ecommerce/api/ecommerce_api_manaagement/entity/Product.java:211-213 | changes only the reserved quantity; stock, prices and reorder level are untouched |
| `Products.Product.SetReorderLevel` | src/main/java/com/ecommerce/api/ecommerce_api_manaagement/entity/Product.java:219-221 | changes only the reorder level |
| `Products.AvailableStockExact` | src/main/java/com/ecommerce/api/ecommerce_api_manaagement/entity/Product.java:134-136 | with non-negative quantities, available stock is exactly on-hand minus reserved |
| `Products.OutOfStockIsLowStock` | src/main/java/com/ecommerce/api/ecommerce_api_manaagement/entity/Product.java:142-148 | with a non-negative reorder level, a product that is not in stock is low on stock |
| `Products.LowStockAndInStockAgree` | src/main/java/com/ecommerce/api/ecommerce_api_manaagement/entity/Product.java:142-148 | given a reorder level, the low-stock test throws iff the in-stock test does |
| `Products.OversoldIsOutOfStock` | src/main/java/com/ecommerce/api/ecommerce_api_manaagement/entity/Product.java:134-148 | more reserved than on hand gives negative available stock, and the product is not in stock |
| `OrderItems.Line.Subtotal` | src/main/java/com/ecommerce/api/ecommerce_api_manaagement/entity/OrderItem.java:99-104 | unit price times quantity when both are present, zero otherwise; what it guarantees to callers is in `PositiveSubtotalIsPriced` and `SubtotalMovesOnlyWithQuantityOrPrice` |
| `OrderItems.PositiveSubtotalIsPriced` | src/main/java/com/ecommerce/api/ecommerce_api_manaagement/entity/OrderItem.java:99-117 | a positive subtotal implies quantity and unit price are both present, so when the tax fires its recompute always takes effect and the invariant holds |
| `OrderItems.SubtotalMovesOnlyWithQuantityOrPrice` | src/main/java/com/ecommerce/api/ecommerce_api_manaagement/entity/OrderItem.java:99-170 | only the quantity and unit-price setters change the subtotal, to that of the line with the new operand; discounts, tax, the override and the hooks leave it |
| `OrderItems.Line.CalculateTotalPrice` | src/main/java/com/ecommerce/api/ecommerce_api_manaagement/entity/OrderItem.java:91-97 | with quantity and unit price present, the total becomes subtotal minus discount plus tax (null as zero) and the line satisfies the total invariant; otherwise nothing changes; no other field ever changes |
| `OrderItems.Line.CalculateTax` | src/main/java/com/ecommerce/api/ecommerce_api_manaagement/entity/OrderItem.java:111-117 | with a rate and a positive subtotal, the tax becomes (subtotal minus discount) times the rate and the total is recomputed, nothing else changing; otherwise the line is unchanged, a stale tax amount included |
| `OrderItems.Created` | src/main/java/com/ecommerce/api/ecommerce_api_manaagement/entity/OrderItem.java:71-77 | a line built from quantity and unit price has discount and tax 0 and, when both are present, total equal to unit price times quantity; otherwise no total |
| `OrderItems.Step` | src/main/java/com/ecommerce/api/ecommerce_api_manaagement/entity/OrderItem.java:85-170 | every recomputing operation leaves the invariant holding; every operation but the override keeps it; the override stores the given total and changes nothing else |
| `OrderItems.CalculateTotalPriceIdempotent` | src/main/java/com/ecommerce/api/ecommerce_api_manaagement/entity/OrderItem.java:91-97 | recomputing twice is recomputing once |
| `OrderItems.ConsistentIsFixpoint` | src/main/java/com/ecommerce/api/ecommerce_api_manaagement/entity/OrderItem.java:91-97 | a line satisfies the total invariant iff recomputing leaves it unchanged |
| `OrderItems.ApplyDiscountIsSetDiscountAmount` | src/main/java/com/ecommerce/api/ecommerce_api_manaagement/entity/OrderItem.java:106-109 | applying a discount has the same effect as setting the discount amount |
| `OrderItems.TaxedTotal` | src/main/java/com/ecommerce/api/ecommerce_api_manaagement/entity/OrderItem.java:111-117 | when the tax fires, the total is the discounted subtotal times one plus the rate |
| `OrderItems.OverrideCanBreakInvariant` | src/main/java/com/ecommerce/api/ecommerce_api_manaagement/entity/OrderItem.java:150-152 | the override bypasses the recompute: one unit at 2 overridden to a total of 0 breaks the invariant |
| `OrderItems.PrePersistAfterOverride` | src/main/java/com/ecommerce/api/ecommerce_api_manaagement/entity/OrderItem.java:85-88 | the pre-persist hook restores the invariant after an override, and on a priced line discards the override entirely |
| `OrderItems.RunPreservesConsistency` | src/main/java/com/ecommerce/api/ecommerce_api_manaagement/entity/OrderItem.java:132-170 | any sequence of operations without the override keeps the total invariant |
| `OrderItems.RunRestoresConsistency` | src/main/java/com/ecommerce/api/ecommerce_api_manaagement/entity/OrderItem.java:132-170 | whatever came before, the invariant holds after the last override is followed by a recomputing operation |
| `OrderItems.CascadeExample` | src/main/java/com/ecommerce/api/ecommerce_api_manaagement/entity/OrderItem.java:91-117 | 3 at 19.99 has subtotal 59.97; a discount of 5 then tax at 0.07 give tax 3.8479 and total 58.8179, with no rounding |
| `OrderItems.OrderItem.constructor` | src/main/java/com/ecommerce/api/ecommerce_api_manaagement/entity/OrderItem.java:66-69 | a new order item has no product, quantity, price or total, discount and tax 0, and both timestamps equal to the clock reading |
| `OrderItems.OrderItem.Create` | src/main/java/com/ecommerce/api/ecommerce_api_manaagement/entity/OrderItem.java:71-77 | stores product, quantity and unit price over the defaults and computes the total at once (the line `Created`) |
| `OrderItems.OrderItem.PreUpdate` | src/main/java/com/ecommerce/api/ecommerce_api_manaagement/entity/OrderItem.java:79-83 | writes the update time and recomputes the total, leaving the invariant holding |
| `OrderItems.OrderItem.PrePersist` | src/main/java/com/ecommerce/api/ecommerce_api_manaagement/entity/OrderItem.java:85-88 | recomputes the total, leaving the invariant holding |
| `OrderItems.OrderItem.CalculateTotalPrice` | src/main/java/com/ecommerce/api/ecommerce_api_manaagement/entity/OrderItem.java:91-97 | changes only the total, as `Line.CalculateTotalPrice` says, leaving the invariant holding |
| `OrderItems.OrderItem.GetSubtotal` | src/main/java/com/ecommerce/api/ecommerce_api_manaagement/entity/OrderItem.java:99-104 | a read-only query (a function, so it cannot change state) equal to the subtotal of the item's line; positive only when quantity and unit price are both set, the guard `CalculateTax` relies on |
| `OrderItems.OrderItem.ApplyDiscount` | src/main/java/com/ecommerce/api/ecommerce_api_manaagement/entity/OrderItem.java:106-109 | stores the discount and recomputes the total, leaving the invariant holding |
| `OrderItems.OrderItem.CalculateTax` | src/main/java/com/ecommerce/api/ecommerce_api_manaagement/entity/OrderItem.java:111-117 | changes only tax and total, exactly as `Line.CalculateTax` says |
| `OrderItems.OrderItem.SetQuantity` | src/main/java/com/ecommerce/api/ecommerce_api_manaagement/entity/OrderItem.java:132-135 | stores the quantity and recomputes the total, leaving the invariant holding |
| `OrderItems.OrderItem.SetUnitPrice` | src/main/java/com/ecommerce/api/ecommerce_api_manaagement/entity/OrderItem.java:141-144 | stores the unit price and recomputes the total, leaving the invariant holding |
| `OrderItems.OrderItem.SetTotalPrice` | src/main/java/com/ecommerce/api/ecommerce_api_manaagement/entity/OrderItem.java:150-152 | stores the given total and changes nothing else, whatever the invariant |
| `OrderItems.OrderItem.SetDiscountAmount` | src/main/java/com/ecommerce/api/ecommerce_api_manaagement/entity/OrderItem.java:158-161 | stores the discount and recomputes the total, leaving the invariant holding |
| `OrderItems.OrderItem.SetTaxAmount` | src/main/java/com/ecommerce/api/ecommerce_api_manaagement/entity/OrderItem.java:167-170 | stores the tax amount and recomputes the total, leaving the invariant holding |
| `CustomerTiers.CustomerTier.DisplayName` | src/main/java/com/ecommerce/api/ecommerce_api_manaagement/entity/CustomerTier.java:4-19 | the name fixed when the constant is declared, a capitalised word; distinct per tier by `DisplayNamesDistinct` |
| `CustomerTiers.CustomerTier.MinimumPoints` | src/main/java/com/ecommerce/api/ecommerce_api_manaagement/entity/CustomerTier.java:4-23 | the threshold fixed when the constant is declared: never negative and zero for Bronze alone; ordered as the tiers are by `MinimumPointsIncrease`, with Bronze the floor by `BronzeIsFloor` |
| `CustomerTiers.Values` | src/main/java/com/ecommerce/api/ecommerce_api_manaagement/entity/CustomerTier.java:3-7 | four constants in declaration order, pairwise distinct |
| `CustomerTiers.CustomerTier.Ordinal` | src/main/java/com/ecommerce/api/ecommerce_api_manaagement/entity/CustomerTier.java:3-7 | a tier's declaration position, at which `Values` holds that tier |
| `CustomerTiers.ValuesEnumerateAll` | src/main/java/com/ecommerce/api/ecommerce_api_manaagement/entity/CustomerTier.java:3-7 | the enumeration is closed: every tier is one of the four constants |
| `CustomerTiers.MinimumPointsIncrease` | src/main/java/com/ecommerce/api/ecommerce_api_manaagement/entity/CustomerTier.java:4-7 | one tier precedes another in declaration order iff its minimum points are lower |
| `CustomerTiers.ValuesSortedByThreshold` | src/main/java/com/ecommerce/api/ecommerce_api_manaagement/entity/CustomerTier.java:4-7 | along the declared order the thresholds strictly increase: 0 < 1000 < 5000 < 10000 |
| `CustomerTiers.BronzeIsFloor` | src/main/java/com/ecommerce/api/ecommerce_api_manaagement/entity/CustomerTier.java:4-4 | Bronze's threshold is 0 and no higher than any tier's, so every non-negative balance meets it |
| `CustomerTiers.DisplayNamesDistinct` | src/main/java/com/ecommerce/api/ecommerce_api_manaagement/entity/CustomerTier.java:9-19 | two tiers have the same display name iff they are the same tier |

## Left out

- JPA and Jackson wiring (entity and column mappings, generated ids, the
  `category`, `cartItems` and `orderItems` references, back-reference handling):
  persistence and serialisation with no logic. `Category` is not part of this
  model, so neither constructor takes a category.
- Bean-validation annotations (`@NotBlank`, `@Size`, `@Min`, `@DecimalMin`,
  `@DecimalMax`): they are enforced by the framework, not by this code, so the
  model accepts any value and states the validated case only where a lemma
  needs it (non-negative quantities and reorder level).
- Product's `brand`, `weight` (floating point), `imageUrl`, `isActive`,
  `isFeatured` and `taxRate`: stored fields with no behaviour;
  `calculateTax` takes its rate as a parameter, not from the product. The
  getters and the remaining plain setters (id, name, sku, description,
  timestamps, product reference) are field reads and writes and are not
  modelled one by one.
- The timestamps' values: the clock is a parameter. Both Product constructors
  (`Products.Product.constructor`, `Products.Product.Create`) and both OrderItem
  constructors (`OrderItems.OrderItem.constructor`, `OrderItems.OrderItem.Create`)
  read the clock more than once in the source; each is modelled as one reading,
  so creation and update times start equal.
- Database precision and scale: the code never rounds, so neither does the
  model.
- Concurrency: the entities are single-threaded; races between writers are
  out of scope.
