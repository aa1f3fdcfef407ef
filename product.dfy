/** A catalogue product: pricing fields, stock fields and the four derived
    queries on them. Nullable `Integer` and `BigDecimal` fields are `Option`s;
    `BigDecimal` is exact, so prices are `real`s. */
module Products {
  import opened Wrappers
  import opened Int32

  class Product {
    var name: Option<string>
    var sku: Option<string>
    var description: Option<string>
    /** List price. */
    var price: Option<real>
    /** Optional sale price; when set it is the price charged. */
    var discountedPrice: Option<real>
    /** Units on hand. */
    var stockQuantity: Option<int32>
    /** Units held for pending orders (the field is spelled this way in the source). */
    var reserverdQuantity: Option<int32>
    /** Available stock at or below this level is low. */
    var reorderLevel: Option<int32>
    /** Clock readings, in milliseconds since the epoch. */
    var createdAt: int
    var updatedAt: int

    /** The no-argument constructor: every field null except the defaults
        reserved = 0 and reorder level = 5; `now` is the clock reading. */
    constructor (now: int)
      ensures name == None && sku == None && description == None
      ensures price == None && discountedPrice == None && stockQuantity == None
      ensures reserverdQuantity == Some(0) && reorderLevel == Some(5)
      ensures createdAt == now && updatedAt == now
    {
      name, sku, description := None, None, None;
      price, discountedPrice := None, None;
      stockQuantity := None;
      reserverdQuantity := Some(0);
      reorderLevel := Some(5);
      createdAt, updatedAt := now, now;
    }

    /** The catalogue constructor: the defaults above, then the given fields.
        With nothing reserved, all of the stock is available, and the product
        is low on stock exactly when it has at most 5 units. */
    constructor Create(name: Option<string>, sku: Option<string>, description: Option<string>,
                       price: Option<real>, stockQuantity: Option<int32>, now: int)
      ensures this.name == name && this.sku == sku && this.description == description
      ensures this.price == price && discountedPrice == None && this.stockQuantity == stockQuantity
      ensures reserverdQuantity == Some(0) && reorderLevel == Some(5)
      ensures createdAt == now && updatedAt == now
      ensures EffectivePrice() == price
      ensures stockQuantity.Some? ==>
                AvailableStock() == Ok(stockQuantity.value) &&
                IsLowStock() == Ok(stockQuantity.value <= 5) &&
                IsInStock() == Ok(stockQuantity.value > 0)
      ensures stockQuantity.None? ==> AvailableStock() == NullPointer
    {
      this.name, this.sku, this.description := name, sku, description;
      this.price, discountedPrice := price, None;
      this.stockQuantity := stockQuantity;
      reserverdQuantity := Some(0);
      reorderLevel := Some(5);
      createdAt, updatedAt := now, now;
    }

    /** The pre-update hook: refreshes the update time and nothing else. */
    method PreUpdate(now: int)
      modifies this`updatedAt
      ensures updatedAt == now
    {
      updatedAt := now;
    }

    /** On-hand minus reserved, with Java `int` subtraction; not clamped, so
        negative when more is reserved than is on hand. Unboxing a null
        quantity throws. */
    function AvailableStock(): (r: Result<int32>)
      reads this
      ensures r.Ok? <==> stockQuantity.Some? && reserverdQuantity.Some?
      ensures r.Ok? ==> (r.value as int - (stockQuantity.value as int - reserverdQuantity.value as int)) % Modulus == 0
      ensures r.Ok? && InRange(stockQuantity.value as int - reserverdQuantity.value as int) ==>
                r.value as int == stockQuantity.value as int - reserverdQuantity.value as int
    {
      match (stockQuantity, reserverdQuantity)
      case (Some(onHand), Some(reserved)) => Ok(Sub(onHand, reserved))
      case _ => NullPointer
    }

    /** The discounted price when one is set, otherwise the list price; the two
        are never compared, so the result may exceed the list price. */
    function EffectivePrice(): (r: Option<real>)
      reads this
      ensures r == discountedPrice || r == price
      ensures r.Some? <==> discountedPrice.Some? || price.Some?
      ensures discountedPrice.Some? ==> r == discountedPrice
    {
      if discountedPrice.Some? then discountedPrice else price
    }

    /** Low stock: available stock at or below the reorder level. */
    function IsLowStock(): (r: Result<bool>)
      reads this
      ensures r.Ok? <==> AvailableStock().Ok? && reorderLevel.Some?
      ensures r.Ok? ==> (r.value <==> AvailableStock().value <= reorderLevel.value)
    {
      match AvailableStock()
      case NullPointer => NullPointer
      case Ok(available) =>
        match reorderLevel
        case None => NullPointer
        case Some(level) => Ok(available <= level)
    }

    /** In stock: some stock is available. */
    function IsInStock(): (r: Result<bool>)
      reads this
      ensures r.Ok? <==> AvailableStock().Ok?
      ensures r.Ok? ==> (r.value <==> AvailableStock().value > 0)
    {
      match AvailableStock()
      case NullPointer => NullPointer
      case Ok(available) => Ok(available > 0)
    }

    method SetPrice(price: Option<real>)
      modifies this`price
      ensures this.price == price
      ensures discountedPrice.None? ==> EffectivePrice() == price
    {
      this.price := price;
    }

    method SetDiscountedPrice(discountedPrice: Option<real>)
      modifies this`discountedPrice
      ensures this.discountedPrice == discountedPrice
      ensures discountedPrice.Some? ==> EffectivePrice() == discountedPrice
    {
      this.discountedPrice := discountedPrice;
    }

    method SetStockQuantity(stockQuantity: Option<int32>)
      modifies this`stockQuantity
      ensures this.stockQuantity == stockQuantity
    {
      this.stockQuantity := stockQuantity;
    }

    method SetReserverdQuantity(reserverdQuantity: Option<int32>)
      modifies this`reserverdQuantity
      ensures this.reserverdQuantity == reserverdQuantity
    {
      this.reserverdQuantity := reserverdQuantity;
    }

    method SetReorderLevel(reorderLevel: Option<int32>)
      modifies this`reorderLevel
      ensures this.reorderLevel == reorderLevel
    {
      this.reorderLevel := reorderLevel;
    }
  }

  /** When the validated quantities are non-negative, available stock is the
      exact difference, and may be negative. */
  lemma AvailableStockExact(p: Product)
    requires p.stockQuantity.Some? && p.reserverdQuantity.Some?
    requires p.stockQuantity.value >= 0 && p.reserverdQuantity.value >= 0
    ensures p.AvailableStock() == Ok(p.stockQuantity.value - p.reserverdQuantity.value)
  {
    SubOfNonNegativeIsExact(p.stockQuantity.value, p.reserverdQuantity.value);
  }

  /** With a non-negative reorder level, a product out of stock is low on stock. */
  lemma OutOfStockIsLowStock(p: Product)
    requires p.reorderLevel.Some? && p.reorderLevel.value >= 0
    requires p.IsInStock() == Ok(false)
    ensures p.IsLowStock() == Ok(true)
  {
  }

  /** The two threshold tests never fail independently: both throw exactly
      when available stock cannot be computed, given a reorder level. */
  lemma LowStockAndInStockAgree(p: Product)
    requires p.reorderLevel.Some?
    ensures p.IsLowStock().Ok? <==> p.IsInStock().Ok?
  {
  }

  /** An oversold product (more reserved than on hand) has negative available
      stock and is not in stock. */
  lemma OversoldIsOutOfStock(p: Product)
    requires p.stockQuantity.Some? && p.reserverdQuantity.Some?
    requires 0 <= p.stockQuantity.value < p.reserverdQuantity.value
    ensures p.AvailableStock().Ok? && p.AvailableStock().value < 0
    ensures p.IsInStock() == Ok(false)
  {
  }
}
