/** An order line: quantity and unit price copied from the product, a discount,
    a tax amount and a total that each mutation recomputes. The value `Line`
    and the transition function `Step` specify the class `OrderItem`; money is
    exact (`real`), and a nullable field is an `Option`. */
module OrderItems {
  import opened Wrappers
  import opened Int32
  import Products

  /** A nullable amount in a sum, where the source substitutes zero for null. */
  function OrZero(x: Option<real>): real {
    match x
    case Some(v) => v
    case None => 0.0
  }

  /** The pricing fields of an order line. */
  datatype Line = Line(quantity: Option<int32>, unitPrice: Option<real>, totalPrice: Option<real>,
                       discountAmount: Option<real>, taxAmount: Option<real>)
  {
    /** Both operands of the subtotal are present. */
    predicate Priced() {
      quantity.Some? && unitPrice.Some?
    }

    /** Unit price times quantity, or zero when either is null. */
    function Subtotal(): (r: real)
      ensures Priced() ==> r == unitPrice.value * quantity.value as real
      ensures !Priced() ==> r == 0.0
    {
      if quantity.Some? && unitPrice.Some? then unitPrice.value * quantity.value as real else 0.0
    }

    /** The line-item total the source maintains: subtotal minus discount plus tax. */
    function LineTotal(): real {
      Subtotal() - OrZero(discountAmount) + OrZero(taxAmount)
    }

    /** The total invariant: whenever quantity and unit price are present, the
        stored total is the line-item total. */
    predicate Consistent() {
      Priced() ==> totalPrice.Some? && totalPrice.value == LineTotal()
    }

    /** Recompute the total; a line without quantity or unit price is left as it is. */
    function CalculateTotalPrice(): (r: Line)
      ensures r.Consistent()
      ensures r.quantity == quantity && r.unitPrice == unitPrice
      ensures r.discountAmount == discountAmount && r.taxAmount == taxAmount
      ensures Priced() ==> r.totalPrice.Some? && r.totalPrice.value == LineTotal()
      ensures !Priced() ==> r == this
    {
      if quantity.Some? && unitPrice.Some? then
        var subtotal := unitPrice.value * quantity.value as real;
        var totalAfterDiscount := subtotal - OrZero(discountAmount);
        this.(totalPrice := Some(totalAfterDiscount + OrZero(taxAmount)))
      else
        this
    }

    /** Tax at `taxRate` on the discounted subtotal, then the total; only when a
        rate is given and the subtotal is positive. Otherwise nothing changes,
        a previously computed tax amount included. */
    function CalculateTax(taxRate: Option<real>): (r: Line)
      ensures taxRate.Some? && Subtotal() > 0.0 ==>
                r.taxAmount == Some((Subtotal() - OrZero(discountAmount)) * taxRate.value) &&
                r.Consistent() &&
                r.(totalPrice := totalPrice, taxAmount := taxAmount) == this
      ensures !(taxRate.Some? && Subtotal() > 0.0) ==> r == this
    {
      if taxRate.Some? && Subtotal() > 0.0 then
        this.(taxAmount := Some((Subtotal() - OrZero(discountAmount)) * taxRate.value)).CalculateTotalPrice()
      else
        this
    }
  }

  /** The line of a new order item built without arguments: only the zero
      discount and tax defaults are set. */
  function Initial(): Line {
    Line(None, None, None, Some(0.0), Some(0.0))
  }

  /** The line of an order item built from a quantity and a unit price: the
      defaults, then the total of the subtotal alone. */
  function Created(quantity: Option<int32>, unitPrice: Option<real>): (r: Line)
    ensures r.quantity == quantity && r.unitPrice == unitPrice
    ensures r.discountAmount == Some(0.0) && r.taxAmount == Some(0.0)
    ensures r.Priced() ==> r.totalPrice.Some? && r.totalPrice.value == unitPrice.value * quantity.value as real
    ensures !r.Priced() ==> r.totalPrice == None
  {
    Line(quantity, unitPrice, None, Some(0.0), Some(0.0)).CalculateTotalPrice()
  }

  /** The public operations of an order item that change its pricing fields. */
  datatype Op =
    | SetQuantity(quantity: Option<int32>)
    | SetUnitPrice(unitPrice: Option<real>)
    | SetDiscountAmount(discountAmount: Option<real>)
    | SetTaxAmount(taxAmount: Option<real>)
    | ApplyDiscount(discount: Option<real>)
    | CalculateTax(taxRate: Option<real>)
    | SetTotalPrice(totalPrice: Option<real>)
    | CalculateTotalPrice
    | PrePersist
    | PreUpdate
  {
    /** Operations that end by recomputing the total unconditionally. */
    predicate Recomputes() {
      !SetTotalPrice? && !CalculateTax?
    }
  }

  /** The effect of one operation on the pricing fields. */
  function Step(l: Line, op: Op): (r: Line)
    ensures op.Recomputes() ==> r.Consistent()
    ensures !op.SetTotalPrice? && l.Consistent() ==> r.Consistent()
    ensures op.SetTotalPrice? ==> r == l.(totalPrice := op.totalPrice)
  {
    match op
    case SetQuantity(q) => l.(quantity := q).CalculateTotalPrice()
    case SetUnitPrice(p) => l.(unitPrice := p).CalculateTotalPrice()
    case SetDiscountAmount(d) => l.(discountAmount := d).CalculateTotalPrice()
    case SetTaxAmount(t) => l.(taxAmount := t).CalculateTotalPrice()
    case ApplyDiscount(d) => l.(discountAmount := d).CalculateTotalPrice()
    case CalculateTax(rate) => l.CalculateTax(rate)
    case SetTotalPrice(x) => l.(totalPrice := x)
    case CalculateTotalPrice => l.CalculateTotalPrice()
    case PrePersist => l.CalculateTotalPrice()
    case PreUpdate => l.CalculateTotalPrice()
  }

  /** The effect of a sequence of operations, applied in order. */
  function Run(l: Line, ops: seq<Op>): Line
    decreases |ops|
  {
    if ops == [] then l else Run(Step(l, ops[0]), ops[1..])
  }

  predicate NoOverride(ops: seq<Op>) {
    forall i :: 0 <= i < |ops| ==> !ops[i].SetTotalPrice?
  }

  /** A positive subtotal needs both operands, so the recompute inside a tax
      calculation that fires always takes effect. */
  lemma PositiveSubtotalIsPriced(l: Line, taxRate: real)
    requires l.Subtotal() > 0.0
    ensures l.Priced()
    ensures l.CalculateTax(Some(taxRate)).Consistent()
  {
  }

  /** Only the quantity and unit-price setters move the subtotal; every other
      operation, the override and the tax calculation included, leaves it. */
  lemma SubtotalMovesOnlyWithQuantityOrPrice(l: Line, op: Op)
    ensures !op.SetQuantity? && !op.SetUnitPrice? ==> Step(l, op).Subtotal() == l.Subtotal()
    ensures op.SetQuantity? ==> Step(l, op).Subtotal() == l.(quantity := op.quantity).Subtotal()
    ensures op.SetUnitPrice? ==> Step(l, op).Subtotal() == l.(unitPrice := op.unitPrice).Subtotal()
  {
  }

  /** Recomputing the total twice is recomputing it once. */
  lemma CalculateTotalPriceIdempotent(l: Line)
    ensures l.CalculateTotalPrice().CalculateTotalPrice() == l.CalculateTotalPrice()
  {
  }

  /** A line satisfies the total invariant exactly when recomputing its total
      changes nothing. */
  lemma ConsistentIsFixpoint(l: Line)
    ensures l.Consistent() <==> l.CalculateTotalPrice() == l
  {
  }

  /** applyDiscount is setDiscountAmount under another name. */
  lemma ApplyDiscountIsSetDiscountAmount(l: Line, d: Option<real>)
    ensures Step(l, ApplyDiscount(d)) == Step(l, SetDiscountAmount(d))
  {
  }

  /** When the tax fires, the total is the discounted subtotal scaled by 1 + rate. */
  lemma TaxedTotal(l: Line, taxRate: real)
    requires l.Subtotal() > 0.0
    ensures l.CalculateTax(Some(taxRate)).totalPrice.Some?
    ensures l.CalculateTax(Some(taxRate)).totalPrice.value ==
            (l.Subtotal() - OrZero(l.discountAmount)) * (1.0 + taxRate)
  {
  }

  /** The override can break the invariant: a line of 1 unit at 2 with its
      total overridden to 0. */
  lemma OverrideCanBreakInvariant()
    ensures Created(Some(1), Some(2.0)).Consistent()
    ensures !Step(Created(Some(1), Some(2.0)), SetTotalPrice(Some(0.0))).Consistent()
  {
  }

  /** The pre-persist hook discards an override when the line is priced, and
      restores the invariant in every case. */
  lemma PrePersistAfterOverride(l: Line, x: Option<real>)
    ensures Step(Step(l, SetTotalPrice(x)), PrePersist).Consistent()
    ensures l.Priced() ==> Step(Step(l, SetTotalPrice(x)), PrePersist) == l.CalculateTotalPrice()
  {
    if l.Priced() {
      var persisted, recomputed := Step(Step(l, SetTotalPrice(x)), PrePersist), l.CalculateTotalPrice();
      assert persisted.totalPrice.value == recomputed.totalPrice.value;
    }
  }

  lemma {:induction false} RunAppend(l: Line, a: seq<Op>, b: seq<Op>)
    ensures Run(l, a + b) == Run(Run(l, a), b)
    decreases |a|
  {
    if a == [] {
      assert a + b == b;
    } else {
      assert (a + b)[0] == a[0];
      assert (a + b)[1..] == a[1..] + b;
      RunAppend(Step(l, a[0]), a[1..], b);
    }
  }

  /** Every operation but the override keeps the total invariant, however many
      are applied. */
  lemma {:induction false} RunPreservesConsistency(l: Line, ops: seq<Op>)
    requires l.Consistent()
    requires NoOverride(ops)
    ensures Run(l, ops).Consistent()
    decreases |ops|
  {
    if ops != [] {
      assert NoOverride(ops[1..]) by {
        forall i | 0 <= i < |ops[1..]| ensures !ops[1..][i].SetTotalPrice? {
          assert ops[1..][i] == ops[i + 1];
        }
      }
      RunPreservesConsistency(Step(l, ops[0]), ops[1..]);
    }
  }

  /** Whatever came before, the invariant holds after a recomputing operation
      that no later override follows. */
  lemma {:induction false} RunRestoresConsistency(l: Line, ops: seq<Op>, k: nat)
    requires k < |ops| && ops[k].Recomputes()
    requires NoOverride(ops[k + 1..])
    ensures Run(l, ops).Consistent()
  {
    var before, after := ops[..k], ops[k + 1..];
    assert ops == before + [ops[k]] + after;
    RunAppend(l, before + [ops[k]], after);
    RunAppend(l, before, [ops[k]]);
    var mid := Run(Run(l, before), [ops[k]]);
    assert mid == Step(Run(l, before), ops[k]);
    RunPreservesConsistency(mid, after);
  }

  /** A worked cascade with exact arithmetic: 3 units at 19.99, a discount of
      5.00, then tax at 7%: the tax is 3.8479 and the total 58.8179, unrounded. */
  lemma CascadeExample()
    ensures Created(Some(3), Some(19.99)).totalPrice == Some(59.97)
    ensures Run(Created(Some(3), Some(19.99)), [ApplyDiscount(Some(5.0)), CalculateTax(Some(0.07))])
            == Line(Some(3), Some(19.99), Some(58.8179), Some(5.0), Some(3.8479))
  {
    var l0 := Created(Some(3), Some(19.99));
    var l1 := Step(l0, ApplyDiscount(Some(5.0)));
    assert l1.totalPrice == Some(54.97);
    var l2 := Step(l1, CalculateTax(Some(0.07)));
    assert l2 == Line(Some(3), Some(19.99), Some(58.8179), Some(5.0), Some(3.8479));
    assert Run(l0, [ApplyDiscount(Some(5.0)), CalculateTax(Some(0.07))]) == Run(l1, [CalculateTax(Some(0.07))]);
  }

  class OrderItem {
    /** The product the line is for; its price is copied, not followed. */
    var product: Products.Product?
    var quantity: Option<int32>
    var unitPrice: Option<real>
    var totalPrice: Option<real>
    var discountAmount: Option<real>
    var taxAmount: Option<real>
    /** Clock readings standing for the creation and update times. */
    var createdAt: int
    var updatedAt: int

    /** The pricing fields as a value. */
    function State(): Line
      reads this
    {
      Line(quantity, unitPrice, totalPrice, discountAmount, taxAmount)
    }

    /** The no-argument constructor; `now` is the clock reading. */
    constructor (now: int)
      ensures State() == Initial() && product == null
      ensures createdAt == now && updatedAt == now
    {
      product := null;
      quantity, unitPrice, totalPrice := None, None, None;
      discountAmount, taxAmount := Some(0.0), Some(0.0);
      createdAt, updatedAt := now, now;
    }

    /** The constructor from a product, a quantity and a unit price: the total
        is computed at once. */
    constructor Create(product: Products.Product?, quantity: Option<int32>, unitPrice: Option<real>, now: int)
      ensures State() == Created(quantity, unitPrice) && this.product == product
      ensures createdAt == now && updatedAt == now
    {
      this.product := product;
      this.quantity, this.unitPrice, totalPrice := quantity, unitPrice, None;
      discountAmount, taxAmount := Some(0.0), Some(0.0);
      createdAt, updatedAt := now, now;
      new;
      CalculateTotalPrice();
    }

    /** The pre-update hook: refreshes the update time and recomputes the total. */
    method PreUpdate(now: int)
      modifies this`updatedAt, this`totalPrice
      ensures State() == Step(old(State()), Op.PreUpdate) && State().Consistent()
      ensures updatedAt == now
    {
      updatedAt := now;
      CalculateTotalPrice();
    }

    /** The pre-persist hook: recomputes the total. */
    method PrePersist()
      modifies this`totalPrice
      ensures State() == Step(old(State()), Op.PrePersist) && State().Consistent()
    {
      CalculateTotalPrice();
    }

    method CalculateTotalPrice()
      modifies this`totalPrice
      ensures State() == Step(old(State()), Op.CalculateTotalPrice) && State().Consistent()
    {
      if quantity.Some? && unitPrice.Some? {
        var subtotal := unitPrice.value * quantity.value as real;
        var totalAfterDiscount := subtotal - (if discountAmount.Some? then discountAmount.value else 0.0);
        totalPrice := Some(totalAfterDiscount + (if taxAmount.Some? then taxAmount.value else 0.0));
        assert totalPrice.value == old(State()).CalculateTotalPrice().totalPrice.value;
      }
    }

    /** Reads the state only; a positive subtotal means quantity and unit price are set. */
    function GetSubtotal(): (r: real)
      reads this
      ensures r == State().Subtotal()
      ensures r > 0.0 ==> quantity.Some? && unitPrice.Some?
    {
      if quantity.Some? && unitPrice.Some? then unitPrice.value * quantity.value as real else 0.0
    }

    method ApplyDiscount(discountAmount: Option<real>)
      modifies this`discountAmount, this`totalPrice
      ensures State() == Step(old(State()), Op.ApplyDiscount(discountAmount)) && State().Consistent()
    {
      this.discountAmount := discountAmount;
      CalculateTotalPrice();
    }

    method CalculateTax(taxRate: Option<real>)
      modifies this`taxAmount, this`totalPrice
      ensures State() == Step(old(State()), Op.CalculateTax(taxRate))
    {
      if taxRate.Some? && GetSubtotal() > 0.0 {
        var subtotalAfterDiscount := GetSubtotal() - (if discountAmount.Some? then discountAmount.value else 0.0);
        taxAmount := Some(subtotalAfterDiscount * taxRate.value);
        ghost var before := old(State());
        ghost var taxed := before.(taxAmount := Some((before.Subtotal() - OrZero(before.discountAmount)) * taxRate.value));
        assert taxAmount.value == taxed.taxAmount.value;
        assert State() == taxed;
        CalculateTotalPrice();
        assert before.CalculateTax(taxRate).taxAmount.value == taxed.taxAmount.value;
        assert before.CalculateTax(taxRate).totalPrice.value == taxed.CalculateTotalPrice().totalPrice.value;
      }
    }

    method SetQuantity(quantity: Option<int32>)
      modifies this`quantity, this`totalPrice
      ensures State() == Step(old(State()), Op.SetQuantity(quantity)) && State().Consistent()
    {
      this.quantity := quantity;
      CalculateTotalPrice();
    }

    method SetUnitPrice(unitPrice: Option<real>)
      modifies this`unitPrice, this`totalPrice
      ensures State() == Step(old(State()), Op.SetUnitPrice(unitPrice)) && State().Consistent()
    {
      this.unitPrice := unitPrice;
      CalculateTotalPrice();
    }

    /** The override: stores `totalPrice` as given, without recomputing. */
    method SetTotalPrice(totalPrice: Option<real>)
      modifies this`totalPrice
      ensures State() == Step(old(State()), Op.SetTotalPrice(totalPrice))
    {
      this.totalPrice := totalPrice;
    }

    method SetDiscountAmount(discountAmount: Option<real>)
      modifies this`discountAmount, this`totalPrice
      ensures State() == Step(old(State()), Op.SetDiscountAmount(discountAmount)) && State().Consistent()
    {
      this.discountAmount := discountAmount;
      CalculateTotalPrice();
    }

    method SetTaxAmount(taxAmount: Option<real>)
      modifies this`taxAmount, this`totalPrice
      ensures State() == Step(old(State()), Op.SetTaxAmount(taxAmount)) && State().Consistent()
    {
      this.taxAmount := taxAmount;
      CalculateTotalPrice();
    }
  }
}
