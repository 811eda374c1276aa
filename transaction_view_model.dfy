/** TransactionViewModel: the checkout screen. It holds the cart, the chosen
    payment method and discount, and the three amounts, which every cart or
    discount command recomputes. Amounts are integers in cents; a discount
    value keeps the scale the cashier typed it with. */
module TransactionViewModel {
  import opened Outcomes
  import opened Models
  import opened Money
  import Seqs

  /** The screen's discount type (the request body has its own). */
  datatype DiscountKind = PERCENTAGE | FIXED

  datatype Discount = Discount(kind: DiscountKind, value: Decimal)

  datatype TransactionUiState = TransactionUiState(
    cartItems: seq<CartItem>,
    paymentMethod: PaymentMethod,
    discount: Option<Discount>,
    totalAmount: int,
    discountAmount: int,
    finalAmount: int,
    isLoading: bool,
    error: Option<Msg>,
    completedTransactionId: Option<string>)

  const InitialState := TransactionUiState([], CASH, None, 0, 0, 0, false, None, None)

  // ---- calculateTotals ----

  function LinePrice(item: CartItem): int { item.totalPrice }

  /** `items.sumOf { it.totalPrice }`. */
  function CartTotal(items: seq<CartItem>): int
  {
    Seqs.Sum(items, LinePrice)
  }

  /** The percentage discount rounded once, HALF_UP, to the cent:
      total * value / 100 to the nearest cent, ties away from zero. */
  function PercentageDiscount(total: int, value: Decimal): (d: int)
    ensures 2 * Abs(total * value.unscaled - 100 * Pow10(value.scale) * d) <= 100 * Pow10(value.scale)
    ensures 2 * Abs(total * value.unscaled - 100 * Pow10(value.scale) * d) == 100 * Pow10(value.scale) ==>
              Abs(d) * (100 * Pow10(value.scale)) > Abs(total * value.unscaled)
  {
    RoundHalfUp(total * value.unscaled, 100 * Pow10(value.scale))
  }

  /** The percentage discount as the code computes it: `total * value /
      BigDecimal(100)` divides HALF_EVEN at the scale of `total * value`
      (2 + the value's scale), and only then does `setScale(2, HALF_UP)`
      round to the cent. The two roundings together stay within one cent of
      the exact total * value / 100; for a whole percentage the second one
      changes nothing, so the result is the nearest cent with ties to even. */
  function PercentageDiscountAsWritten(total: int, value: Decimal): (d: int)
    ensures 2 * Abs(total * value.unscaled - 100 * Pow10(value.scale) * d) <= 100 * (Pow10(value.scale) + 1)
    ensures value.scale == 0 ==> 2 * Abs(total * value.unscaled - 100 * d) <= 100
    ensures value.scale == 0 && 2 * Abs(total * value.unscaled - 100 * d) == 100 ==> d % 2 == 0
  {
    var e := RoundHalfEven(total * value.unscaled, 100);
    var d := RoundHalfUp(e, Pow10(value.scale));
    DoubleRounding(total * value.unscaled, e, Pow10(value.scale), d);
    SecondRoundingAtScaleZero(e, value.scale, d);
    d
  }

  /** At scale 0 the second rounding divides by 1 and so changes nothing. */
  lemma SecondRoundingAtScaleZero(e: int, scale: nat, d: int)
    requires 2 * Abs(e - Pow10(scale) * d) <= Pow10(scale)
    ensures scale == 0 ==> d == e
  {
    if scale == 0 {
      assert Pow10(0) == 1;
      NearestExact(e, 1, d);
    }
  }

  /** Rounding x / 100 to e and then e / p to d lands within (p + 1) / 2
      hundredths of p of x / (100 * p). */
  lemma DoubleRounding(x: int, e: int, p: nat, d: int)
    requires p > 0
    requires 2 * Abs(x - 100 * e) <= 100
    requires 2 * Abs(e - p * d) <= p
    ensures 2 * Abs(x - 100 * p * d) <= 100 * (p + 1)
  {
    assert 100 * e - 100 * p * d == 100 * (e - p * d);
  }

  /** `discount.value.min(totalAmount)`, then `setScale(2, HALF_UP)`. */
  function FixedDiscount(total: int, value: Decimal): int
  {
    if DecimalLe(value, Decimal(total, 2)) then ToCents(value) else total
  }

  function DiscountAmount(total: int, discount: Option<Discount>): int
  {
    match discount
    case None => 0
    case Some(Discount(PERCENTAGE, v)) => PercentageDiscountAsWritten(total, v)
    case Some(Discount(FIXED, v)) => FixedDiscount(total, v)
  }

  datatype Totals = Totals(total: int, discount: int, final: int)

  /** `calculateTotals`: the total of the lines; the discount on it, which
      for a percentage is within a cent of total * value / 100 and for a
      fixed amount is that amount capped at the total; and the amount to pay,
      the total less the discount but never below zero. */
  function CalculateTotals(items: seq<CartItem>, discount: Option<Discount>): (t: Totals)
    ensures t.total == CartTotal(items)
    ensures discount.None? ==> t.discount == 0
    ensures discount.Some? && discount.value.kind == DiscountKind.PERCENTAGE ==>
              var v := discount.value.value;
              2 * Abs(t.total * v.unscaled - 100 * Pow10(v.scale) * t.discount) <= 100 * (Pow10(v.scale) + 1)
    ensures discount.Some? && discount.value.kind == DiscountKind.FIXED ==>
              t.discount == if DecimalLe(discount.value.value, Decimal(t.total, 2)) then ToCents(discount.value.value)
                            else t.total
    ensures t.final >= 0
    ensures t.final >= t.total - t.discount
    ensures t.final == t.total - t.discount || t.final == 0
  {
    var total := CartTotal(items);
    var d := DiscountAmount(total, discount);
    Totals(total, d, if total - d > 0 then total - d else 0)
  }

  // ---- properties of the arithmetic ----

  /** The percentage discount as written rounds twice and so differs from
      one HALF_UP rounding to the cent: 10 % of 0.25 is 2.50 / 100, which the
      division already rounds HALF_EVEN at scale 2 to 0.02, where HALF_UP of
      the exact 0.025 is 0.03. */
  lemma PercentageRoundingCounterexample()
    ensures PercentageDiscountAsWritten(25, Decimal(10, 0)) == 2
    ensures PercentageDiscount(25, Decimal(10, 0)) == 3
  {
    assert Pow10(0) == 1;
    assert RoundHalfEven(250, 100) == 2;
  }

  /** A percentage in (0, 100] of a non-negative total is a discount between
      0 and the total, whether rounded once or, as the code does, twice. */
  lemma PercentageDiscountBounds(total: int, value: Decimal)
    requires total >= 0
    requires value.unscaled >= 0
    requires DecimalLe(value, Decimal(100, 0))
    ensures 0 <= PercentageDiscount(total, value) <= total
    ensures 0 <= PercentageDiscountAsWritten(total, value) <= total
  {
    var p := Pow10(value.scale);
    assert value.unscaled <= 100 * p by {
      assert Pow10(0) == 1;
    }
    FractionBounds(total, value.unscaled, 100 * p, PercentageDiscount(total, value));
    var e := RoundHalfEven(total * value.unscaled, 100);
    TwoRoundingsBounds(total, value.unscaled, p, e, RoundHalfUp(e, p));
  }

  /** Each of the two roundings keeps its quotient in range: total * u / 100
      rounds to at most total * p, and that over p to at most total. */
  lemma TwoRoundingsBounds(total: int, u: int, p: nat, e: int, d: int)
    requires total >= 0 && p > 0 && 0 <= u <= 100 * p
    requires 2 * Abs(total * u - 100 * e) <= 100
    requires 2 * Abs(e - p * d) <= p
    ensures 0 <= d <= total
  {
    FirstRoundingBounds(total, u, p, e);
    NearestAtMost(e, p, d, total);
    NearestAtLeast(e, p, d, 0);
  }

  /** The HALF_EVEN step: total * u / 100 rounds into [0, total * p]. */
  lemma FirstRoundingBounds(total: int, u: int, p: nat, e: int)
    requires total >= 0 && 0 <= u <= 100 * p
    requires 2 * Abs(total * u - 100 * e) <= 100
    ensures 0 <= e <= total * p
  {
    var x := total * u;
    MulMonotone(total, u, 100 * p);
    MulMonotone(total, 0, u);
    assert total * (100 * p) == (total * p) * 100;
    NearestAtMost(x, 100, e, total * p);
    NearestAtLeast(x, 100, e, 0);
  }

  /** Rounding twice costs at most one cent against rounding once. */
  lemma DoubleRoundingWithinOneCent(total: int, value: Decimal)
    ensures Abs(PercentageDiscountAsWritten(total, value) - PercentageDiscount(total, value)) <= 1
  {
    var p := Pow10(value.scale);
    MulMonotone(100, 1, p);
    CloseQuotients(total * value.unscaled, 100 * p, PercentageDiscount(total, value),
                   PercentageDiscountAsWritten(total, value));
  }

  /** Two integers a, b with b * big within big / 2 + 50 of x and a * big
      within big / 2 of it are at most one apart when big >= 100. */
  lemma CloseQuotients(x: int, big: int, a: int, b: int)
    requires big >= 100
    requires 2 * Abs(x - big * a) <= big
    requires 2 * Abs(x - big * b) <= big + 100
    ensures Abs(a - b) <= 1
  {
    var k := a - b;
    assert big * a == big * b + big * k;
    if k >= 2 {
      MulMonotone(big, 2, k);
      assert false;
    } else if k <= -2 {
      MulMonotone(big, k, -2);
      assert false;
    }
  }


  /** A fixed discount never exceeds the total; a positive one on a
      non-negative total is not negative; one within the total is its own
      value in cents. */
  lemma FixedDiscountBounds(total: int, value: Decimal)
    ensures FixedDiscount(total, value) <= total
    ensures value.unscaled > 0 && total >= 0 ==> FixedDiscount(total, value) >= 0
    ensures DecimalLe(value, Decimal(total, 2)) ==> FixedDiscount(total, value) == ToCents(value)
  {
    if DecimalLe(value, Decimal(total, 2)) {
      ToCentsAtMost(value, total);
      if value.unscaled > 0 {
        ToCentsNonNegative(value);
      }
    }
  }

  /** Without a discount, and with no line priced below zero, nothing is
      taken off and the amount to pay is the total. */
  lemma NoDiscountTotals(items: seq<CartItem>)
    requires forall x :: x in items ==> x.totalPrice >= 0
    ensures CalculateTotals(items, None).discount == 0
    ensures CalculateTotals(items, None).final == CalculateTotals(items, None).total
  {
    Seqs.SumNonNegative(items, LinePrice);
  }

  /** With lines priced at least zero, an accepted discount never exceeds the
      total, so the amount to pay is exactly the total minus the discount. */
  lemma AcceptedDiscountTotals(items: seq<CartItem>, discount: Discount)
    requires forall x :: x in items ==> x.totalPrice >= 0
    requires DiscountAccepted(discount.kind, discount.value)
    ensures 0 <= CalculateTotals(items, Some(discount)).discount <= CalculateTotals(items, Some(discount)).total
    ensures CalculateTotals(items, Some(discount)).final ==
            CalculateTotals(items, Some(discount)).total - CalculateTotals(items, Some(discount)).discount
  {
    Seqs.SumNonNegative(items, LinePrice);
    var total := CartTotal(items);
    match discount.kind {
      case PERCENTAGE => PercentageDiscountBounds(total, discount.value);
      case FIXED => FixedDiscountBounds(total, discount.value);
    }
  }

  /** Removing a line takes exactly its price off the cart total. */
  lemma {:induction false} RemoveFromCartTotal(items: seq<CartItem>, item: CartItem)
    requires item in items
    ensures CartTotal(Seqs.RemoveFirst(items, item)) == CartTotal(items) - item.totalPrice
    decreases |items|
  {
    if items[0] != item {
      var rest := Seqs.RemoveFirst(items[1..], item);
      RemoveFromCartTotal(items[1..], item);
      assert Seqs.RemoveFirst(items, item) == [items[0]] + rest;
      assert ([items[0]] + rest)[1..] == rest;
    }
  }

  // ---- the request ----

  function ToApiDiscountType(kind: DiscountKind): DiscountType
  {
    match kind
    case PERCENTAGE => DiscountType.PERCENTAGE
    case FIXED => DiscountType.FIXED
  }

  /** The request for the current cart: one item per cart line, in cart
      order, the payment method, and the discount with its type mapped
      one-to-one and its value as typed. */
  function BuildRequest(s: TransactionUiState): (r: CreateTransactionRequest)
    ensures |r.items| == |s.cartItems|
    ensures forall i :: 0 <= i < |s.cartItems| ==>
              r.items[i] == TransactionItemRequest(s.cartItems[i].product.id, s.cartItems[i].weightGrams)
    ensures r.paymentMethod == s.paymentMethod
    ensures r.discount.None? <==> s.discount.None?
    ensures s.discount.Some? ==>
              r.discount.value.value == s.discount.value.value &&
              (r.discount.value.discountType == DiscountType.PERCENTAGE <==> s.discount.value.kind == DiscountKind.PERCENTAGE)
  {
    var items := seq(|s.cartItems|, i requires 0 <= i < |s.cartItems| =>
                   TransactionItemRequest(s.cartItems[i].product.id, s.cartItems[i].weightGrams));
    var discount := match s.discount
                    case None => None
                    case Some(d) => Some(DiscountRequest(ToApiDiscountType(d.kind), d.value));
    CreateTransactionRequest(items, s.paymentMethod, discount)
  }

  /** The discount dialog's acceptance rule: a value above zero, and for a
      percentage at most 100. */
  predicate DiscountAccepted(kind: DiscountKind, value: Decimal)
  {
    DecimalPositive(value) && (kind == DiscountKind.PERCENTAGE ==> DecimalLe(value, Decimal(100, 0)))
  }

  /** The amounts agree with the cart and the discount. */
  predicate TotalsUpToDate(s: TransactionUiState)
  {
    CalculateTotals(s.cartItems, s.discount) == Totals(s.totalAmount, s.discountAmount, s.finalAmount)
  }

  /** The state with its amounts recomputed. */
  function WithTotals(s: TransactionUiState): (r: TransactionUiState)
    ensures TotalsUpToDate(r)
    ensures r.cartItems == s.cartItems && r.discount == s.discount
  {
    var t := CalculateTotals(s.cartItems, s.discount);
    s.(totalAmount := t.total, discountAmount := t.discount, finalAmount := t.final)
  }

  class TransactionViewModel {
    var uiState: TransactionUiState

    ghost predicate Valid()
      reads this
    {
      TotalsUpToDate(uiState)
    }

    constructor()
      ensures Valid()
      ensures uiState == InitialState
    {
      uiState := InitialState;
    }

    /** `setCartItems`. */
    method SetCartItems(items: seq<CartItem>)
      requires Valid()
      modifies this
      ensures Valid()
      ensures uiState == WithTotals(old(uiState).(cartItems := items))
    {
      uiState := WithTotals(uiState.(cartItems := items));
    }

    /** `removeFromCart`: `cartItems - item` drops the first equal line. */
    method RemoveFromCart(item: CartItem)
      requires Valid()
      modifies this
      ensures Valid()
      ensures uiState == WithTotals(old(uiState).(cartItems := Seqs.RemoveFirst(old(uiState).cartItems, item)))
    {
      uiState := WithTotals(uiState.(cartItems := Seqs.RemoveFirst(uiState.cartItems, item)));
    }

    /** `setPaymentMethod`: the amounts stay as they are. */
    method SetPaymentMethod(method_: PaymentMethod)
      requires Valid()
      modifies this
      ensures Valid()
      ensures uiState == old(uiState).(paymentMethod := method_)
    {
      uiState := uiState.(paymentMethod := method_);
    }

    /** `applyDiscount`, as the discount dialog calls it. */
    method ApplyDiscount(kind: DiscountKind, value: Decimal)
      requires Valid()
      requires DiscountAccepted(kind, value)
      modifies this
      ensures Valid()
      ensures uiState == WithTotals(old(uiState).(discount := Some(Discount(kind, value))))
    {
      uiState := WithTotals(uiState.(discount := Some(Discount(kind, value))));
    }

    /** `removeDiscount`. */
    method RemoveDiscount()
      requires Valid()
      modifies this
      ensures Valid()
      ensures uiState == WithTotals(old(uiState).(discount := None))
    {
      uiState := WithTotals(uiState.(discount := None));
    }

    /** `createTransaction`, with `outcome` the one terminal value the
        repository emits. An empty cart only sets the error; otherwise the
        request for the cart is returned and the outcome lands in the state. */
    method CreateTransaction(outcome: Resource<Transaction>) returns (request: Option<CreateTransactionRequest>)
      requires Valid()
      modifies this
      ensures Valid()
      ensures old(uiState).cartItems == [] ==> request == None && uiState == old(uiState).(error := Some(CartEmpty))
      ensures old(uiState).cartItems != [] ==>
                && request == Some(BuildRequest(old(uiState)))
                && uiState == match outcome
                              case Success(t) =>
                                old(uiState).(isLoading := false, error := None, completedTransactionId := Some(t.id))
                              case Error(m) =>
                                old(uiState).(isLoading := false, error := Some(MessageOr(m, CreateTransactionFailed)))
    {
      if uiState.cartItems == [] {
        uiState := uiState.(error := Some(CartEmpty));
        return None;
      }
      uiState := uiState.(isLoading := true, error := None);
      request := Some(BuildRequest(uiState));
      match outcome {
        case Success(t) =>
          uiState := uiState.(isLoading := false, completedTransactionId := Some(t.id));
        case Error(m) =>
          uiState := uiState.(isLoading := false, error := Some(MessageOr(m, CreateTransactionFailed)));
      }
    }

    /** `clearError`. */
    method ClearError()
      requires Valid()
      modifies this
      ensures Valid()
      ensures uiState == old(uiState).(error := None)
    {
      uiState := uiState.(error := None);
    }
  }
}
