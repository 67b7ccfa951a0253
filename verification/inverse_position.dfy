/**
 * The closed-form formulas of an inverse (coin-margined) position: PnL,
 * initial and maintenance margin, isolated liquidation price, bankruptcy
 * price, order cost and fees, over exact reals.
 *
 * What the base position class provides (`is_long`, `is_short`, the
 * maintenance-margin rate, the taker fee, the two-way taker fee) is passed
 * in. Each Decimal division goes through `Div`, so the source's
 * `except` clauses decide which signals become 0 and which escape.
 */
module InversePosition {
  import opened Wrappers
  import opened DecimalDivision

  /** `is_long()` / `is_short()` / neither. */
  datatype Side = Long | Short | Flat

  /** Evaluate a division that sits inside `except decimal.DivisionByZero: <zero>`. */
  function DivOrZero(a: real, b: real): (r: Quotient)
    ensures b != 0.0 ==> r.Value? && r.v * b == a
    ensures b == 0.0 && a != 0.0 ==> r == Value(0.0)
    ensures b == 0.0 && a == 0.0 ==> r == Raised(InvalidOperation)
  {
    CatchDivisionByZero(Div(a, b))
  }

  /**
   * `update_pnl`. Both divisions have numerator 1, so only DivisionByZero
   * can occur, and it yields 0.
   */
  function UpdatePnl(side: Side, quantity: real, entryPrice: real, markPrice: real): (r: real)
    ensures side == Flat || entryPrice == 0.0 || markPrice == 0.0 ==> r == 0.0
    ensures side == Long && entryPrice != 0.0 && markPrice != 0.0 ==>
              r * entryPrice * markPrice == quantity * (markPrice - entryPrice)
    ensures side == Short && entryPrice != 0.0 && markPrice != 0.0 ==>
              r * entryPrice * markPrice == quantity * (entryPrice - markPrice)
  {
    if side == Flat then 0.0
    else
      match (Div(1.0, entryPrice), Div(1.0, markPrice))
      case (Value(invEntry), Value(invMark)) =>
        assert invEntry * entryPrice == 1.0 && invMark * markPrice == 1.0;
        var r := if side == Long then quantity * (invEntry - invMark) else quantity * (invMark - invEntry);
        assert side == Long ==>
                 r * entryPrice * markPrice
                 == quantity * ((invEntry * entryPrice) * markPrice - (invMark * markPrice) * entryPrice);
        assert side == Short ==>
                 r * entryPrice * markPrice
                 == quantity * ((invMark * markPrice) * entryPrice - (invEntry * entryPrice) * markPrice);
        r
      case _ => 0.0
  }

  lemma SignOfScaled(r: real, p: real, x: real)
    requires p > 0.0 && r * p == x
    ensures r > 0.0 <==> x > 0.0
    ensures r == 0.0 <==> x == 0.0
  {
    if r > 0.0 { assert r * p > 0.0; }
    if r < 0.0 { assert (-r) * p > 0.0; }
  }

  /** A short position's PnL is the long position's PnL negated. */
  lemma PnlLongShortOpposite(quantity: real, entryPrice: real, markPrice: real)
    ensures UpdatePnl(Short, quantity, entryPrice, markPrice) == -UpdatePnl(Long, quantity, entryPrice, markPrice)
  {
  }

  /**
   * With positive prices and quantity, a long position gains exactly when
   * the mark price is above the entry price, and breaks even exactly at it.
   */
  lemma LongPnlSign(quantity: real, entryPrice: real, markPrice: real)
    requires quantity > 0.0 && entryPrice > 0.0 && markPrice > 0.0
    ensures UpdatePnl(Long, quantity, entryPrice, markPrice) > 0.0 <==> markPrice > entryPrice
    ensures UpdatePnl(Long, quantity, entryPrice, markPrice) == 0.0 <==> markPrice == entryPrice
  {
    var r := UpdatePnl(Long, quantity, entryPrice, markPrice);
    var x := quantity * (markPrice - entryPrice);
    assert r * (entryPrice * markPrice) == x;
    SignOfScaled(r, entryPrice * markPrice, x);
    SignOfScaled(markPrice - entryPrice, quantity, x);
  }

  /**
   * `update_initial_margin` = quantity / (entry price x leverage). A zero
   * denominator gives 0 unless the quantity is zero too: `0 / 0` escapes.
   * `_update_margin` is taken to return normally.
   */
  function UpdateInitialMargin(quantity: real, entryPrice: real, leverage: real): (r: Quotient)
    ensures entryPrice * leverage != 0.0 ==> r.Value? && r.v * (entryPrice * leverage) == quantity
    ensures quantity != 0.0 && entryPrice * leverage == 0.0 ==> r == Value(0.0)
    ensures r.Raised? <==> quantity == 0.0 && entryPrice * leverage == 0.0
    ensures r.Raised? ==> r.signal == InvalidOperation
  {
    DivOrZero(quantity, entryPrice * leverage)
  }

  /**
   * (a / b) x factor with DivisionByZero caught as 0, the shape shared by the
   * maintenance margin and the fee to open; 0 / 0 still raises.
   */
  function ScaledQuotient(a: real, b: real, factor: real): (r: Quotient)
    ensures b != 0.0 ==> r.Value? && r.v * b == a * factor
    ensures a != 0.0 && b == 0.0 ==> r == Value(0.0)
    ensures r.Raised? <==> a == 0.0 && b == 0.0
    ensures r.Raised? ==> r.signal == InvalidOperation
  {
    match Div(a, b)
    case Value(perUnit) => Value(perUnit * factor)
    case Raised(DivisionByZero) => Value(0.0)
    case Raised(InvalidOperation) => Raised(InvalidOperation)
  }

  /**
   * `calculate_maintenance_margin` = (quantity / entry price) x rate; a zero
   * entry price gives 0 unless the quantity is zero too.
   */
  function CalculateMaintenanceMargin(quantity: real, entryPrice: real, maintenanceMarginRate: real): (r: Quotient)
    ensures entryPrice != 0.0 ==> r.Value? && r.v * entryPrice == quantity * maintenanceMarginRate
    ensures quantity != 0.0 && entryPrice == 0.0 ==> r == Value(0.0)
    ensures r.Raised? <==> quantity == 0.0 && entryPrice == 0.0
    ensures r.Raised? ==> r.signal == InvalidOperation
  {
    ScaledQuotient(quantity, entryPrice, maintenanceMarginRate)
  }

  /** Maintenance margin is initial margin scaled by leverage and the maintenance rate. */
  lemma MaintenanceFromInitialMargin(quantity: real, entryPrice: real, leverage: real, rate: real)
    requires entryPrice != 0.0 && leverage != 0.0
    ensures CalculateMaintenanceMargin(quantity, entryPrice, rate).v
            == UpdateInitialMargin(quantity, entryPrice, leverage).v * leverage * rate
  {
    var im := UpdateInitialMargin(quantity, entryPrice, leverage).v;
    assert im == quantity / (entryPrice * leverage);
    assert im * leverage == quantity / entryPrice;
  }

  /** The numerator of the bankruptcy price: the mark price only when the flag is `None`. */
  function BankruptcyBase(entryPrice: real, markPrice: real, leverage: real, withMarkPrice: Option<bool>): real {
    if withMarkPrice.None? then markPrice else entryPrice * leverage
  }

  /** The denominator of the bankruptcy price: leverage + 1 for a long, leverage - 1 for a short. */
  function BankruptcyDenominator(side: Side, leverage: real): real {
    match side
    case Long => leverage + 1.0
    case Short => leverage - 1.0
    case Flat => 1.0
  }

  /**
   * `get_bankruptcy_price`. The mark price is used only when the flag is
   * `None`; `True` and `False` both use entry price x leverage.
   */
  function GetBankruptcyPrice(side: Side, entryPrice: real, markPrice: real, leverage: real,
                              withMarkPrice: Option<bool>): (r: Quotient)
    ensures side == Flat ==> r == Value(0.0)
    ensures var base, d := BankruptcyBase(entryPrice, markPrice, leverage, withMarkPrice), BankruptcyDenominator(side, leverage);
            side != Flat && d != 0.0 ==> r.Value? && r.v * d == base
    ensures var base, d := BankruptcyBase(entryPrice, markPrice, leverage, withMarkPrice), BankruptcyDenominator(side, leverage);
            side != Flat && d == 0.0 && base != 0.0 ==> r == Value(0.0)
    ensures var base, d := BankruptcyBase(entryPrice, markPrice, leverage, withMarkPrice), BankruptcyDenominator(side, leverage);
            r.Raised? <==> side != Flat && d == 0.0 && base == 0.0
    ensures r.Raised? ==> r.signal == InvalidOperation
  {
    if side == Flat then Value(0.0)
    else DivOrZero(BankruptcyBase(entryPrice, markPrice, leverage, withMarkPrice), BankruptcyDenominator(side, leverage))
  }

  /** The `with_mark_price` flag has no effect unless it is `None`. */
  lemma BankruptcyFlagIgnored(side: Side, entryPrice: real, markPrice: real, leverage: real)
    ensures GetBankruptcyPrice(side, entryPrice, markPrice, leverage, Some(true))
            == GetBankruptcyPrice(side, entryPrice, markPrice, leverage, Some(false))
  {
  }

  /** A short at leverage 1 with a nonzero entry price has bankruptcy price 0 instead of failing. */
  lemma ShortUnitLeverageBankruptcy(entryPrice: real, markPrice: real, flag: bool)
    requires entryPrice != 0.0
    ensures GetBankruptcyPrice(Short, entryPrice, markPrice, 1.0, Some(flag)) == Value(0.0)
  {
  }

  /**
   * `update_fee_to_close` = (quantity / bankruptcy price) x taker fee, where
   * the bankruptcy price is asked for with `with_mark_price=True`. Only its
   * DivisionByZero is caught; an InvalidOperation escapes to the caller.
   * `_update_margin` is taken to return normally.
   */
  function UpdateFeeToClose(side: Side, quantity: real, entryPrice: real, markPrice: real, leverage: real,
                            takerFee: real): (r: Quotient)
    ensures var b := GetBankruptcyPrice(side, entryPrice, markPrice, leverage, Some(true));
            b.Value? && b.v != 0.0 ==> r.Value? && r.v * b.v == quantity * takerFee
    ensures var b := GetBankruptcyPrice(side, entryPrice, markPrice, leverage, Some(true));
            r.Raised? <==> b.Raised? || (b == Value(0.0) && quantity == 0.0)
    ensures var b := GetBankruptcyPrice(side, entryPrice, markPrice, leverage, Some(true));
            b == Value(0.0) && quantity != 0.0 ==> r == Value(0.0)
    ensures r.Raised? ==> r.signal == InvalidOperation
  {
    match GetBankruptcyPrice(side, entryPrice, markPrice, leverage, Some(true))
    case Raised(s) => Raised(s)
    case Value(bankruptcy) => ScaledQuotient(quantity, bankruptcy, takerFee)
  }

  /** The denominator of the isolated liquidation price for each side. */
  function LiquidationDenominator(side: Side, leverage: real, maintenanceMarginRate: real): real {
    match side
    case Long => leverage + 1.0 - maintenanceMarginRate * leverage
    case Short => leverage - 1.0 + maintenanceMarginRate * leverage
    case Flat => 1.0
  }

  /**
   * `update_isolated_liquidation_price`: entry price x leverage over the
   * side's denominator; 0 when flat. Its `except` catches both
   * DivisionByZero and InvalidOperation, including those escaping
   * `update_fee_to_close`, and then sets the price to 0; so it never fails.
   */
  function UpdateIsolatedLiquidationPrice(side: Side, quantity: real, entryPrice: real, markPrice: real,
                                          leverage: real, maintenanceMarginRate: real, takerFee: real): (r: real)
    ensures side == Flat ==> r == 0.0
    ensures LiquidationDenominator(side, leverage, maintenanceMarginRate) == 0.0 ==> r == 0.0
    ensures UpdateFeeToClose(side, quantity, entryPrice, markPrice, leverage, takerFee).Raised? ==> r == 0.0
    ensures var d := LiquidationDenominator(side, leverage, maintenanceMarginRate);
            side != Flat && d != 0.0 && UpdateFeeToClose(side, quantity, entryPrice, markPrice, leverage, takerFee).Value?
            ==> r * d == entryPrice * leverage
  {
    var price := if side == Flat then Value(0.0)
                 else Div(entryPrice * leverage, LiquidationDenominator(side, leverage, maintenanceMarginRate));
    var feeToClose := UpdateFeeToClose(side, quantity, entryPrice, markPrice, leverage, takerFee);
    if price.Raised? then 0.0
    else if feeToClose.Raised? then 0.0
    else price.v
  }

  lemma QuotientBelow(n: real, d: real, q: real, x: real)
    requires d > 0.0 && q * d == n && n < x * d
    ensures q < x
  {
    SignOfScaled(x - q, d, x * d - n);
  }

  lemma QuotientAbove(n: real, d: real, q: real, x: real)
    requires d > 0.0 && q * d == n && n > x * d
    ensures q > x
  {
    SignOfScaled(q - x, d, n - x * d);
  }

  /** The arithmetic behind the long ordering: bankruptcy < liquidation < entry. */
  lemma LongOrderingArith(entryPrice: real, leverage: real, rate: real, liq: real, bankrupt: real)
    requires entryPrice > 0.0 && leverage > 0.0 && rate > 0.0 && rate * leverage < 1.0
    requires liq * (leverage + 1.0 - rate * leverage) == entryPrice * leverage
    requires bankrupt * (leverage + 1.0) == entryPrice * leverage
    ensures 0.0 < bankrupt < liq < entryPrice
  {
    var n := entryPrice * leverage;
    var d := leverage + 1.0 - rate * leverage;
    assert n > 0.0;
    QuotientAbove(n, leverage + 1.0, bankrupt, 0.0);
    assert entryPrice * d == n + entryPrice * (1.0 - rate * leverage);
    assert entryPrice * (1.0 - rate * leverage) > 0.0;
    QuotientBelow(n, d, liq, entryPrice);
    assert bankrupt * d == n - bankrupt * rate * leverage;
    assert bankrupt * rate * leverage > 0.0;
    QuotientAbove(n, d, liq, bankrupt);
  }

  /** The arithmetic behind the short ordering: entry < liquidation < bankruptcy. */
  lemma ShortOrderingArith(entryPrice: real, leverage: real, rate: real, liq: real, bankrupt: real)
    requires entryPrice > 0.0 && leverage > 1.0 && rate > 0.0 && rate * leverage < 1.0
    requires liq * (leverage - 1.0 + rate * leverage) == entryPrice * leverage
    requires bankrupt * (leverage - 1.0) == entryPrice * leverage
    ensures entryPrice < liq < bankrupt
  {
    var n := entryPrice * leverage;
    var d := leverage - 1.0 + rate * leverage;
    assert n > 0.0;
    QuotientAbove(n, leverage - 1.0, bankrupt, 0.0);
    assert n == entryPrice * d + entryPrice * (1.0 - rate * leverage);
    assert entryPrice * (1.0 - rate * leverage) > 0.0;
    QuotientAbove(n, d, liq, entryPrice);
    assert bankrupt * d == n + bankrupt * rate * leverage;
    assert bankrupt * rate * leverage > 0.0;
    QuotientBelow(n, d, liq, bankrupt);
  }

  /**
   * For a long with positive entry price and leverage, a positive
   * maintenance rate below 1 / leverage: the position is liquidated below
   * its entry price, and before it reaches its bankruptcy price.
   */
  lemma LongLiquidationOrdering(quantity: real, entryPrice: real, markPrice: real, leverage: real,
                                rate: real, takerFee: real)
    requires entryPrice > 0.0 && leverage > 0.0 && rate > 0.0 && rate * leverage < 1.0
    ensures var liq := UpdateIsolatedLiquidationPrice(Long, quantity, entryPrice, markPrice, leverage, rate, takerFee);
            var bankrupt := GetBankruptcyPrice(Long, entryPrice, markPrice, leverage, Some(false));
            bankrupt.Value? && 0.0 < bankrupt.v < liq < entryPrice
  {
    var b := GetBankruptcyPrice(Long, entryPrice, markPrice, leverage, Some(true));
    BankruptcyFlagIgnored(Long, entryPrice, markPrice, leverage);
    assert b.Value?;
    assert UpdateFeeToClose(Long, quantity, entryPrice, markPrice, leverage, takerFee).Value?;
    var liq := UpdateIsolatedLiquidationPrice(Long, quantity, entryPrice, markPrice, leverage, rate, takerFee);
    LongOrderingArith(entryPrice, leverage, rate, liq, b.v);
  }

  /**
   * For a short with positive entry price, leverage above 1 and a positive
   * maintenance rate below 1 / leverage: the position is liquidated above
   * its entry price, and before it reaches its bankruptcy price.
   */
  lemma ShortLiquidationOrdering(quantity: real, entryPrice: real, markPrice: real, leverage: real,
                                 rate: real, takerFee: real)
    requires entryPrice > 0.0 && leverage > 1.0 && rate > 0.0 && rate * leverage < 1.0
    ensures var liq := UpdateIsolatedLiquidationPrice(Short, quantity, entryPrice, markPrice, leverage, rate, takerFee);
            var bankrupt := GetBankruptcyPrice(Short, entryPrice, markPrice, leverage, Some(false));
            bankrupt.Value? && entryPrice < liq < bankrupt.v
  {
    var b := GetBankruptcyPrice(Short, entryPrice, markPrice, leverage, Some(true));
    BankruptcyFlagIgnored(Short, entryPrice, markPrice, leverage);
    assert b.Value?;
    assert UpdateFeeToClose(Short, quantity, entryPrice, markPrice, leverage, takerFee).Value?;
    var liq := UpdateIsolatedLiquidationPrice(Short, quantity, entryPrice, markPrice, leverage, rate, takerFee);
    ShortOrderingArith(entryPrice, leverage, rate, liq, b.v);
  }

  /** `get_order_cost` = initial margin + two-way taker fee. */
  function GetOrderCost(initialMargin: real, twoWayTakerFee: real): (r: real)
    ensures r - initialMargin == twoWayTakerFee
    ensures twoWayTakerFee >= 0.0 ==> r >= initialMargin
  {
    initialMargin + twoWayTakerFee
  }

  /**
   * The order cost of a position whose initial margin was computed by
   * `update_initial_margin` pays that margin in full: taking the two-way fee
   * back off the cost leaves exactly quantity / (entry price x leverage).
   */
  lemma OrderCostCoversInitialMargin(quantity: real, entryPrice: real, leverage: real, twoWayTakerFee: real)
    requires entryPrice * leverage != 0.0
    ensures var m := UpdateInitialMargin(quantity, entryPrice, leverage);
            m.Value? && (GetOrderCost(m.v, twoWayTakerFee) - twoWayTakerFee) * (entryPrice * leverage) == quantity
    ensures var m := UpdateInitialMargin(quantity, entryPrice, leverage);
            entryPrice * leverage > 0.0 && twoWayTakerFee >= 0.0
            ==> GetOrderCost(m.v, twoWayTakerFee) * (entryPrice * leverage) >= quantity
  {
    var m := UpdateInitialMargin(quantity, entryPrice, leverage);
    var d := entryPrice * leverage;
    var c := GetOrderCost(m.v, twoWayTakerFee);
    assert c * d == m.v * d + twoWayTakerFee * d;
    if d > 0.0 && twoWayTakerFee >= 0.0 {
      assert twoWayTakerFee * d >= 0.0;
    }
  }

  /**
   * `get_fee_to_open` = (quantity / mark price) x taker fee; a zero mark
   * price gives 0 unless the quantity is zero too.
   */
  function GetFeeToOpen(quantity: real, markPrice: real, takerFee: real): (r: Quotient)
    ensures markPrice != 0.0 ==> r.Value? && r.v * markPrice == quantity * takerFee
    ensures quantity != 0.0 && markPrice == 0.0 ==> r == Value(0.0)
    ensures r.Raised? <==> quantity == 0.0 && markPrice == 0.0
    ensures r.Raised? ==> r.signal == InvalidOperation
  {
    ScaledQuotient(quantity, markPrice, takerFee)
  }
}
