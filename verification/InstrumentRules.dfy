/** Step quantization, order validation, and the risk amounts after rounding. */
module InstrumentRules {
  import opened RejectionReasons
  import opened Products

  datatype Limit = NoLimit | Limit(value: real)

  /** The one symbol the services trade, or another one. */
  datatype Symbol = EthUsdt | OtherSymbol(name: string)

  datatype Category = Linear | OptionCategory

  datatype TradingStatus = Trading | OtherStatus(name: string)

  datatype Spec = Instrument(
    symbol: Symbol,
    category: Category,
    status: TradingStatus,
    tickSize: real,
    minPrice: Limit,
    maxPrice: Limit,
    qtyStep: real,
    minQuantity: real,
    maxQuantity: real,
    minNotional: Limit,
    multiplier: real)

  type Instrument = i: Spec
    | i.tickSize > 0.0 && i.qtyStep > 0.0 && 0.0 < i.minQuantity <= i.maxQuantity && i.multiplier > 0.0
    witness Spec.Instrument(EthUsdt, Linear, Trading, 1.0, NoLimit, NoLimit, 1.0, 1.0, 1.0, NoLimit, 1.0)

  datatype Side = Buy | Sell
  datatype PricePolicy = Passive | Aggressive

  // ----- quantization

  function FloorToStep(value: real, step: real): real
    requires step > 0.0
  {
    Times((value / step).Floor as real, step)
  }

  function CeilToStep(value: real, step: real): real
    requires step > 0.0
  {
    Times((-((-(value / step)).Floor)) as real, step)
  }

  lemma TimesPlusOne(a: real, k: real)
    ensures Times(a + 1.0, k) == Times(a, k) + k
    ensures Times(a - 1.0, k) == Times(a, k) - k
  {}

  /** Rounding moves a value by less than one step, each in its own direction. */
  lemma StepRounding(value: real, step: real)
    requires step > 0.0
    ensures FloorToStep(value, step) <= value < FloorToStep(value, step) + step
    ensures CeilToStep(value, step) - step < value <= CeilToStep(value, step)
  {
    var q := value / step;
    var f, c := q.Floor as real, (-((-q).Floor)) as real;
    QuotientBack(value, step);
    TimesLe(f, q, step);
    TimesPlusOne(f, step);
    TimesGrows(q, f + 1.0, step);
    TimesLe(q, c, step);
    TimesPlusOne(c, step);
    TimesGrows(c - 1.0, q, step);
  }

  lemma FloorIsNotNegative(value: real, step: real)
    requires value >= 0.0 && step > 0.0
    ensures FloorToStep(value, step) >= 0.0
  {
    QuotientBack(value, step);
    if value / step < 0.0 {
      TimesGrows(value / step, 0.0, step);
    }
    TimesLe(0.0, (value / step).Floor as real, step);
  }

  /** A value on the grid is left alone by rounding. */
  lemma GridIsFixed(units: int, step: real)
    requires step > 0.0
    ensures FloorToStep(Times(units as real, step), step) == Times(units as real, step)
    ensures CeilToStep(Times(units as real, step), step) == Times(units as real, step)
  {
    assert Times(units as real, step) / step == units as real;
  }

  /** A passive sell and an aggressive buy round up, the other two round down. */
  function QuantizeLimitPrice(value: real, tickSize: real, side: Side, policy: PricePolicy): real
    requires tickSize > 0.0
  {
    if (side == Sell) == (policy == Passive) then CeilToStep(value, tickSize) else FloorToStep(value, tickSize)
  }

  function Multiple(units: int, step: real): real {
    Times(units as real, step)
  }

  ghost predicate OnGrid(value: real, step: real) {
    exists units: int :: value == Multiple(units, step)
  }

  lemma RoundingIsOnGrid(value: real, step: real)
    requires step > 0.0
    ensures OnGrid(FloorToStep(value, step), step) && OnGrid(CeilToStep(value, step), step)
  {
    assert FloorToStep(value, step) == Multiple((value / step).Floor, step);
    assert CeilToStep(value, step) == Multiple(-((-(value / step)).Floor), step);
  }

  /** A limit price moves by less than a tick onto the grid: upwards for a passive
      sale or an aggressive purchase, downwards otherwise. */
  lemma PriceIsRoundedAway(value: real, tickSize: real, side: Side, policy: PricePolicy)
    requires tickSize > 0.0
    ensures var p := QuantizeLimitPrice(value, tickSize, side, policy);
            && OnGrid(p, tickSize)
            && (side == Sell && policy == Passive ==> value <= p < value + tickSize)
            && (side == Buy && policy == Passive ==> value - tickSize < p <= value)
            && (side == Sell && policy == Aggressive ==> value - tickSize < p <= value)
            && (side == Buy && policy == Aggressive ==> value <= p < value + tickSize)
  {
    StepRounding(value, tickSize);
    RoundingIsOnGrid(value, tickSize);
  }

  // ----- validation of a limit order

  datatype Validation = Validation(price: real, quantity: real, errors: seq<Reason>, warnings: seq<Reason>)
  {
    predicate Accepted() {
      |errors| == 0
    }
  }

  function NormalizeAndValidateOrder(i: Instrument, side: Side, quantity: real, price: real,
                                     policy: PricePolicy): Validation {
    var q := FloorToStep(quantity, i.qtyStep);
    var p := QuantizeLimitPrice(price, i.tickSize, side, policy);
    Validation(p, q, LotErrors(i, q) + PriceErrors(i, q, p),
               When(q != quantity, QuantityRounded) + When(p != price, PriceRounded))
  }

  function LotErrors(i: Instrument, q: real): seq<Reason> {
    When(i.status != Trading, InstrumentNotTrading)
    + When(q < i.minQuantity, QuantityBelowMinimum)
    + When(q > i.maxQuantity, QuantityAboveMaximum)
  }

  function PriceErrors(i: Instrument, q: real, p: real): seq<Reason> {
    When(i.minPrice.Limit? && p < i.minPrice.value, PriceBelowMinimum)
    + When(i.maxPrice.Limit? && p > i.maxPrice.value, PriceAboveMaximum)
    + When(i.minNotional.Limit? && Times(Times(q, p), i.multiplier) < i.minNotional.value, NotionalBelowMinimum)
  }

  /** An order is accepted exactly when the instrument trades and quantity, price and
      notional, as rounded, are within its filters. The quantity is the largest
      one on the grid, and a warning says what was rounded. */
  lemma ValidationIsExact(i: Instrument, side: Side, quantity: real, price: real, policy: PricePolicy)
    ensures var v := NormalizeAndValidateOrder(i, side, quantity, price, policy);
            && OnGrid(v.quantity, i.qtyStep) && v.quantity <= quantity < v.quantity + i.qtyStep
            && (v.Accepted() <==>
                  && i.status == Trading && i.minQuantity <= v.quantity <= i.maxQuantity
                  && (i.minPrice.Limit? ==> v.price >= i.minPrice.value)
                  && (i.maxPrice.Limit? ==> v.price <= i.maxPrice.value)
                  && (i.minNotional.Limit? ==>
                        Times(Times(v.quantity, v.price), i.multiplier) >= i.minNotional.value))
            && (QuantityRounded in v.warnings <==> v.quantity != quantity)
            && (PriceRounded in v.warnings <==> v.price != price)
  {
    StepRounding(quantity, i.qtyStep);
    RoundingIsOnGrid(quantity, i.qtyStep);
  }

  /** What an order error says. */
  predicate LotBreach(reason: Reason, i: Instrument, quantity: real) {
    || (reason == InstrumentNotTrading && i.status != Trading)
    || (reason == QuantityBelowMinimum && quantity < i.minQuantity)
    || (reason == QuantityAboveMaximum && quantity > i.maxQuantity)
  }

  predicate PriceBreach(reason: Reason, i: Instrument, quantity: real, price: real) {
    || (reason == PriceBelowMinimum && i.minPrice.Limit? && price < i.minPrice.value)
    || (reason == PriceAboveMaximum && i.maxPrice.Limit? && price > i.maxPrice.value)
    || (reason == NotionalBelowMinimum && i.minNotional.Limit?
        && Times(Times(quantity, price), i.multiplier) < i.minNotional.value)
  }

  lemma LotErrorIn(i: Instrument, quantity: real, reason: Reason)
    ensures reason in LotErrors(i, quantity) <==> LotBreach(reason, i, quantity)
  {}

  lemma PriceErrorIn(i: Instrument, quantity: real, price: real, reason: Reason)
    ensures reason in PriceErrors(i, quantity, price) <==> PriceBreach(reason, i, quantity, price)
  {}

  /** Each error is given exactly when the rounded order breaks its filter. */
  lemma OrderErrorsAreTheBreaches(i: Instrument, side: Side, quantity: real, price: real, policy: PricePolicy,
                                  reason: Reason)
    ensures var v := NormalizeAndValidateOrder(i, side, quantity, price, policy);
            reason in v.errors <==> LotBreach(reason, i, v.quantity) || PriceBreach(reason, i, v.quantity, v.price)
  {
    var v := NormalizeAndValidateOrder(i, side, quantity, price, policy);
    LotErrorIn(i, v.quantity, reason);
    PriceErrorIn(i, v.quantity, v.price, reason);
    assert reason in v.errors <==> reason in LotErrors(i, v.quantity) || reason in PriceErrors(i, v.quantity, v.price);
  }

  // ----- risk amounts after rounding

  datatype QuantizedRisk = QuantizedRisk(
    quantity: real,
    entry: real,
    tp: real,
    stop: real,
    notional: real,
    tpProfit: real,
    projectedStopLoss: real,
    recoveryQuantity: real,
    recoveryProfit: real,
    errors: seq<Reason>)
  {
    predicate Accepted() {
      |errors| == 0
    }
  }

  function Positive(x: real): real {
    if x > 0.0 then x else 0.0
  }

  function ProfitDistance(side: Side, entry: real, tp: real): real {
    if side == Buy then tp - entry else entry - tp
  }

  function AdverseDistance(side: Side, entry: real, stop: real): real {
    if side == Buy then entry - stop else stop - entry
  }

  function RecoveryQuantity(i: Instrument, debt: real, profitPerUnit: real): real {
    if debt > 0.0 && profitPerUnit > 0.0 then CeilToStep(debt / profitPerUnit, i.qtyStep) else 0.0
  }

  function RecalculateQuantizedRisk(v: Validation, i: Instrument, entrySide: Side, tpPrice: real, stopPrice: real,
                                    debt: real, maximumNotional: real, maximumStopLoss: real): QuantizedRisk
    requires debt >= 0.0
  {
    var exitSide := if entrySide == Buy then Sell else Buy;
    var tp := QuantizeLimitPrice(tpPrice, i.tickSize, exitSide, Passive);
    var stop := QuantizeLimitPrice(stopPrice, i.tickSize, exitSide, Aggressive);
    var notional := Times(Times(v.price, v.quantity), i.multiplier);
    var profitDistance := ProfitDistance(entrySide, v.price, tp);
    var stopDistance := AdverseDistance(entrySide, v.price, stop);
    var profitPerUnit := Times(Positive(profitDistance), i.multiplier);
    var projected := Times(Times(Positive(stopDistance), i.multiplier), v.quantity);
    var recoveryQuantity := RecoveryQuantity(i, debt, profitPerUnit);
    QuantizedRisk(v.quantity, v.price, tp, stop, notional, Times(profitPerUnit, v.quantity), projected,
      recoveryQuantity, Times(recoveryQuantity, profitPerUnit),
      v.errors + AmountErrors(profitDistance, stopDistance, debt > 0.0 && profitPerUnit == 0.0)
      + LimitErrors(notional, maximumNotional, projected, maximumStopLoss))
  }

  function AmountErrors(profitDistance: real, stopDistance: real, unpaid: bool): seq<Reason> {
    When(profitDistance <= 0.0, TakeProfitNotProfitable)
    + When(stopDistance <= 0.0, StopNotAdverse)
    + When(unpaid, RecoveryProfitIsZero)
  }

  function LimitErrors(notional: real, maximumNotional: real, projected: real, maximumStopLoss: real): seq<Reason> {
    When(notional > maximumNotional, NotionalAboveLimit)
    + When(projected > maximumStopLoss, StopLossAboveLimit)
  }

  /** Take-profit and stop are rounded away from the entry, each onto the grid, and
      profit, loss and notional are those of the rounded prices: for a sale take-profit
      down and stop up, for a purchase the other way round. */
  lemma AmountsAreExact(v: Validation, i: Instrument, side: Side, tpPrice: real, stopPrice: real, debt: real,
                        maximumNotional: real, maximumStopLoss: real)
    requires debt >= 0.0
    ensures var q := RecalculateQuantizedRisk(v, i, side, tpPrice, stopPrice, debt, maximumNotional, maximumStopLoss);
            var gain := if side == Sell then q.entry - q.tp else q.tp - q.entry;
            var loss := if side == Sell then q.stop - q.entry else q.entry - q.stop;
            && q.quantity == v.quantity && q.entry == v.price
            && OnGrid(q.tp, i.tickSize) && OnGrid(q.stop, i.tickSize)
            && (side == Sell ==> tpPrice - i.tickSize < q.tp <= tpPrice && stopPrice <= q.stop < stopPrice + i.tickSize)
            && (side == Buy ==> tpPrice <= q.tp < tpPrice + i.tickSize && stopPrice - i.tickSize < q.stop <= stopPrice)
            && q.notional == Times(Times(q.entry, q.quantity), i.multiplier)
            && (gain >= 0.0 ==> q.tpProfit == Times(Times(gain, i.multiplier), q.quantity))
            && (gain <= 0.0 ==> q.tpProfit == 0.0)
            && (loss >= 0.0 ==> q.projectedStopLoss == Times(Times(loss, i.multiplier), q.quantity))
            && (loss <= 0.0 ==> q.projectedStopLoss == 0.0)
            && (debt == 0.0 || gain <= 0.0 ==> q.recoveryQuantity == 0.0)
            && (debt > 0.0 && gain > 0.0 ==>
                  q.recoveryQuantity == RecoveryQuantity(i, debt, Times(gain, i.multiplier)))
            && (gain > 0.0 ==> q.recoveryProfit == Times(q.recoveryQuantity, Times(gain, i.multiplier)))
  {
    TimesPositiveIf(if side == Sell then v.price - QuantizeLimitPrice(tpPrice, i.tickSize, Buy, Passive)
                    else QuantizeLimitPrice(tpPrice, i.tickSize, Sell, Passive) - v.price, i.multiplier);
    PriceIsRoundedAway(tpPrice, i.tickSize, if side == Buy then Sell else Buy, Passive);
    PriceIsRoundedAway(stopPrice, i.tickSize, if side == Buy then Sell else Buy, Aggressive);
  }

  lemma TimesPositiveIf(a: real, b: real)
    requires b > 0.0
    ensures Times(a, b) > 0.0 <==> a > 0.0
    ensures Times(0.0, b) == 0.0
  {}

  /** What an error of the rounded hedge says; without profit the debt is never paid. */
  predicate HedgeBreach(reason: Reason, q: QuantizedRisk, side: Side, debt: real, maximumNotional: real,
                        maximumStopLoss: real) {
    || (reason == TakeProfitNotProfitable && (if side == Sell then q.tp >= q.entry else q.tp <= q.entry))
    || (reason == StopNotAdverse && (if side == Sell then q.stop <= q.entry else q.stop >= q.entry))
    || (reason == RecoveryProfitIsZero && debt > 0.0 && (if side == Sell then q.tp >= q.entry else q.tp <= q.entry))
    || (reason == NotionalAboveLimit && q.notional > maximumNotional)
    || (reason == StopLossAboveLimit && q.projectedStopLoss > maximumStopLoss)
  }

  /** The errors of a hedge in its own figures. */
  lemma HedgeErrorsAre(v: Validation, i: Instrument, side: Side, tpPrice: real, stopPrice: real, debt: real,
                       maximumNotional: real, maximumStopLoss: real)
    requires debt >= 0.0
    ensures var q := RecalculateQuantizedRisk(v, i, side, tpPrice, stopPrice, debt, maximumNotional, maximumStopLoss);
            var gain, loss := ProfitDistance(side, q.entry, q.tp), AdverseDistance(side, q.entry, q.stop);
            q.errors == v.errors + AmountErrors(gain, loss, debt > 0.0 && gain <= 0.0)
                        + LimitErrors(q.notional, maximumNotional, q.projectedStopLoss, maximumStopLoss)
  {
    var q := RecalculateQuantizedRisk(v, i, side, tpPrice, stopPrice, debt, maximumNotional, maximumStopLoss);
    var gain := ProfitDistance(side, q.entry, q.tp);
    TimesPositiveIf(gain, i.multiplier);
    assert Times(Positive(gain), i.multiplier) == 0.0 <==> gain <= 0.0;
  }

  /** Each error is one of the order or given exactly when its condition holds. */
  lemma HedgeErrorsAreTheBreaches(v: Validation, i: Instrument, side: Side, tpPrice: real, stopPrice: real, debt: real,
                                  maximumNotional: real, maximumStopLoss: real, reason: Reason)
    requires debt >= 0.0
    ensures var q := RecalculateQuantizedRisk(v, i, side, tpPrice, stopPrice, debt, maximumNotional, maximumStopLoss);
            reason in q.errors
            <==> reason in v.errors || HedgeBreach(reason, q, side, debt, maximumNotional, maximumStopLoss)
  {
    var q := RecalculateQuantizedRisk(v, i, side, tpPrice, stopPrice, debt, maximumNotional, maximumStopLoss);
    HedgeErrorsAre(v, i, side, tpPrice, stopPrice, debt, maximumNotional, maximumStopLoss);
    HedgeErrorIn(v.errors, q, side, debt, maximumNotional, maximumStopLoss, reason);
  }

  lemma HedgeErrorIn(before: seq<Reason>, q: QuantizedRisk, side: Side, debt: real, maximumNotional: real,
                     maximumStopLoss: real, reason: Reason)
    ensures var gain, loss := ProfitDistance(side, q.entry, q.tp), AdverseDistance(side, q.entry, q.stop);
            reason in before + AmountErrors(gain, loss, debt > 0.0 && gain <= 0.0)
                      + LimitErrors(q.notional, maximumNotional, q.projectedStopLoss, maximumStopLoss)
            <==> reason in before || HedgeBreach(reason, q, side, debt, maximumNotional, maximumStopLoss)
  {
    var gain, loss := ProfitDistance(side, q.entry, q.tp), AdverseDistance(side, q.entry, q.stop);
    var unpaid := debt > 0.0 && gain <= 0.0;
    InThree(before, AmountErrors(gain, loss, unpaid),
            LimitErrors(q.notional, maximumNotional, q.projectedStopLoss, maximumStopLoss), reason);
    AmountErrorIn(gain, loss, unpaid, reason);
    LimitErrorIn(q.notional, maximumNotional, q.projectedStopLoss, maximumStopLoss, reason);
  }

  lemma AmountErrorIn(gain: real, loss: real, unpaid: bool, reason: Reason)
    ensures reason in AmountErrors(gain, loss, unpaid) <==>
              || (reason == TakeProfitNotProfitable && gain <= 0.0) || (reason == StopNotAdverse && loss <= 0.0)
              || (reason == RecoveryProfitIsZero && unpaid)
  {}

  lemma LimitErrorIn(notional: real, maximumNotional: real, projected: real, maximumStopLoss: real, reason: Reason)
    ensures reason in LimitErrors(notional, maximumNotional, projected, maximumStopLoss) <==>
              || (reason == NotionalAboveLimit && notional > maximumNotional)
              || (reason == StopLossAboveLimit && projected > maximumStopLoss)
  {}

  /** A hedge is accepted exactly when its order is, its take-profit gains and its stop
      loses, and loss and notional are within the limits. */
  lemma AcceptanceIsExact(v: Validation, i: Instrument, side: Side, tpPrice: real, stopPrice: real, debt: real,
                          maximumNotional: real, maximumStopLoss: real)
    requires debt >= 0.0
    ensures var q := RecalculateQuantizedRisk(v, i, side, tpPrice, stopPrice, debt, maximumNotional, maximumStopLoss);
            q.Accepted() <==>
              && v.Accepted()
              && (if side == Sell then q.tp < q.entry < q.stop else q.stop < q.entry < q.tp)
              && q.notional <= maximumNotional && q.projectedStopLoss <= maximumStopLoss
  {
    var tp := QuantizeLimitPrice(tpPrice, i.tickSize, if side == Buy then Sell else Buy, Passive);
    if ProfitDistance(side, v.price, tp) > 0.0 { TimesPositive(ProfitDistance(side, v.price, tp), i.multiplier); }
  }

  /** The recovery quantity is the smallest on the grid whose profit pays the debt. */
  lemma RecoveryQuantityIsLeast(i: Instrument, debt: real, profitPerUnit: real)
    requires debt > 0.0 && profitPerUnit > 0.0
    ensures var r := RecoveryQuantity(i, debt, profitPerUnit);
            && OnGrid(r, i.qtyStep)
            && Times(r, profitPerUnit) >= debt && Times(r - i.qtyStep, profitPerUnit) < debt
  {
    var r := RecoveryQuantity(i, debt, profitPerUnit);
    QuotientBack(debt, profitPerUnit);
    StepRounding(debt / profitPerUnit, i.qtyStep);
    RoundingIsOnGrid(debt / profitPerUnit, i.qtyStep);
    TimesLe(debt / profitPerUnit, r, profitPerUnit);
    TimesGrows(r - i.qtyStep, debt / profitPerUnit, profitPerUnit);
  }

  /** The debt passed in changes the recovery figures but never the acceptance,
      the quantity, the prices or the risk amounts. */
  lemma DebtDoesNotDecide(v: Validation, i: Instrument, side: Side, tp: real, stop: real, debt: real, maxNotional: real,
                          maxLoss: real)
    requires debt >= 0.0
    ensures var a := RecalculateQuantizedRisk(v, i, side, tp, stop, debt, maxNotional, maxLoss);
            var b := RecalculateQuantizedRisk(v, i, side, tp, stop, 0.0, maxNotional, maxLoss);
            && (a.Accepted() <==> b.Accepted())
            && a.quantity == b.quantity && a.entry == b.entry && a.notional == b.notional
            && a.tp == b.tp && a.stop == b.stop && a.tpProfit == b.tpProfit
            && a.projectedStopLoss == b.projectedStopLoss
  {
    var exitSide := if side == Buy then Sell else Buy;
    var t := QuantizeLimitPrice(tp, i.tickSize, exitSide, Passive);
    if ProfitDistance(side, v.price, t) > 0.0 {
      TimesPositive(ProfitDistance(side, v.price, t), i.multiplier);
    }
  }
}
