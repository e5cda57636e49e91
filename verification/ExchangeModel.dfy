/** The simulated exchange as a function of its operations: orders, market price,
    account and event log. Random draws are part of the operation. */
module ExchangeModel {
  import opened Products
  import opened InstrumentRules
  import opened ClientOrderIds
  import opened ExchangeAccounts

  datatype OrderType = Market | LimitOrder
  datatype TimeInForce = Gtc | Ioc | Fok | PostOnly
  datatype TriggerRule = Untriggered | RisesTo(price: real) | FallsTo(price: real)

  datatype RequestRecord = Request(link: ClientOrderId, category: Category, symbol: Symbol, side: Side,
                                   orderType: OrderType, quantity: real, price: real, force: TimeInForce,
                                   reduceOnly: bool, trigger: TriggerRule)

  /** `price` is the limit of a limit order. */
  type PlaceRequest = r: RequestRecord | r.quantity > 0.0
    witness Request(Parts("A", 0, 0, OptionLong, 0, "0000"), Linear, EthUsdt, Sell, Market, 1.0, 1.0, Gtc, false,
                    Untriggered)

  datatype Status = New | AwaitsTrigger | PartiallyFilled | Filled | Cancelled

  datatype Order = Order(request: PlaceRequest, fillMs: int, status: Status, filled: real, notional: real,
                         partialPlanned: bool, partialDone: bool)

  predicate IsActive(status: Status) {
    status == New || status == AwaitsTrigger || status == PartiallyFilled
  }

  const BPS := 10000.0

  datatype ConfigRecord = Config(symbol: Symbol, qtyStep: real, ackDelay: nat, fillDelay: nat, partialFraction: real,
                                 makerFee: real, takerFee: real, entrySlippage: real, stopSlippage: real, spread: real)

  /** What the configuration checks, and spread and slippages below 100 percent. */
  type Config = c: ConfigRecord
    | c.qtyStep > 0.0 && 0.0 < c.partialFraction < 1.0 && c.makerFee >= 0.0 && c.takerFee >= 0.0
      && 0.0 <= c.entrySlippage < BPS && 0.0 <= c.stopSlippage < BPS && 0.0 <= c.spread < BPS
    witness ConfigRecord.Config(EthUsdt, 1.0, 0, 0, 0.5, 0.0, 0.0, 0.0, 0.0, 0.0)

  datatype Venue = Venue(now: int, price: real, orders: seq<Order>, account: Account, log: seq<Event>)

  function Note(v: Venue, notice: Notice): Venue {
    v.(log := v.log + [Noted(notice)])
  }

  // ----- fills

  function Bid(c: Config, price: real): real {
    Times(price, 1.0 - c.spread / BPS)
  }

  function Ask(c: Config, price: real): real {
    Times(price, 1.0 + c.spread / BPS)
  }

  predicate TriggerHit(rule: TriggerRule, price: real) {
    match rule
    case Untriggered => true
    case RisesTo(level) => price >= level
    case FallsTo(level) => price <= level
  }

  predicate Eligible(c: Config, price: real, r: PlaceRequest) {
    TriggerHit(r.trigger, price)
    && (r.orderType == Market || if r.side == Sell then Bid(c, price) >= r.price else Ask(c, price) <= r.price)
  }

  function ExecutionPrice(c: Config, price: real, r: PlaceRequest): real {
    var slippage := if r.link.role == HedgeEntry then c.entrySlippage
                    else if r.link.role == HedgeStop then c.stopSlippage else 0.0;
    if r.side == Sell then Times(Bid(c, price), 1.0 - slippage / BPS) else Times(Ask(c, price), 1.0 + slippage / BPS)
  }

  /** What is left to fill; a reduce-only order fills no more than the position. */
  function Remaining(o: Order, position: real): real {
    var left := o.request.quantity - o.filled;
    if o.request.reduceOnly then Lesser(left, position) else left
  }

  /** The planned partial fill of an order, if it fits. */
  function PartialQuantity(c: Config, o: Order): real {
    FloorToStep(Times(o.request.quantity, c.partialFraction), c.qtyStep)
  }

  predicate FillsPartially(c: Config, o: Order, remaining: real) {
    o.partialPlanned && !o.partialDone && 0.0 < PartialQuantity(c, o) < remaining
  }

  function FillQuantity(c: Config, o: Order, remaining: real): real {
    if FillsPartially(c, o, remaining) then PartialQuantity(c, o) else remaining
  }

  function ExecutionOf(c: Config, price: real, r: PlaceRequest, quantity: real): Execution
    requires quantity > 0.0
  {
    var fillPrice := ExecutionPrice(c, price, r);
    var rate := if r.orderType == LimitOrder then c.makerFee else c.takerFee;
    Executed(fillPrice, quantity, Times(Times(fillPrice, quantity), rate), r.side, r.link.role)
  }

  function OrderAfter(o: Order, quantity: real, price: real, partial: bool): Order {
    var filled := o.filled + quantity;
    o.(filled := filled, notional := o.notional + Times(price, quantity),
       status := if filled == o.request.quantity then Filled else PartiallyFilled,
       partialDone := o.partialDone || partial)
  }

  function FillOrder(c: Config, v: Venue, i: nat): (r: Venue)
    requires i < |v.orders|
    ensures |r.orders| == |v.orders|
  {
    var o := v.orders[i];
    var remaining := Remaining(o, v.account.position);
    if remaining <= 0.0 then v.(orders := v.orders[i := o.(status := Cancelled)])
    else
      var x := ExecutionOf(c, v.price, o.request, FillQuantity(c, o, remaining));
      v.(orders := v.orders[i := OrderAfter(o, x.quantity, x.price, FillsPartially(c, o, remaining))],
         account := ApplyPosition(v.account, x),
         log := v.log + [ExecutionEvent(x)])
  }

  function ProcessOrder(c: Config, v: Venue, i: nat): (r: Venue)
    requires i < |v.orders|
    ensures |r.orders| == |v.orders|
  {
    var o := v.orders[i];
    if !IsActive(o.status) || v.now < o.fillMs then v
    else if !Eligible(c, v.price, o.request) then
      (if o.request.force == Ioc && o.request.trigger == Untriggered
       then v.(orders := v.orders[i := o.(status := Cancelled)])
       else v)
    else FillOrder(c, v, i)
  }

  /** The first `n` orders processed, oldest first. */
  function ProcessOrders(c: Config, v: Venue, n: nat): (r: Venue)
    requires n <= |v.orders|
    ensures |r.orders| == |v.orders|
  {
    if n == 0 then v else ProcessOrder(c, ProcessOrders(c, v, n - 1), n - 1)
  }

  function AdvanceTime(c: Config, v: Venue, elapsed: int): Venue {
    var later := v.(now := v.now + elapsed);
    ProcessOrders(c, later, |later.orders|)
  }

  // ----- operations

  datatype Change = Keep | Set(value: real)
  {
    predicate Positive() {
      Set? ==> value > 0.0
    }

    function Over(current: real): real {
      if Set? then value else current
    }
  }

  datatype Amendment = Amendment(quantity: Change, price: Change, trigger: Change)

  datatype Operation =
    | AdvanceClock(elapsed: int)
    | AdvanceMarket(price: real, elapsed: int)
    | ApplyFunding(rate: real)
    | PlaceOrder(request: PlaceRequest, rejected: bool, partialPlanned: bool, uncertain: bool)
    | AmendOrder(link: ClientOrderId, change: Amendment)
    | CancelOrder(link: ClientOrderId)
    | CancelAll(category: Category, anySymbol: bool, symbol: Symbol)
    | SetConnection

  datatype Ending = Done | Raised

  /** The position of an order in the book, or the length of the book. */
  function IndexOf(orders: seq<Order>, link: ClientOrderId): (i: nat)
    ensures i <= |orders| && (i < |orders| ==> orders[i].request.link == link)
    ensures forall j | 0 <= j < i :: orders[j].request.link != link
  {
    if |orders| == 0 then 0
    else
      var i := IndexOf(orders[..|orders| - 1], link);
      if i < |orders| - 1 then i
      else if orders[|orders| - 1].request.link == link then |orders| - 1 else |orders|
  }

  /** At least one change, all of them positive, and neither a price for a market
      order nor a trigger for an order without one. */
  predicate CanAmend(o: Order, change: Amendment) {
    && IsActive(o.status) && change != Amendment(Keep, Keep, Keep)
    && change.quantity.Positive() && change.price.Positive() && change.trigger.Positive()
    && (change.price.Set? ==> o.request.orderType == LimitOrder)
    && (change.trigger.Set? ==> o.request.trigger != Untriggered)
  }

  function AmendedRequest(r: PlaceRequest, change: Amendment): PlaceRequest
    requires change.quantity.Positive()
  {
    r.(quantity := change.quantity.Over(r.quantity),
       price := change.price.Over(r.price),
       trigger := match r.trigger
                  case Untriggered => Untriggered
                  case RisesTo(level) => RisesTo(change.trigger.Over(level))
                  case FallsTo(level) => FallsTo(change.trigger.Over(level)))
  }

  function Affected(o: Order, category: Category, anySymbol: bool, symbol: Symbol): bool {
    o.request.category == category && (anySymbol || o.request.symbol == symbol) && IsActive(o.status)
  }

  function CancelFirst(orders: seq<Order>, n: nat, category: Category, anySymbol: bool, symbol: Symbol): (r: seq<Order>)
    requires n <= |orders|
    ensures |r| == |orders|
    ensures forall i | 0 <= i < |orders| ::
              r[i] == if i < n && Affected(orders[i], category, anySymbol, symbol)
                      then orders[i].(status := Cancelled)
                      else orders[i]
  {
    seq(|orders|, i requires 0 <= i < |orders| =>
      if i < n && Affected(orders[i], category, anySymbol, symbol) then orders[i].(status := Cancelled) else orders[i])
  }

  lemma CancelFirstStep(orders: seq<Order>, i: nat, category: Category, anySymbol: bool, symbol: Symbol)
    requires i < |orders|
    ensures var r := CancelFirst(orders, i, category, anySymbol, symbol);
            CancelFirst(orders, i + 1, category, anySymbol, symbol)
            == r[i := if Affected(r[i], category, anySymbol, symbol) then r[i].(status := Cancelled) else r[i]]
  {}

  function PlacedOrder(c: Config, v: Venue, r: PlaceRequest, partialPlanned: bool): Order {
    var status := if r.trigger == Untriggered then New else AwaitsTrigger;
    Order(r, v.now + c.fillDelay, status, 0.0, 0.0, partialPlanned, false)
  }

  function Advance(c: Config, v: Venue, elapsed: int): (Venue, Ending) {
    if elapsed < 0 then (v, Raised) else (AdvanceTime(c, v, elapsed), Done)
  }

  function Funded(v: Venue, rate: real): Venue {
    var payment := Times(Times(v.account.position, v.price), rate);
    v.(account := v.account.(funding := v.account.funding + payment), log := v.log + [FundingApplied(payment)])
  }

  function Accepted(c: Config, v: Venue, r: PlaceRequest, partialPlanned: bool): Venue {
    Note(v.(orders := v.orders + [PlacedOrder(c, v, r, partialPlanned)]), OrderAccepted)
  }

  function Place(c: Config, v: Venue, r: PlaceRequest, rejected: bool, partialPlanned: bool, uncertain: bool)
    : (Venue, Ending)
  {
    if r.symbol != c.symbol || IndexOf(v.orders, r.link) < |v.orders| then (v, Raised)
    else if rejected then (Note(v, OrderRejected), Raised)
    else
      var placed := AdvanceTime(c, Accepted(c, v, r, partialPlanned), c.ackDelay);
      if uncertain then (Note(placed, AckUncertain), Raised) else (placed, Done)
  }

  function Amend(v: Venue, link: ClientOrderId, change: Amendment): (Venue, Ending) {
    var i := IndexOf(v.orders, link);
    if i == |v.orders| || !CanAmend(v.orders[i], change) then (v, Raised)
    else
      var o := v.orders[i];
      (Note(v.(orders := v.orders[i := o.(request := AmendedRequest(o.request, change))]), OrderAmended), Done)
  }

  function Cancel(v: Venue, link: ClientOrderId): (Venue, Ending) {
    var i := IndexOf(v.orders, link);
    if i == |v.orders| then (v, Raised)
    else
      var o := v.orders[i];
      (Note(v.(orders := v.orders[i := if IsActive(o.status) then o.(status := Cancelled) else o]), OrderCancelled),
       Done)
  }

  function CancelEvery(v: Venue, category: Category, anySymbol: bool, symbol: Symbol): Venue {
    Note(v.(orders := CancelFirst(v.orders, |v.orders|, category, anySymbol, symbol)), AllCancelled)
  }

  function Perform(c: Config, v: Venue, op: Operation): (Venue, Ending) {
    match op
    case AdvanceClock(elapsed) => Advance(c, v, elapsed)
    case AdvanceMarket(price, elapsed) => if price <= 0.0 then (v, Raised) else Advance(c, v.(price := price), elapsed)
    case ApplyFunding(rate) => (Funded(v, rate), Done)
    case PlaceOrder(r, rejected, partialPlanned, uncertain) => Place(c, v, r, rejected, partialPlanned, uncertain)
    case AmendOrder(link, change) => Amend(v, link, change)
    case CancelOrder(link) => Cancel(v, link)
    case CancelAll(category, anySymbol, symbol) => (CancelEvery(v, category, anySymbol, symbol), Done)
    case SetConnection => (Note(v, Connection), Done)
  }

  function NewVenue(price: real): Venue {
    Venue(0, price, [], NEW_ACCOUNT, [])
  }

  /** The exchange after a sequence of operations; failed ones count too. */
  function Run(c: Config, price: real, ops: seq<Operation>): Venue {
    if |ops| == 0 then NewVenue(price) else Perform(c, Run(c, price, ops[..|ops| - 1]), ops[|ops| - 1]).0
  }

  lemma RunOfMore(c: Config, price: real, ops: seq<Operation>, op: Operation)
    ensures Run(c, price, ops + [op]) == Perform(c, Run(c, price, ops), op).0
  {
    assert (ops + [op])[..|ops|] == ops;
  }
}
