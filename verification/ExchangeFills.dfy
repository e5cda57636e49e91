/** When the simulated exchange fills an order, at which price and for which fee, in
    terms of the request and the market alone. */
module ExchangeFills {
  import opened Products
  import opened InstrumentRules
  import opened ClientOrderIds
  import opened ExchangeAccounts
  import opened ExchangeModel
  import opened ExchangeRuns

  // ----- the terms of a fill

  /** The market has reached the trigger of the request, and bid or ask its limit. */
  predicate Met(c: Config, price: real, r: PlaceRequest) {
    && (r.trigger.RisesTo? ==> price >= r.trigger.price)
    && (r.trigger.FallsTo? ==> price <= r.trigger.price)
    && (r.orderType == LimitOrder && r.side == Sell ==> Times(price, 1.0 - c.spread / 10000.0) >= r.price)
    && (r.orderType == LimitOrder && r.side == Buy ==> Times(price, 1.0 + c.spread / 10000.0) <= r.price)
  }

  /** The execution is on this request at this market price: a sale at the bid less
      slippage, a purchase at the ask plus slippage, slippage only on hedge entries
      and hedge stops, and the maker rate exactly for limit orders. */
  predicate Priced(c: Config, price: real, r: PlaceRequest, x: Execution) {
    var slippage := match r.link.role
                    case HedgeEntry => c.entrySlippage
                    case HedgeStop => c.stopSlippage
                    case _ => 0.0;
    && x.side == r.side && x.role == r.link.role
    && (r.side == Sell ==> x.price == Times(Times(price, 1.0 - c.spread / 10000.0), 1.0 - slippage / 10000.0))
    && (r.side == Buy ==> x.price == Times(Times(price, 1.0 + c.spread / 10000.0), 1.0 + slippage / 10000.0))
    && (r.orderType == LimitOrder ==> x.fee == Times(Times(x.price, x.quantity), c.makerFee))
    && (r.orderType == Market ==> x.fee == Times(Times(x.price, x.quantity), c.takerFee))
  }

  lemma ExecutionIsPriced(c: Config, price: real, r: PlaceRequest, quantity: real)
    requires quantity > 0.0
    ensures ExecutionOf(c, price, r, quantity).quantity == quantity
    ensures Priced(c, price, r, ExecutionOf(c, price, r, quantity))
  {}

  lemma EligibleIffMet(c: Config, price: real, r: PlaceRequest)
    ensures Eligible(c, price, r) <==> Met(c, price, r)
  {}

  /** Sales fill at or below the market and purchases at or above it. */
  lemma FillsCostTheSpread(c: Config, price: real, r: PlaceRequest, x: Execution)
    requires price > 0.0 && Priced(c, price, r, x)
    ensures r.side == Sell ==> 0.0 < x.price <= Times(price, 1.0 - c.spread / 10000.0) <= price
    ensures r.side == Buy ==> x.price >= Times(price, 1.0 + c.spread / 10000.0) >= price
    ensures x.fee >= 0.0
  {
    var sign := if r.side == Sell then -1.0 else 1.0;
    var slippage := if r.link.role == HedgeEntry then c.entrySlippage
                    else if r.link.role == HedgeStop then c.stopSlippage else 0.0;
    var first := Times(price, 1.0 + Times(sign, c.spread / BPS));
    FractionKeepsPositive(price, c.spread);
    TimesLe(if r.side == Sell then 1.0 - c.spread / BPS else 1.0, if r.side == Sell then 1.0 else 1.0 + c.spread / BPS,
            price);
    assert Times(price, 1.0) == price && Times(first, 1.0) == first;
    assert first == if r.side == Sell then Times(price, 1.0 - c.spread / BPS) else Times(price, 1.0 + c.spread / BPS);
    FractionKeepsPositive(first, slippage);
    TimesLe(if r.side == Sell then 1.0 - slippage / BPS else 1.0, if r.side == Sell then 1.0 else 1.0 + slippage / BPS,
            first);
    TimesPositive(x.price, x.quantity);
    TimesLe(0.0, Times(x.price, x.quantity), if r.orderType == LimitOrder then c.makerFee else c.takerFee);
  }

  // ----- one order

  /** What an order has left to fill: a reduce-only order no more than the position. */
  function Left(o: Order, position: real): real {
    var left := o.request.quantity - o.filled;
    if o.request.reduceOnly && position < left then position else left
  }

  /** The part of the quantity that a planned partial fill takes, rounded down. */
  ghost predicate IsPlannedPart(c: Config, o: Order, part: real) {
    && OnGrid(part, c.qtyStep)
    && part <= Times(o.request.quantity, c.partialFraction) < part + c.qtyStep
  }

  /** The quantity of the next fill: the planned part once, if it is positive and less
      than what is left; everything that is left otherwise. */
  ghost predicate IsNextFill(c: Config, o: Order, left: real, quantity: real) {
    exists part :: IsPlannedPart(c, o, part)
                   && quantity == if o.partialPlanned && !o.partialDone && 0.0 < part < left then part else left
  }

  lemma FillQuantityIsNext(c: Config, o: Order, left: real)
    requires left > 0.0
    ensures IsNextFill(c, o, left, FillQuantity(c, o, left)) && 0.0 < FillQuantity(c, o, left) <= left
  {
    StepRounding(Times(o.request.quantity, c.partialFraction), c.qtyStep);
    RoundingIsOnGrid(Times(o.request.quantity, c.partialFraction), c.qtyStep);
    assert IsPlannedPart(c, o, PartialQuantity(c, o));
  }

  /** The order was filled once more, and the account and the log with it. */
  ghost predicate FilledBy(c: Config, v: Venue, i: nat, r: Venue, x: Execution)
    requires i < |v.orders| == |r.orders|
  {
    var o, n := v.orders[i], r.orders[i];
    && Priced(c, v.price, o.request, x) && IsNextFill(c, o, Left(o, v.account.position), x.quantity)
    && n.request == o.request && n.filled == o.filled + x.quantity
    && n.notional == o.notional + Times(x.price, x.quantity)
    && n.status == (if n.filled == o.request.quantity then Filled else PartiallyFilled)
    && (n.partialDone <==> o.partialDone || x.quantity < Left(o, v.account.position))
    && r.log == v.log + [ExecutionEvent(x)] && r.account == ApplyPosition(v.account, x)
  }

  /** Looking at one order fills it exactly when it is active, due and met and has
      something left; it is cancelled when nothing is left, or when it would only
      take what is there at once; and it is left alone otherwise. */
  lemma ProcessOrderIsExact(c: Config, v: Venue, i: nat)
    requires i < |v.orders|
    ensures var o, r := v.orders[i], ProcessOrder(c, v, i);
            var active := o.status == New || o.status == AwaitsTrigger || o.status == PartiallyFilled;
            var due := active && v.now >= o.fillMs;
            && r.now == v.now && r.price == v.price && r.orders == v.orders[i := r.orders[i]]
            && (due && Met(c, v.price, o.request) && Left(o, v.account.position) > 0.0 ==>
                  exists x :: FilledBy(c, v, i, r, x))
            && (due && Met(c, v.price, o.request) && Left(o, v.account.position) <= 0.0 ==>
                  r.orders[i] == o.(status := Cancelled) && r.account == v.account && r.log == v.log)
            && (due && !Met(c, v.price, o.request) ==>
                  && r.orders[i] == (if o.request.force == Ioc && o.request.trigger == Untriggered
                                     then o.(status := Cancelled) else o)
                  && r.account == v.account && r.log == v.log)
            && (!due ==> r == v)
  {
    var o := v.orders[i];
    var left := Left(o, v.account.position);
    EligibleIffMet(c, v.price, o.request);
    if left > 0.0 {
      var x := ExecutionOf(c, v.price, o.request, FillQuantity(c, o, left));
      FillQuantityIsNext(c, o, left);
      ExecutionIsPriced(c, v.price, o.request, FillQuantity(c, o, left));
      if IsActive(o.status) && v.now >= o.fillMs && Met(c, v.price, o.request) {
        assert FilledBy(c, v, i, ProcessOrder(c, v, i), x);
      }
    }
  }

  // ----- all orders

  /** What was filled of order i before. */
  function FilledBefore(v: Venue, i: nat): real {
    if i < |v.orders| then v.orders[i].filled else 0.0
  }

  /** From v to r only orders were filled that the market price of r meets, and every
      execution logged on the way is on such an order, at its terms. */
  ghost predicate FillsMet(c: Config, v: Venue, r: Venue) {
    && v.log <= r.log
    && (forall i: nat | i < |r.orders| && r.orders[i].filled != FilledBefore(v, i) ::
          Met(c, r.price, r.orders[i].request))
    && forall k | |v.log| <= k < |r.log| && r.log[k].ExecutionEvent? :: HasOrder(c, r, r.log[k].execution)
  }

  ghost predicate HasOrder(c: Config, r: Venue, x: Execution) {
    exists i: nat :: i < |r.orders| && Met(c, r.price, r.orders[i].request)
                     && Priced(c, r.price, r.orders[i].request, x)
  }

  lemma HasOrderStill(c: Config, v: Venue, r: Venue, x: Execution)
    requires HasOrder(c, v, x) && r.price == v.price && |v.orders| <= |r.orders|
    requires forall i: nat | i < |v.orders| :: r.orders[i].request == v.orders[i].request
    ensures HasOrder(c, r, x)
  {
    var i: nat :| i < |v.orders| && Met(c, v.price, v.orders[i].request) && Priced(c, v.price, v.orders[i].request, x);
    assert Met(c, r.price, r.orders[i].request) && Priced(c, r.price, r.orders[i].request, x);
  }

  /** What processing keeps of a venue: price, time, and the requests of all orders. */
  predicate SameRequests(v: Venue, r: Venue) {
    && r.price == v.price && r.now == v.now && |r.orders| == |v.orders|
    && forall i: nat | i < |v.orders| :: r.orders[i].request == v.orders[i].request
  }

  lemma ProcessFillsMet(c: Config, v: Venue, u: Venue, i: nat)
    requires i < |u.orders| && FillsMet(c, v, u)
    ensures FillsMet(c, v, ProcessOrder(c, u, i)) && SameRequests(u, ProcessOrder(c, u, i))
  {
    var r := ProcessOrder(c, u, i);
    ProcessOrderIsExact(c, u, i);
    if r.log != u.log {
      var x :| FilledBy(c, u, i, r, x);
      assert HasOrder(c, r, x);
    }
    forall k | |v.log| <= k < |u.log| && u.log[k].ExecutionEvent? ensures HasOrder(c, r, u.log[k].execution) {
      HasOrderStill(c, u, r, u.log[k].execution);
    }
  }

  lemma {:induction false} ProcessAllFillsMet(c: Config, v: Venue, u: Venue, n: nat)
    requires n <= |u.orders| && FillsMet(c, v, u)
    ensures FillsMet(c, v, ProcessOrders(c, u, n)) && SameRequests(u, ProcessOrders(c, u, n))
  {
    if n > 0 {
      ProcessAllFillsMet(c, v, u, n - 1);
      ProcessFillsMet(c, v, ProcessOrders(c, u, n - 1), n - 1);
    }
  }

  /** Order i is looked at once, in its turn; nothing else touches it. */
  lemma {:induction false} LookedAtOnce(c: Config, v: Venue, n: nat, i: nat) returns (u: Venue)
    requires n <= |v.orders| && i < |v.orders|
    ensures SameRequests(v, u) && u.orders[i] == v.orders[i]
    ensures ProcessOrders(c, v, n).orders[i] == if i < n then ProcessOrder(c, u, i).orders[i] else v.orders[i]
  {
    if n == 0 {
      u := v;
    } else {
      var before := ProcessOrders(c, v, n - 1);
      u := LookedAtOnce(c, v, n - 1, i);
      ProcessOrderIsExact(c, before, n - 1);
      ProcessKeepsRequests(c, v, n - 1);
      if i == n - 1 { u := before; }
    }
  }

  lemma {:induction false} ProcessKeepsRequests(c: Config, v: Venue, n: nat)
    requires n <= |v.orders|
    ensures SameRequests(v, ProcessOrders(c, v, n))
  {
    if n > 0 {
      ProcessKeepsRequests(c, v, n - 1);
      ProcessOrderIsExact(c, ProcessOrders(c, v, n - 1), n - 1);
    }
  }

  /** When time passes, every active order that is due then and met is filled further
      or, with nothing left, cancelled; without a planned part a plain order is
      filled completely. */
  lemma MetOrdersAreServed(c: Config, v: Venue, elapsed: nat, i: nat)
    requires i < |v.orders| && v.now + elapsed >= v.orders[i].fillMs && Met(c, v.price, v.orders[i].request)
    requires v.orders[i].status == New || v.orders[i].status == AwaitsTrigger || v.orders[i].status == PartiallyFilled
    ensures var o, r := v.orders[i], Perform(c, v, AdvanceClock(elapsed)).0.orders[i];
            && (r.status == Cancelled || r.filled > o.filled)
            && (!o.request.reduceOnly && o.request.quantity > o.filled && (!o.partialPlanned || o.partialDone) ==>
                  r.status == Filled && r.filled == o.request.quantity)
  {
    var later := v.(now := v.now + elapsed);
    var u := LookedAtOnce(c, later, |later.orders|, i);
    ProcessOrderIsExact(c, u, i);
  }

  // ----- whole runs

  lemma PlaceFillsMet(c: Config, v: Venue, op: Operation)
    requires op.PlaceOrder?
    ensures FillsMet(c, v, Perform(c, v, op).0)
  {
    var added := Accepted(c, v, op.request, op.partialPlanned);
    ProcessAllFillsMet(c, v, added.(now := added.now + c.ackDelay), |added.orders|);
    var placed := AdvanceTime(c, added, c.ackDelay);
    forall x | HasOrder(c, placed, x) ensures HasOrder(c, Note(placed, AckUncertain), x) {
      HasOrderStill(c, placed, Note(placed, AckUncertain), x);
    }
  }

  /** No operation fills an order unless the market price it leaves meets the order. */
  lemma OperationFillsMet(c: Config, v: Venue, op: Operation)
    ensures FillsMet(c, v, Perform(c, v, op).0)
  {
    match op
    case AdvanceClock(elapsed) => ProcessAllFillsMet(c, v, v.(now := v.now + elapsed), |v.orders|);
    case AdvanceMarket(price, elapsed) =>
      ProcessAllFillsMet(c, v, v.(price := price, now := v.now + elapsed), |v.orders|);
    case PlaceOrder(_, _, _, _) => PlaceFillsMet(c, v, op);
    case _ =>
  }

  /** Every execution in the log of a run was booked by an operation that left a
      market price meeting its order, at the terms of that order. */
  lemma {:induction false} ExecutionsHaveTheirOrders(c: Config, price: real, ops: seq<Operation>, n: nat)
    returns (k: nat)
    requires n < |Run(c, price, ops).log| && Run(c, price, ops).log[n].ExecutionEvent?
    ensures k < |ops| && HasOrder(c, Run(c, price, ops[..k + 1]), Run(c, price, ops).log[n].execution)
  {
    var last := |ops| - 1;
    var before := Run(c, price, ops[..last]);
    OperationFillsMet(c, before, ops[last]);
    if n < |before.log| {
      k := ExecutionsHaveTheirOrders(c, price, ops[..last], n);
      assert ops[..last][..k + 1] == ops[..k + 1];
    } else {
      k := last;
      assert ops[..last + 1] == ops;
    }
  }

  // ----- limits and slippage

  /** No limit order ever fills worse than its limit. */
  ghost predicate LimitsKept(c: Config) {
    forall price: real, r: PlaceRequest | price > 0.0 && r.orderType == LimitOrder && Met(c, price, r) ::
      if r.side == Sell then ExecutionPrice(c, price, r) >= r.price else ExecutionPrice(c, price, r) <= r.price
  }

  function LimitSale(c: Config, price: real, role: Role): PlaceRequest {
    var link: ClientOrderId := Parts("A", 0, 0, role, 0, "0000");
    Request(link, Linear, c.symbol, Sell, LimitOrder, 1.0, Bid(c, price), Gtc, false, Untriggered)
  }

  /** The exchange charges slippage on limit orders too: it keeps their limits exactly
      when it charges none. */
  lemma LimitsKeptIffNoSlippage(c: Config)
    ensures LimitsKept(c) <==> c.entrySlippage == 0.0 && c.stopSlippage == 0.0
  {
    if c.entrySlippage == 0.0 && c.stopSlippage == 0.0 {
      forall price: real, r: PlaceRequest | price > 0.0 && r.orderType == LimitOrder && Met(c, price, r)
        ensures if r.side == Sell then ExecutionPrice(c, price, r) >= r.price
                else ExecutionPrice(c, price, r) <= r.price
      {
        assert Times(Bid(c, price), 1.0) == Bid(c, price) && Times(Ask(c, price), 1.0) == Ask(c, price);
      }
    } else {
      var role := if c.entrySlippage > 0.0 then HedgeEntry else HedgeStop;
      var r, bid := LimitSale(c, 1.0, role), Bid(c, 1.0);
      var slippage := if c.entrySlippage > 0.0 then c.entrySlippage else c.stopSlippage;
      FractionKeepsPositive(1.0, c.spread);
      TimesGrows(1.0 - slippage / BPS, 1.0, bid);
      assert Times(1.0, bid) == bid && Times(bid, 1.0 - slippage / BPS) == Times(1.0 - slippage / BPS, bid);
      assert Met(c, 1.0, r) && ExecutionPrice(c, 1.0, r) < r.price;
    }
  }
}
