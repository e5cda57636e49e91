/** When the log of the simulated exchange replays to its own net P&L: on every run
    exactly when the configuration charges no fees at all. */
module ExchangeReplays {
  import opened Sums
  import opened Products
  import opened InstrumentRules
  import opened ClientOrderIds
  import opened ExchangeAccounts
  import opened ExchangeModel
  import opened ExchangeRuns

  ghost predicate NoneActive(orders: seq<Order>) {
    forall i | 0 <= i < |orders| :: !IsActive(orders[i].status)
  }

  lemma {:induction false} InactiveOrdersStay(c: Config, v: Venue, n: nat)
    requires n <= |v.orders| && forall i | 0 <= i < n :: !IsActive(v.orders[i].status)
    ensures ProcessOrders(c, v, n) == v
  {
    if n > 0 { InactiveOrdersStay(c, v, n - 1); }
  }

  /** The venue with this request as its newest order, still open. */
  function WithOrder(c: Config, v: Venue, r: PlaceRequest): Venue {
    Accepted(c, v, r, false)
  }

  /** The same once the order has been filled completely at the given time. */
  function WithFill(c: Config, v: Venue, r: PlaceRequest, now: int): Venue {
    var u := WithOrder(c, v, r);
    var x := ExecutionOf(c, v.price, r, r.quantity);
    Venue(now, v.price, v.orders + [OrderAfter(u.orders[|v.orders|], x.quantity, x.price, false)],
          ApplyPosition(v.account, x), u.log + [ExecutionEvent(x)])
  }

  /** An order that fills at once: untriggered, met by the price, and not capped. */
  predicate Fills(c: Config, v: Venue, r: PlaceRequest) {
    && r.symbol == c.symbol && r.trigger == Untriggered && Eligible(c, v.price, r)
    && (r.reduceOnly ==> r.quantity <= v.account.position)
  }

  lemma LateEnoughFills(c: Config, v: Venue, r: PlaceRequest, now: int)
    requires NoneActive(v.orders) && Fills(c, v, r)
    ensures var u := WithOrder(c, v, r).(now := now);
            ProcessOrders(c, u, |u.orders|) == if now < v.now + c.fillDelay then u else WithFill(c, v, r, now)
  {
    var u := WithOrder(c, v, r).(now := now);
    InactiveOrdersStay(c, u, |v.orders|);
    assert u.orders[|v.orders| := OrderAfter(u.orders[|v.orders|], r.quantity, ExecutionPrice(c, v.price, r), false)]
           == v.orders + [OrderAfter(u.orders[|v.orders|], r.quantity, ExecutionPrice(c, v.price, r), false)];
  }

  /** Placing such an order and waiting for the fill delay fills it completely,
      whether the acknowledgement takes longer than the fill or not. */
  lemma PlacedAndWaited(c: Config, v: Venue, r: PlaceRequest)
    requires NoneActive(v.orders) && Fills(c, v, r) && IndexOf(v.orders, r.link) == |v.orders|
    ensures var placed := Perform(c, v, PlaceOrder(r, false, false, false)).0;
            Perform(c, placed, AdvanceClock(c.fillDelay)).0 == WithFill(c, v, r, v.now + c.ackDelay + c.fillDelay)
  {
    Acknowledged(c, v, r);
    if c.ackDelay < c.fillDelay {
      FilledOnWaiting(c, v, r, v.now + c.ackDelay);
    } else {
      StaysFilled(c, v, r, v.now + c.ackDelay);
    }
  }

  lemma Acknowledged(c: Config, v: Venue, r: PlaceRequest)
    requires NoneActive(v.orders) && Fills(c, v, r) && IndexOf(v.orders, r.link) == |v.orders|
    ensures var acked := v.now + c.ackDelay;
            Perform(c, v, PlaceOrder(r, false, false, false)).0
            == if c.ackDelay < c.fillDelay then WithOrder(c, v, r).(now := acked) else WithFill(c, v, r, acked)
  {
    LateEnoughFills(c, v, r, v.now + c.ackDelay);
  }

  lemma FilledOnWaiting(c: Config, v: Venue, r: PlaceRequest, acked: int)
    requires NoneActive(v.orders) && Fills(c, v, r) && acked >= v.now
    ensures AdvanceTime(c, WithOrder(c, v, r).(now := acked), c.fillDelay) == WithFill(c, v, r, acked + c.fillDelay)
  {
    LateEnoughFills(c, v, r, acked + c.fillDelay);
    assert WithOrder(c, v, r).(now := acked).(now := acked + c.fillDelay)
           == WithOrder(c, v, r).(now := acked + c.fillDelay);
  }

  lemma StaysFilled(c: Config, v: Venue, r: PlaceRequest, acked: int)
    requires NoneActive(v.orders)
    ensures AdvanceTime(c, WithFill(c, v, r, acked), c.fillDelay) == WithFill(c, v, r, acked + c.fillDelay)
  {
    var filled := WithFill(c, v, r, acked);
    InactiveOrdersStay(c, filled.(now := acked + c.fillDelay), |filled.orders|);
  }

  // ----- an entry and its emergency close

  function EntryRequest(c: Config, link: ClientOrderId): PlaceRequest {
    Request(link, Linear, c.symbol, Sell, Market, 1.0, 1.0, Gtc, false, Untriggered)
  }

  /** The whole position bought back, by a market order or by a limit order at the ask. */
  function CloseRequest(c: Config, link: ClientOrderId, price: real, orderType: OrderType): PlaceRequest {
    Request(link, Linear, c.symbol, Buy, orderType, 1.0, Ask(c, price), Gtc, true, Untriggered)
  }

  function OpenAndClose(c: Config, price: real, entry: ClientOrderId, close: ClientOrderId,
                        orderType: OrderType): seq<Operation> {
    [PlaceOrder(EntryRequest(c, entry), false, false, false), AdvanceClock(c.fillDelay)]
    + [PlaceOrder(CloseRequest(c, close, price, orderType), false, false, false)] + [AdvanceClock(c.fillDelay)]
  }

  lemma EntryRuns(c: Config, price: real, entry: ClientOrderId)
    ensures var r := EntryRequest(c, entry);
            Run(c, price, [PlaceOrder(r, false, false, false), AdvanceClock(c.fillDelay)])
            == WithFill(c, NewVenue(price), r, c.ackDelay + c.fillDelay)
  {
    var r := EntryRequest(c, entry);
    var placing, waiting := PlaceOrder(r, false, false, false), AdvanceClock(c.fillDelay);
    PlacedAndWaited(c, NewVenue(price), r);
    RunOfMore(c, price, [], placing);
    RunOfMore(c, price, [placing], waiting);
    assert [] + [placing] == [placing] && [placing] + [waiting] == [placing, waiting];
  }

  /** The last event is the emergency purchase, at the rate of its order type. */
  lemma CloseRuns(c: Config, price: real, entry: ClientOrderId, close: ClientOrderId, orderType: OrderType)
    requires entry != close
    ensures var log := Run(c, price, OpenAndClose(c, price, entry, close, orderType)).log;
            |log| > 0 && log[|log| - 1]
            == ExecutionEvent(ExecutionOf(c, price, CloseRequest(c, close, price, orderType), 1.0))
  {
    var r := CloseRequest(c, close, price, orderType);
    var early := [PlaceOrder(EntryRequest(c, entry), false, false, false), AdvanceClock(c.fillDelay)];
    var placing, waiting := PlaceOrder(r, false, false, false), AdvanceClock(c.fillDelay);
    EntryRuns(c, price, entry);
    var v := Run(c, price, early);
    assert IndexOf(v.orders, close) == 1;
    PlacedAndWaited(c, v, r);
    RunOfMore(c, price, early, placing);
    RunOfMore(c, price, early + [placing], waiting);
  }

  /** A hedge that is entered and then closed in an emergency leaves a log that
      replays to more than the account has earned, as soon as the closing order
      pays a fee. */
  lemma EmergencyCloseIsOverstated(c: Config, price: real, entry: ClientOrderId, close: ClientOrderId,
                                   orderType: OrderType)
    requires price > 0.0 && entry != close && close.role == EmergencyClose
    requires (if orderType == LimitOrder then c.makerFee else c.takerFee) > 0.0
    ensures var v := Run(c, price, OpenAndClose(c, price, entry, close, orderType));
            ReplayedNet(v.log) > NetPnl(v.account)
  {
    var ops := OpenAndClose(c, price, entry, close, orderType);
    var log, r := Run(c, price, ops).log, CloseRequest(c, close, price, orderType);
    CloseRuns(c, price, entry, close, orderType);
    FeesAreNotNegative(c, price, r, 1.0);
    TimesPositive(ExecutionPrice(c, price, r), 1.0);
    TimesPositive(Times(ExecutionPrice(c, price, r), 1.0), if orderType == LimitOrder then c.makerFee else c.takerFee);
    RunReplaysUpToOtherFees(c, price, ops);
    OtherFeesNotNegative(c, price, ops);
    SumBoundsEach(OtherExitFee, log, |log| - 1);
  }

  lemma OtherFeesNotNegative(c: Config, price: real, ops: seq<Operation>)
    requires price > 0.0
    ensures forall e | e in Run(c, price, ops).log :: FeeFine(c, OtherExitFee(e))
  {
    var log := Run(c, price, ops).log;
    RunFeesFine(c, price, ops);
    forall e | e in log ensures FeeFine(c, OtherExitFee(e)) {
      var k :| 0 <= k < |log| && log[k] == e;
    }
  }

  /** Every run of this exchange replays to its own net P&L. */
  ghost predicate AlwaysReplays(c: Config) {
    forall price: real, ops: seq<Operation> | price > 0.0 ::
      ReplayedNet(Run(c, price, ops).log) == NetPnl(Run(c, price, ops).account)
  }

  lemma AlwaysReplaysIffNoFees(c: Config)
    ensures AlwaysReplays(c) <==> c.makerFee == 0.0 && c.takerFee == 0.0
  {
    if c.makerFee == 0.0 && c.takerFee == 0.0 {
      forall price: real, ops: seq<Operation> | price > 0.0
        ensures ReplayedNet(Run(c, price, ops).log) == NetPnl(Run(c, price, ops).account)
      {
        OtherFeesNotNegative(c, price, ops);
        RunReplaysUpToOtherFees(c, price, ops);
      }
    } else {
      var entry: ClientOrderId := Parts("A", 0, 0, HedgeEntry, 0, "0000");
      var close: ClientOrderId := entry.(role := EmergencyClose);
      EmergencyCloseIsOverstated(c, 1.0, entry, close, if c.takerFee > 0.0 then Market else LimitOrder);
    }
  }
}
