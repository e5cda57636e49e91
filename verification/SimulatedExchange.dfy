/** The simulated exchange as it runs: order objects, position, fees and event log
    updated in place. Every operation does to their values what the model says, so
    that the exchange is always where the model's run of its operations is. */
module SimulatedExchange {
  import opened Products
  import opened InstrumentRules
  import opened ClientOrderIds
  import opened ExchangeAccounts
  import opened ExchangeModel
  import opened ExchangeRuns
  import Sums

  type Amount = x: real | x >= 0.0 witness 0.0

  type MarketPrice = x: real | x > 0.0 witness 1.0

  class SimulatedOrder {
    const fillMs: int
    const partialPlanned: bool
    var request: PlaceRequest
    var status: Status
    var filled: real
    var notional: real
    var partialDone: bool

    constructor (request: PlaceRequest, fillMs: int, partialPlanned: bool)
      ensures var status := if request.trigger == Untriggered then New else AwaitsTrigger;
              View() == Order(request, fillMs, status, 0.0, 0.0, partialPlanned, false)
    {
      this.request, this.fillMs, this.partialPlanned := request, fillMs, partialPlanned;
      status := if request.trigger == Untriggered then New else AwaitsTrigger;
      filled, notional, partialDone := 0.0, 0.0, false;
    }

    function View(): Order
      reads this
    {
      Order(request, fillMs, status, filled, notional, partialPlanned, partialDone)
    }

    method Cancel()
      modifies this
      ensures View() == old(View()).(status := Cancelled)
    {
      status := Cancelled;
    }

    method Take(quantity: real, price: real, partial: bool)
      modifies this
      ensures View() == OrderAfter(old(View()), quantity, price, partial)
    {
      if partial { partialDone := true; }
      filled := filled + quantity;
      notional := notional + Times(price, quantity);
      status := if filled == request.quantity then Filled else PartiallyFilled;
    }

    method Amend(change: Amendment)
      requires change.quantity.Positive()
      modifies this
      ensures View() == old(View()).(request := AmendedRequest(old(request), change))
    {
      request := AmendedRequest(request, change);
    }
  }

  function OrderViews(orders: seq<SimulatedOrder>): (views: seq<Order>)
    reads orders
    ensures |views| == |orders|
    ensures forall i | 0 <= i < |orders| :: views[i] == orders[i].View()
  {
    seq(|orders|, i requires 0 <= i < |orders| reads orders => orders[i].View())
  }

  ghost predicate Different(orders: seq<SimulatedOrder>) {
    forall i, j | 0 <= i < j < |orders| :: orders[i] != orders[j]
  }

  class SimulatedExchange {
    const config: Config
    var now: int
    var price: real
    var orders: seq<SimulatedOrder>
    var position: Amount
    var average: real
    var realized: real
    var funding: real
    var entryFees: real
    var exitFees: real
    var tpFees: real
    var stopFees: real
    var log: seq<Event>
    ghost const start: MarketPrice
    ghost var history: seq<Operation>

    constructor (config: Config, price: MarketPrice)
      ensures Valid() && this.config == config && start == price && history == []
    {
      this.config, this.now, this.price, this.orders := config, 0, price, [];
      start, history := price, [];
      position, average, realized, funding := 0.0, 0.0, 0.0, 0.0;
      entryFees, exitFees, tpFees, stopFees := 0.0, 0.0, 0.0, 0.0;
      log := [];
    }

    function Figures(): Account
      reads this
    {
      Account(position, average, realized, funding, entryFees, exitFees, tpFees, stopFees)
    }

    function View(): Venue
      reads this, orders
    {
      Venue(now, price, OrderViews(orders), Figures(), log)
    }

    /** The exchange is where its operations so far lead. */
    ghost predicate Valid()
      reads this, orders
    {
      Different(orders) && View() == Run(config, start, history)
    }

    /** Remember one more operation: what it does to the values, the model says. */
    ghost method Remember(op: Operation)
      requires Different(orders) && View() == Perform(config, Run(config, start, history), op).0
      modifies this`history
      ensures Valid() && history == old(history) + [op] && View() == old(View())
    {
      RunOfMore(config, start, history, op);
      history := history + [op];
    }

    method Record(notice: Notice)
      modifies this`log
      ensures View() == Note(old(View()), notice)
    {
      log := log + [Noted(notice)];
    }

    method ApplyPosition(x: Execution)
      modifies this`position, this`average, this`realized, this`entryFees, this`exitFees, this`tpFees, this`stopFees
      ensures Figures() == ExchangeAccounts.ApplyPosition(old(Figures()), x)
    {
      if x.side == Sell {
        var total := Times(average, position) + Times(x.price, x.quantity);
        position := position + x.quantity;
        average := total / position;
        entryFees := entryFees + x.fee;
        return;
      }
      var closed := Lesser(x.quantity, position);
      realized := realized + Times(average - x.price, closed);
      position := position - closed;
      exitFees := exitFees + x.fee;
      if x.role == HedgeTp {
        tpFees := tpFees + x.fee;
      } else if x.role == HedgeStop {
        stopFees := stopFees + x.fee;
      }
      if position == 0.0 { average := 0.0; }
    }

    method CancelWhen(i: nat, hit: bool)
      requires Different(orders) && i < |orders|
      modifies orders[i]
      ensures var o := old(orders[i].View());
              OrderViews(orders) == old(OrderViews(orders))[i := if hit then o.(status := Cancelled) else o]
    {
      if hit { orders[i].Cancel(); }
      assert OrderViews(orders) == old(OrderViews(orders))[i := orders[i].View()];
    }

    method TakeAt(i: nat, quantity: real, fillPrice: real, partial: bool)
      requires Different(orders) && i < |orders|
      modifies orders[i]
      ensures OrderViews(orders)
              == old(OrderViews(orders))[i := OrderAfter(old(orders[i].View()), quantity, fillPrice, partial)]
    {
      orders[i].Take(quantity, fillPrice, partial);
      assert OrderViews(orders) == old(OrderViews(orders))[i := orders[i].View()];
    }

    method AmendAt(i: nat, change: Amendment)
      requires Different(orders) && i < |orders| && change.quantity.Positive()
      modifies orders[i]
      ensures var o := old(orders[i].View());
              OrderViews(orders) == old(OrderViews(orders))[i := o.(request := AmendedRequest(o.request, change))]
    {
      orders[i].Amend(change);
      assert OrderViews(orders) == old(OrderViews(orders))[i := orders[i].View()];
    }

    /** One execution, at the current price. */
    method Execute(i: nat, quantity: real, partial: bool)
      requires Different(orders) && i < |orders| && quantity > 0.0
      modifies this, orders[i]
      ensures orders == old(orders) && history == old(history) && now == old(now) && price == old(price)
      ensures var o := old(orders[i].View());
              var x := ExecutionOf(config, price, o.request, quantity);
              && OrderViews(orders) == old(OrderViews(orders))[i := OrderAfter(o, x.quantity, x.price, partial)]
              && Figures() == ExchangeAccounts.ApplyPosition(old(Figures()), x) && log == old(log) + [ExecutionEvent(x)]
    {
      var x := ExecutionOf(config, price, orders[i].request, quantity);
      TakeAt(i, x.quantity, x.price, partial);
      ApplyPosition(x);
      log := log + [ExecutionEvent(x)];
    }

    method FillOrder(i: nat)
      requires Different(orders) && i < |orders|
      modifies this, orders[i]
      ensures orders == old(orders) && history == old(history)
      ensures var r := ExchangeModel.FillOrder(config, old(View()), i);
              OrderViews(orders) == r.orders && Figures() == r.account && log == r.log && now == r.now
              && price == r.price
    {
      var order := orders[i].View();
      var remaining := Remaining(order, position);
      if remaining <= 0.0 {
        CancelWhen(i, true);
        return;
      }
      Execute(i, FillQuantity(config, order, remaining), FillsPartially(config, order, remaining));
    }

    method ProcessOrder(i: nat)
      requires Different(orders) && i < |orders|
      modifies this, orders[i]
      ensures orders == old(orders) && history == old(history)
      ensures View() == ExchangeModel.ProcessOrder(config, old(View()), i)
    {
      var order := orders[i];
      if !IsActive(order.status) || now < order.fillMs { return; }
      if !Eligible(config, price, order.request) {
        if order.request.force == Ioc && order.request.trigger == Untriggered {
          CancelWhen(i, true);
        }
        return;
      }
      FillOrder(i);
    }

    method ProcessOrders()
      requires Different(orders)
      modifies this, orders
      ensures orders == old(orders) && history == old(history)
      ensures View() == ExchangeModel.ProcessOrders(config, old(View()), |orders|)
    {
      var i := 0;
      while i < |orders|
        invariant 0 <= i <= |orders| && orders == old(orders) && history == old(history)
        invariant View() == ExchangeModel.ProcessOrders(config, old(View()), i)
      {
        ProcessOrder(i);
        i := i + 1;
      }
    }

    /** Time passes, alone or as part of another operation. */
    method Elapse(elapsed: int) returns (ending: Ending)
      requires Different(orders)
      modifies this, orders
      ensures orders == old(orders) && history == old(history)
      ensures (View(), ending) == Advance(config, old(View()), elapsed)
    {
      if elapsed < 0 { return Raised; }
      now := now + elapsed;
      assert View() == old(View()).(now := now);
      ProcessOrders();
      return Done;
    }

    method AdvanceTime(elapsed: int) returns (ending: Ending)
      requires Valid()
      modifies this, orders
      ensures Valid() && orders == old(orders) && history == old(history) + [AdvanceClock(elapsed)]
      ensures (View(), ending) == Advance(config, old(View()), elapsed)
    {
      ending := Elapse(elapsed);
      Remember(AdvanceClock(elapsed));
    }

    method AdvanceMarket(newPrice: real, elapsed: int) returns (ending: Ending)
      requires Valid()
      modifies this, orders
      ensures Valid() && orders == old(orders) && history == old(history) + [Operation.AdvanceMarket(newPrice, elapsed)]
      ensures (View(), ending) == Perform(config, old(View()), Operation.AdvanceMarket(newPrice, elapsed))
    {
      ending := Raised;
      if newPrice > 0.0 {
        price := newPrice;
        ending := Elapse(elapsed);
      }
      Remember(Operation.AdvanceMarket(newPrice, elapsed));
    }

    method ApplyFunding(rate: real) returns (payment: real)
      requires Valid()
      modifies this`funding, this`log, this`history
      ensures Valid() && history == old(history) + [Operation.ApplyFunding(rate)]
      ensures View() == Funded(old(View()), rate)
      ensures payment == Times(Times(position, price), rate)
    {
      payment := Times(Times(position, price), rate);
      funding := funding + payment;
      log := log + [FundingApplied(payment)];
      Remember(Operation.ApplyFunding(rate));
    }

    /** Losing or regaining a connection is only noted. */
    method SetConnection()
      requires Valid()
      modifies this`log, this`history
      ensures Valid() && history == old(history) + [Operation.SetConnection]
      ensures View() == Note(old(View()), Connection)
    {
      Record(Connection);
      Remember(Operation.SetConnection);
    }

    /** The order with this client ID, if there is one. */
    method Lookup(link: ClientOrderId) returns (found: bool, i: nat)
      ensures i == IndexOf(OrderViews(orders), link) && (found <==> i < |orders|)
    {
      ghost var views := OrderViews(orders);
      i := 0;
      while i < |orders|
        invariant 0 <= i <= |orders|
        invariant forall j | 0 <= j < i :: views[j].request.link != link
      {
        if orders[i].request.link == link {
          FirstIsIndex(views, link, i);
          return true, i;
        }
        i := i + 1;
      }
      FirstIsIndex(views, link, i);
      return false, i;
    }

    method AddOrder(request: PlaceRequest, partialPlanned: bool)
      requires Different(orders)
      modifies this`orders
      ensures Different(orders) && |old(orders)| <= |orders|
      ensures forall k | 0 <= k < |orders| ::
                if k < |old(orders)| then orders[k] == old(orders)[k] else fresh(orders[k])
      ensures OrderViews(orders)
              == old(OrderViews(orders)) + [PlacedOrder(config, old(View()), request, partialPlanned)]
    {
      var order := new SimulatedOrder(request, now + config.fillDelay, partialPlanned);
      orders := orders + [order];
      assert OrderViews(orders) == old(OrderViews(orders)) + [order.View()];
    }

    method Accept(request: PlaceRequest, partialPlanned: bool)
      requires Different(orders)
      modifies this`orders, this`log
      ensures Different(orders) && |old(orders)| <= |orders|
      ensures forall k | 0 <= k < |orders| ::
                if k < |old(orders)| then orders[k] == old(orders)[k] else fresh(orders[k])
      ensures View() == Accepted(config, old(View()), request, partialPlanned)
    {
      AddOrder(request, partialPlanned);
      Record(OrderAccepted);
    }

    /** What placing an order does, not yet remembered as an operation. */
    method Place(request: PlaceRequest, rejected: bool, partialPlanned: bool, uncertain: bool) returns (ending: Ending)
      requires Different(orders)
      modifies this, orders
      ensures Different(orders) && |old(orders)| <= |orders| && history == old(history)
      ensures forall k | 0 <= k < |orders| ::
                if k < |old(orders)| then orders[k] == old(orders)[k] else fresh(orders[k])
      ensures View() == ExchangeModel.Place(config, old(View()), request, rejected, partialPlanned, uncertain).0
      ensures ending == ExchangeModel.Place(config, old(View()), request, rejected, partialPlanned, uncertain).1
    {
      var known, _ := Lookup(request.link);
      if request.symbol != config.symbol || known { return Raised; }
      if rejected {
        Record(OrderRejected);
        return Raised;
      }
      Accept(request, partialPlanned);
      var advanced := Elapse(config.ackDelay);
      if uncertain {
        Record(AckUncertain);
        return Raised;
      }
      return Done;
    }

    method PlaceOrder(request: PlaceRequest, rejected: bool, partialPlanned: bool, uncertain: bool)
      returns (ending: Ending)
      requires Valid()
      modifies this, orders
      ensures Valid() && history == old(history) + [Operation.PlaceOrder(request, rejected, partialPlanned, uncertain)]
      ensures |old(orders)| <= |orders|
      ensures forall k | 0 <= k < |orders| ::
                if k < |old(orders)| then orders[k] == old(orders)[k] else fresh(orders[k])
      ensures View() == ExchangeModel.Place(config, old(View()), request, rejected, partialPlanned, uncertain).0
      ensures ending == ExchangeModel.Place(config, old(View()), request, rejected, partialPlanned, uncertain).1
    {
      ending := Place(request, rejected, partialPlanned, uncertain);
      Remember(Operation.PlaceOrder(request, rejected, partialPlanned, uncertain));
    }

    method AmendOrder(link: ClientOrderId, change: Amendment) returns (ending: Ending)
      requires Valid()
      modifies this`log, this`history, orders
      ensures Valid() && history == old(history) + [Operation.AmendOrder(link, change)]
      ensures View() == Amend(old(View()), link, change).0
      ensures ending == Amend(old(View()), link, change).1
    {
      ghost var before := View();
      var known, i := Lookup(link);
      ending := Raised;
      if known && CanAmend(orders[i].View(), change) {
        AmendAt(i, change);
        Record(OrderAmended);
        ending := Done;
      }
      assert View() == Amend(before, link, change).0;
      Remember(Operation.AmendOrder(link, change));
    }

    method CancelOrder(link: ClientOrderId) returns (ending: Ending)
      requires Valid()
      modifies this`log, this`history, orders
      ensures Valid() && history == old(history) + [Operation.CancelOrder(link)]
      ensures View() == Cancel(old(View()), link).0
      ensures ending == Cancel(old(View()), link).1
    {
      ghost var before := View();
      var known, i := Lookup(link);
      ending := Raised;
      if known {
        CancelWhen(i, IsActive(orders[i].status));
        Record(OrderCancelled);
        ending := Done;
      }
      assert View() == Cancel(before, link).0;
      Remember(Operation.CancelOrder(link));
    }

    method CancelStep(i: nat, category: Category, anySymbol: bool, symbol: Symbol, ghost before: seq<Order>)
      requires Different(orders) && i < |orders| == |before|
      requires OrderViews(orders) == CancelFirst(before, i, category, anySymbol, symbol)
      modifies orders
      ensures OrderViews(orders) == CancelFirst(before, i + 1, category, anySymbol, symbol)
    {
      CancelFirstStep(before, i, category, anySymbol, symbol);
      CancelWhen(i, Affected(orders[i].View(), category, anySymbol, symbol));
    }

    method CancelMatching(category: Category, anySymbol: bool, symbol: Symbol)
      requires Different(orders)
      modifies orders
      ensures OrderViews(orders) == CancelFirst(old(OrderViews(orders)), |orders|, category, anySymbol, symbol)
    {
      ghost var before := OrderViews(orders);
      var i := 0;
      while i < |orders|
        invariant 0 <= i <= |orders|
        invariant OrderViews(orders) == CancelFirst(before, i, category, anySymbol, symbol)
      {
        CancelStep(i, category, anySymbol, symbol, before);
        i := i + 1;
      }
    }

    /** What cancelling all orders does, not yet remembered as an operation. */
    method CancelNoted(category: Category, anySymbol: bool, symbol: Symbol)
      requires Different(orders)
      modifies this`log, orders
      ensures View() == CancelEvery(old(View()), category, anySymbol, symbol)
    {
      CancelMatching(category, anySymbol, symbol);
      Record(AllCancelled);
    }

    method CancelAll(category: Category, anySymbol: bool, symbol: Symbol)
      requires Valid()
      modifies this`log, this`history, orders
      ensures Valid() && history == old(history) + [Operation.CancelAll(category, anySymbol, symbol)]
      ensures View() == CancelEvery(old(View()), category, anySymbol, symbol)
    {
      CancelNoted(category, anySymbol, symbol);
      Remember(Operation.CancelAll(category, anySymbol, symbol));
    }
  }

  lemma FirstIsIndex(orders: seq<Order>, link: ClientOrderId, i: nat)
    requires i <= |orders| && (forall j | 0 <= j < i :: orders[j].request.link != link)
    requires i < |orders| ==> orders[i].request.link == link
    ensures IndexOf(orders, link) == i
  {
    var k := IndexOf(orders, link);
    assert k >= i;
    assert i >= k;
  }

  /** Every exchange, whatever was asked of it since it was built, is booked: what
      the account holds is what its event log replays to, and what its orders
      filled. */
  lemma RunningExchangeIsBooked(e: SimulatedExchange)
    requires e.Valid()
    ensures Booked(e.View())
    ensures ReplayedNet(e.log) == NetPnl(e.Figures()) + Sums.Sum(OtherExitFee, e.log)
  {
    RunIsBooked(e.config, e.start, e.history);
    RunReplaysUpToOtherFees(e.config, e.start, e.history);
  }
}
