/** What holds after any operations on the simulated exchange: the account is the
    one of the log, the orders and the log tell the same quantities and money, no
    order is overfilled, and terminal orders never change again. */
module ExchangeRuns {
  import opened Sums
  import opened Products
  import opened InstrumentRules
  import opened ClientOrderIds
  import opened ExchangeAccounts
  import opened ExchangeModel

  // ----- the two sides of the books

  function FilledOn(side: Side): Order -> real {
    (o: Order) => if o.request.side == side then o.filled else 0.0
  }

  function NotionalOn(side: Side): Order -> real {
    (o: Order) => if o.request.side == side then o.notional else 0.0
  }

  function QuantityOn(side: Side): Event -> real {
    (e: Event) => if e.ExecutionEvent? && e.execution.side == side then e.execution.quantity else 0.0
  }

  function MoneyOn(side: Side): Event -> real {
    (e: Event) => if e.ExecutionEvent? && e.execution.side == side then Times(e.execution.price, e.execution.quantity)
                  else 0.0
  }

  /** The account is the one the log leads to, and the orders have filled what
      the log says was executed. */
  predicate Booked(v: Venue) {
    && v.account == AccountOf(v.log)
    && (forall side :: Sum(FilledOn(side), v.orders) == Sum(QuantityOn(side), v.log))
    && (forall side :: Sum(NotionalOn(side), v.orders) == Sum(MoneyOn(side), v.log))
  }

  lemma QuietOrderKeepsBooked(v: Venue, i: nat, o: Order)
    requires Booked(v) && i < |v.orders|
    requires o.request.side == v.orders[i].request.side
    requires o.filled == v.orders[i].filled && o.notional == v.orders[i].notional
    ensures Booked(v.(orders := v.orders[i := o]))
  {
    forall side
      ensures Sum(FilledOn(side), v.orders[i := o]) == Sum(FilledOn(side), v.orders)
      ensures Sum(NotionalOn(side), v.orders[i := o]) == Sum(NotionalOn(side), v.orders)
    {
      SumUpdate(FilledOn(side), v.orders, i, o);
      SumUpdate(NotionalOn(side), v.orders, i, o);
    }
  }

  lemma QuietEventKeepsBooked(v: Venue, e: Event)
    requires Booked(v) && !e.ExecutionEvent?
    ensures Booked(v.(account := ApplyEvent(v.account, e), log := v.log + [e]))
  {
    AccountOfMore(v.log, e);
    forall side
      ensures Sum(QuantityOn(side), v.log + [e]) == Sum(QuantityOn(side), v.log)
      ensures Sum(MoneyOn(side), v.log + [e]) == Sum(MoneyOn(side), v.log)
    {
      SumAppend(QuantityOn(side), v.log, e);
      SumAppend(MoneyOn(side), v.log, e);
    }
  }

  lemma FillKeepsBooked(v: Venue, i: nat, x: Execution, partial: bool)
    requires Booked(v) && i < |v.orders| && x.side == v.orders[i].request.side
    ensures Booked(v.(orders := v.orders[i := OrderAfter(v.orders[i], x.quantity, x.price, partial)],
                      account := ApplyPosition(v.account, x), log := v.log + [ExecutionEvent(x)]))
  {
    var o, e := OrderAfter(v.orders[i], x.quantity, x.price, partial), ExecutionEvent(x);
    AccountOfMore(v.log, e);
    forall side
      ensures Sum(FilledOn(side), v.orders[i := o]) == Sum(QuantityOn(side), v.log + [e])
      ensures Sum(NotionalOn(side), v.orders[i := o]) == Sum(MoneyOn(side), v.log + [e])
    {
      SumUpdate(FilledOn(side), v.orders, i, o);
      SumUpdate(NotionalOn(side), v.orders, i, o);
      SumAppend(QuantityOn(side), v.log, e);
      SumAppend(MoneyOn(side), v.log, e);
    }
  }

  lemma ProcessKeepsBooked(c: Config, v: Venue, i: nat)
    requires Booked(v) && i < |v.orders|
    ensures Booked(ProcessOrder(c, v, i))
  {
    var o := v.orders[i];
    var remaining := Remaining(o, v.account.position);
    QuietOrderKeepsBooked(v, i, o.(status := Cancelled));
    if remaining > 0.0 {
      FillKeepsBooked(v, i, ExecutionOf(c, v.price, o.request, FillQuantity(c, o, remaining)),
                      FillsPartially(c, o, remaining));
    }
  }

  /** What processing one order keeps, processing all of them keeps. */
  lemma {:induction false} ProcessAllKeeps(c: Config, v: Venue, n: nat, kept: Venue -> bool)
    requires n <= |v.orders| && kept(v)
    requires forall u: Venue, i: nat | i < |u.orders| && kept(u) :: kept(ProcessOrder(c, u, i))
    ensures kept(ProcessOrders(c, v, n))
  {
    if n > 0 { ProcessAllKeeps(c, v, n - 1, kept); }
  }

  lemma AdvanceKeepsBooked(c: Config, v: Venue, elapsed: int)
    requires Booked(v)
    ensures Booked(AdvanceTime(c, v, elapsed))
  {
    var later := v.(now := v.now + elapsed);
    forall u: Venue, i: nat | i < |u.orders| && Booked(u)
      ensures Booked(ProcessOrder(c, u, i))
    {
      ProcessKeepsBooked(c, u, i);
    }
    ProcessAllKeeps(c, later, |later.orders|, u => Booked(u));
  }

  lemma CancelKeepsSums(weight: Order -> real, orders: seq<Order>, n: nat, category: Category, anySymbol: bool,
                        symbol: Symbol)
    requires n <= |orders| && forall o: Order :: weight(o.(status := Cancelled)) == weight(o)
    ensures Sum(weight, CancelFirst(orders, n, category, anySymbol, symbol)) == Sum(weight, orders)
  {
    SumAlike(weight, CancelFirst(orders, n, category, anySymbol, symbol), orders);
  }

  lemma CancelAllKeepsBooked(v: Venue, category: Category, anySymbol: bool, symbol: Symbol)
    requires Booked(v)
    ensures Booked(v.(orders := CancelFirst(v.orders, |v.orders|, category, anySymbol, symbol)))
  {
    forall side
      ensures Sum(FilledOn(side), CancelFirst(v.orders, |v.orders|, category, anySymbol, symbol))
              == Sum(FilledOn(side), v.orders)
      ensures Sum(NotionalOn(side), CancelFirst(v.orders, |v.orders|, category, anySymbol, symbol))
              == Sum(NotionalOn(side), v.orders)
    {
      CancelKeepsSums(FilledOn(side), v.orders, |v.orders|, category, anySymbol, symbol);
      CancelKeepsSums(NotionalOn(side), v.orders, |v.orders|, category, anySymbol, symbol);
    }
  }

  lemma NewOrderKeepsBooked(v: Venue, o: Order)
    requires Booked(v) && o.filled == 0.0 && o.notional == 0.0
    ensures Booked(v.(orders := v.orders + [o]))
  {
    forall side
      ensures Sum(FilledOn(side), v.orders + [o]) == Sum(FilledOn(side), v.orders)
      ensures Sum(NotionalOn(side), v.orders + [o]) == Sum(NotionalOn(side), v.orders)
    {
      SumAppend(FilledOn(side), v.orders, o);
      SumAppend(NotionalOn(side), v.orders, o);
    }
  }

  lemma PlaceKeepsBooked(c: Config, v: Venue, op: Operation)
    requires Booked(v) && op.PlaceOrder?
    ensures Booked(Perform(c, v, op).0)
  {
    QuietEventKeepsBooked(v, Noted(OrderRejected));
    var o := PlacedOrder(c, v, op.request, op.partialPlanned);
    NewOrderKeepsBooked(v, o);
    var added := v.(orders := v.orders + [o]);
    QuietEventKeepsBooked(added, Noted(OrderAccepted));
    AdvanceKeepsBooked(c, Note(added, OrderAccepted), c.ackDelay);
    QuietEventKeepsBooked(AdvanceTime(c, Note(added, OrderAccepted), c.ackDelay), Noted(AckUncertain));
  }

  lemma AmendKeepsBooked(v: Venue, link: ClientOrderId, change: Amendment)
    requires Booked(v)
    ensures Booked(Amend(v, link, change).0)
  {
    var i := IndexOf(v.orders, link);
    if i < |v.orders| && CanAmend(v.orders[i], change) {
      var o := v.orders[i];
      var changed := o.(request := AmendedRequest(o.request, change));
      QuietOrderKeepsBooked(v, i, changed);
      QuietEventKeepsBooked(v.(orders := v.orders[i := changed]), Noted(OrderAmended));
    }
  }

  lemma CancelKeepsBooked(v: Venue, link: ClientOrderId)
    requires Booked(v)
    ensures Booked(Cancel(v, link).0)
  {
    var i := IndexOf(v.orders, link);
    if i < |v.orders| {
      var o := v.orders[i];
      var changed := if IsActive(o.status) then o.(status := Cancelled) else o;
      QuietOrderKeepsBooked(v, i, changed);
      QuietEventKeepsBooked(v.(orders := v.orders[i := changed]), Noted(OrderCancelled));
    }
  }

  lemma MarketKeepsBooked(c: Config, v: Venue, op: Operation)
    requires Booked(v) && op.AdvanceMarket?
    ensures Booked(Perform(c, v, op).0)
  {
    AdvanceKeepsBooked(c, v.(price := op.price), op.elapsed);
  }

  lemma FundingKeepsBooked(c: Config, v: Venue, op: Operation)
    requires Booked(v) && op.ApplyFunding?
    ensures Booked(Perform(c, v, op).0)
  {
    QuietEventKeepsBooked(v, FundingApplied(Times(Times(v.account.position, v.price), op.rate)));
  }

  lemma AllCancelledKeepsBooked(c: Config, v: Venue, op: Operation)
    requires Booked(v) && op.CancelAll?
    ensures Booked(Perform(c, v, op).0)
  {
    CancelAllKeepsBooked(v, op.category, op.anySymbol, op.symbol);
    var orders := CancelFirst(v.orders, |v.orders|, op.category, op.anySymbol, op.symbol);
    QuietEventKeepsBooked(v.(orders := orders), Noted(AllCancelled));
  }

  lemma PerformKeepsBooked(c: Config, v: Venue, op: Operation)
    requires Booked(v)
    ensures Booked(Perform(c, v, op).0)
  {
    match op
    case AdvanceClock(elapsed) => AdvanceKeepsBooked(c, v, elapsed);
    case AdvanceMarket(_, _) => MarketKeepsBooked(c, v, op);
    case ApplyFunding(_) => FundingKeepsBooked(c, v, op);
    case PlaceOrder(_, _, _, _) => PlaceKeepsBooked(c, v, op);
    case AmendOrder(link, change) => AmendKeepsBooked(v, link, change);
    case CancelOrder(link) => CancelKeepsBooked(v, link);
    case CancelAll(_, _, _) => AllCancelledKeepsBooked(c, v, op);
    case SetConnection => QuietEventKeepsBooked(v, Noted(Connection));
  }

  /** After any operations, failed ones included, account, orders and log agree. */
  lemma {:induction false} RunIsBooked(c: Config, price: real, ops: seq<Operation>)
    ensures Booked(Run(c, price, ops))
  {
    if |ops| == 0 {
      assert forall side :: Sum(FilledOn(side), []) == Sum(QuantityOn(side), []);
      assert forall side :: Sum(NotionalOn(side), []) == Sum(MoneyOn(side), []);
    } else {
      RunIsBooked(c, price, ops[..|ops| - 1]);
      PerformKeepsBooked(c, Run(c, price, ops[..|ops| - 1]), ops[|ops| - 1]);
    }
  }

  // ----- replay of a run

  /** No execution has a negative fee, and none has any if no rate is charged. */
  ghost predicate FeesFine(c: Config, v: Venue) {
    v.price > 0.0 && forall k | 0 <= k < |v.log| && v.log[k].ExecutionEvent? :: FeeFine(c, v.log[k].execution.fee)
  }

  predicate FeeFine(c: Config, fee: real) {
    fee >= 0.0 && (c.makerFee == 0.0 && c.takerFee == 0.0 ==> fee == 0.0)
  }

  lemma FractionKeepsPositive(a: real, part: real)
    requires a > 0.0 && 0.0 <= part < BPS
    ensures Times(a, 1.0 - part / BPS) > 0.0 && Times(a, 1.0 + part / BPS) > 0.0
  {
    TimesPositive(a, 1.0 - part / BPS);
    TimesPositive(a, 1.0 + part / BPS);
  }

  lemma FeesAreNotNegative(c: Config, price: real, r: PlaceRequest, quantity: real)
    requires price > 0.0 && quantity > 0.0
    ensures ExecutionOf(c, price, r, quantity).price > 0.0 && FeeFine(c, ExecutionOf(c, price, r, quantity).fee)
  {
    var slippage := if r.link.role == HedgeEntry then c.entrySlippage
                    else if r.link.role == HedgeStop then c.stopSlippage else 0.0;
    FractionKeepsPositive(price, c.spread);
    FractionKeepsPositive(if r.side == Sell then Bid(c, price) else Ask(c, price), slippage);
    TimesPositive(ExecutionPrice(c, price, r), quantity);
    TimesLe(0.0, Times(ExecutionPrice(c, price, r), quantity),
            if r.orderType == LimitOrder then c.makerFee else c.takerFee);
  }

  lemma ProcessKeepsFees(c: Config, v: Venue, i: nat)
    requires FeesFine(c, v) && i < |v.orders|
    ensures FeesFine(c, ProcessOrder(c, v, i))
  {
    var o := v.orders[i];
    var remaining := Remaining(o, v.account.position);
    if remaining > 0.0 { FeesAreNotNegative(c, v.price, o.request, FillQuantity(c, o, remaining)); }
  }

  lemma AdvanceKeepsFees(c: Config, v: Venue, elapsed: int)
    requires FeesFine(c, v)
    ensures FeesFine(c, AdvanceTime(c, v, elapsed))
  {
    var later := v.(now := v.now + elapsed);
    forall u: Venue, i: nat | i < |u.orders| && FeesFine(c, u)
      ensures FeesFine(c, ProcessOrder(c, u, i))
    {
      ProcessKeepsFees(c, u, i);
    }
    ProcessAllKeeps(c, later, |later.orders|, u => FeesFine(c, u));
  }

  lemma PerformKeepsFees(c: Config, v: Venue, op: Operation)
    requires FeesFine(c, v)
    ensures FeesFine(c, Perform(c, v, op).0)
  {
    match op
    case AdvanceClock(elapsed) => AdvanceKeepsFees(c, v, elapsed);
    case AdvanceMarket(price, elapsed) => if price > 0.0 { AdvanceKeepsFees(c, v.(price := price), elapsed); }
    case PlaceOrder(r, _, partialPlanned, _) =>
      AdvanceKeepsFees(c, Note(v.(orders := v.orders + [PlacedOrder(c, v, r, partialPlanned)]), OrderAccepted),
                       c.ackDelay);
    case _ =>
  }

  lemma {:induction false} RunFeesFine(c: Config, price: real, ops: seq<Operation>)
    requires price > 0.0
    ensures FeesFine(c, Run(c, price, ops))
  {
    if |ops| > 0 {
      RunFeesFine(c, price, ops[..|ops| - 1]);
      PerformKeepsFees(c, Run(c, price, ops[..|ops| - 1]), ops[|ops| - 1]);
    }
  }

  /** For every run the log replays to the account's own figures, and net P&L
      differs by exactly the fees of the purchases that are neither take-profit
      nor stop: not at all just when none of them paid a fee. */
  lemma RunReplaysUpToOtherFees(c: Config, price: real, ops: seq<Operation>)
    requires price > 0.0
    ensures var v := Run(c, price, ops);
            && v.account == AccountOf(v.log)
            && ReplayedNet(v.log) == NetPnl(v.account) + Sum(OtherExitFee, v.log)
            && (ReplayedNet(v.log) == NetPnl(v.account)
                <==> forall k | 0 <= k < |v.log| :: OtherExitFee(v.log[k]) == 0.0)
  {
    var v := Run(c, price, ops);
    RunIsBooked(c, price, ops);
    RunFeesFine(c, price, ops);
    ReplayNetDiffersByOtherFees(v.log);
    forall e | e in v.log ensures OtherExitFee(e) >= 0.0 {
      var k :| 0 <= k < |v.log| && v.log[k] == e;
    }
  }

  // ----- purchases that only reduce

  /** Every buying order is reduce-only, and no purchase overran the position. */
  ghost predicate OnlyReduces(v: Venue) {
    && v.account == AccountOf(v.log) && Covered(v.log)
    && forall i | 0 <= i < |v.orders| && v.orders[i].request.side == Buy :: v.orders[i].request.reduceOnly
  }

  lemma QuietEventStaysCovered(v: Venue, e: Event)
    requires v.account == AccountOf(v.log) && Covered(v.log)
    requires e.ExecutionEvent? && e.execution.side == Buy ==> e.execution.quantity <= v.account.position
    ensures AccountOf(v.log + [e]) == ApplyEvent(v.account, e) && Covered(v.log + [e])
  {
    AccountOfMore(v.log, e);
    var log := v.log + [e];
    forall k | 0 <= k < |log| && log[k].ExecutionEvent? && log[k].execution.side == Buy
      ensures log[k].execution.quantity <= AccountOf(log[..k]).position
    {
      assert log[..k] == v.log[..k];
      if k == |v.log| { assert v.log[..k] == v.log; }
    }
  }

  lemma ProcessKeepsReducing(c: Config, v: Venue, i: nat)
    requires OnlyReduces(v) && i < |v.orders|
    ensures OnlyReduces(ProcessOrder(c, v, i))
  {
    var o := v.orders[i];
    var remaining := Remaining(o, v.account.position);
    if remaining > 0.0 {
      QuietEventStaysCovered(v, ExecutionEvent(ExecutionOf(c, v.price, o.request, FillQuantity(c, o, remaining))));
    }
  }

  lemma AdvanceKeepsReducing(c: Config, v: Venue, elapsed: int)
    requires OnlyReduces(v)
    ensures OnlyReduces(AdvanceTime(c, v, elapsed))
  {
    var later := v.(now := v.now + elapsed);
    forall u: Venue, i: nat | i < |u.orders| && OnlyReduces(u)
      ensures OnlyReduces(ProcessOrder(c, u, i))
    {
      ProcessKeepsReducing(c, u, i);
    }
    ProcessAllKeeps(c, later, |later.orders|, u => OnlyReduces(u));
  }

  predicate BuysReduce(op: Operation) {
    op.PlaceOrder? && op.request.side == Buy ==> op.request.reduceOnly
  }

  lemma NoteKeepsReducing(v: Venue, notice: Notice)
    requires OnlyReduces(v)
    ensures OnlyReduces(Note(v, notice))
  {
    QuietEventStaysCovered(v, Noted(notice));
  }

  lemma PlaceKeepsReducing(c: Config, v: Venue, op: Operation)
    requires OnlyReduces(v) && op.PlaceOrder? && BuysReduce(op)
    ensures OnlyReduces(Perform(c, v, op).0)
  {
    NoteKeepsReducing(v, OrderRejected);
    var added := v.(orders := v.orders + [PlacedOrder(c, v, op.request, op.partialPlanned)]);
    NoteKeepsReducing(added, OrderAccepted);
    AdvanceKeepsReducing(c, Note(added, OrderAccepted), c.ackDelay);
    NoteKeepsReducing(AdvanceTime(c, Note(added, OrderAccepted), c.ackDelay), AckUncertain);
  }

  lemma AmendKeepsReducing(v: Venue, link: ClientOrderId, change: Amendment)
    requires OnlyReduces(v)
    ensures OnlyReduces(Amend(v, link, change).0)
  {
    QuietEventStaysCovered(v, Noted(OrderAmended));
  }

  lemma CancelKeepsReducing(v: Venue, link: ClientOrderId)
    requires OnlyReduces(v)
    ensures OnlyReduces(Cancel(v, link).0)
  {
    QuietEventStaysCovered(v, Noted(OrderCancelled));
  }

  lemma CancelAllKeepsReducing(v: Venue, category: Category, anySymbol: bool, symbol: Symbol)
    requires OnlyReduces(v)
    ensures OnlyReduces(CancelEvery(v, category, anySymbol, symbol))
  {
    QuietEventStaysCovered(v, Noted(AllCancelled));
  }

  lemma FundingKeepsReducing(v: Venue, rate: real)
    requires OnlyReduces(v)
    ensures OnlyReduces(Funded(v, rate))
  {
    QuietEventStaysCovered(v, FundingApplied(Times(Times(v.account.position, v.price), rate)));
  }

  lemma PerformKeepsReducing(c: Config, v: Venue, op: Operation)
    requires OnlyReduces(v) && BuysReduce(op)
    ensures OnlyReduces(Perform(c, v, op).0)
  {
    match op
    case AdvanceClock(elapsed) => AdvanceKeepsReducing(c, v, elapsed);
    case AdvanceMarket(price, elapsed) => AdvanceKeepsReducing(c, v.(price := price), elapsed);
    case ApplyFunding(rate) => FundingKeepsReducing(v, rate);
    case PlaceOrder(_, _, _, _) => PlaceKeepsReducing(c, v, op);
    case AmendOrder(link, change) => AmendKeepsReducing(v, link, change);
    case CancelOrder(link) => CancelKeepsReducing(v, link);
    case CancelAll(category, anySymbol, symbol) => CancelAllKeepsReducing(v, category, anySymbol, symbol);
    case SetConnection => NoteKeepsReducing(v, Connection);
  }

  lemma {:induction false} RunOnlyReduces(c: Config, price: real, ops: seq<Operation>)
    requires forall op | op in ops :: BuysReduce(op)
    ensures OnlyReduces(Run(c, price, ops))
  {
    if |ops| > 0 {
      RunOnlyReduces(c, price, ops[..|ops| - 1]);
      PerformKeepsReducing(c, Run(c, price, ops[..|ops| - 1]), ops[|ops| - 1]);
    }
  }

  /** When every buying order is reduce-only, gross P&L is the money of the selling
      orders less the money of the buying orders less the open value, and the
      position is what the orders sold less what they bought: account and order
      book, two records kept apart, agree on every run. */
  lemma RunIsCashFlow(c: Config, price: real, ops: seq<Operation>)
    requires forall op | op in ops :: BuysReduce(op)
    ensures var v := Run(c, price, ops);
            && v.account.realized == Sum(NotionalOn(Sell), v.orders) - Sum(NotionalOn(Buy), v.orders)
                                     - Times(v.account.average, v.account.position)
            && v.account.position == Sum(FilledOn(Sell), v.orders) - Sum(FilledOn(Buy), v.orders)
  {
    var v := Run(c, price, ops);
    RunIsBooked(c, price, ops);
    RunOnlyReduces(c, price, ops);
    GrossIsCashLessOpenValue(v.log);
    CoveredIsCashFlow(v.log);
    CoveredClosesAll(v.log);
    SumsAgree(v.log);
  }

  lemma {:induction false} CoveredClosesAll(log: seq<Event>)
    requires Covered(log)
    ensures ClosedQuantity(log) == Sum(QuantityOn(Buy), log)
  {
    if |log| > 0 {
      var last := |log| - 1;
      assert forall k | 0 <= k < last :: log[..last][k] == log[k] && log[..last][..k] == log[..k];
      CoveredClosesAll(log[..last]);
    }
  }

  lemma {:induction false} SumsAgree(log: seq<Event>)
    ensures Sum(SoldNotional, log) == Sum(MoneyOn(Sell), log) && Sum(BoughtNotional, log) == Sum(MoneyOn(Buy), log)
    ensures Sum(SoldQuantity, log) == Sum(QuantityOn(Sell), log)
  {
    if |log| > 0 { SumsAgree(log[..|log| - 1]); }
  }

  // ----- single orders

  predicate WithinQuantity(o: Order) {
    0.0 <= o.filled <= o.request.quantity && (o.status == Filled ==> o.filled == o.request.quantity)
  }

  predicate AllWithin(v: Venue) {
    forall i | 0 <= i < |v.orders| :: WithinQuantity(v.orders[i])
  }

  /** An amendment to less than what is filled already. */
  predicate Undercuts(v: Venue, op: Operation) {
    op.AmendOrder?
    && var i := IndexOf(v.orders, op.link);
       i < |v.orders| && CanAmend(v.orders[i], op.change)
       && op.change.quantity.Over(v.orders[i].request.quantity) < v.orders[i].filled
  }

  lemma ProcessKeepsWithin(c: Config, v: Venue, i: nat)
    requires AllWithin(v) && i < |v.orders|
    ensures AllWithin(ProcessOrder(c, v, i))
  {}

  lemma AdvanceKeepsWithin(c: Config, v: Venue, elapsed: int)
    requires AllWithin(v)
    ensures AllWithin(AdvanceTime(c, v, elapsed))
  {
    var later := v.(now := v.now + elapsed);
    forall u: Venue, i: nat | i < |u.orders| && AllWithin(u)
      ensures AllWithin(ProcessOrder(c, u, i))
    {
      ProcessKeepsWithin(c, u, i);
    }
    ProcessAllKeeps(c, later, |later.orders|, u => AllWithin(u));
  }

  /** An operation keeps every order within its quantity unless it is an
      amendment that undercuts, and such an amendment always breaks it. */
  lemma WithinUnlessUndercut(c: Config, v: Venue, op: Operation)
    requires AllWithin(v)
    ensures AllWithin(Perform(c, v, op).0) <==> !Undercuts(v, op)
  {
    match op
    case AdvanceClock(elapsed) => AdvanceKeepsWithin(c, v, elapsed);
    case AdvanceMarket(price, elapsed) => AdvanceKeepsWithin(c, v.(price := price), elapsed);
    case PlaceOrder(r, _, partialPlanned, _) =>
      AdvanceKeepsWithin(c, Note(v.(orders := v.orders + [PlacedOrder(c, v, r, partialPlanned)]), OrderAccepted),
                         c.ackDelay);
    case AmendOrder(link, change) => AmendWithin(c, v, op);
    case _ =>
  }

  lemma AmendWithin(c: Config, v: Venue, op: Operation)
    requires AllWithin(v) && op.AmendOrder?
    ensures AllWithin(Perform(c, v, op).0) <==> !Undercuts(v, op)
  {
    var i := IndexOf(v.orders, op.link);
    var r := Perform(c, v, op).0;
    if i < |v.orders| && CanAmend(v.orders[i], op.change) {
      assert r.orders[i].filled == v.orders[i].filled
             && r.orders[i].request.quantity == op.change.quantity.Over(v.orders[i].request.quantity);
      assert WithinQuantity(r.orders[i]) <==> !Undercuts(v, op);
    }
  }

  ghost predicate NeverUndercuts(c: Config, price: real, ops: seq<Operation>) {
    forall k | 0 <= k < |ops| :: !Undercuts(Run(c, price, ops[..k]), ops[k])
  }

  ghost predicate AlwaysWithin(c: Config, price: real, ops: seq<Operation>) {
    forall k | 0 <= k <= |ops| :: AllWithin(Run(c, price, ops[..k]))
  }

  lemma RunOneMore(c: Config, price: real, ops: seq<Operation>, k: nat)
    requires k < |ops|
    ensures Run(c, price, ops[..k + 1]) == Perform(c, Run(c, price, ops[..k]), ops[k]).0
  {
    assert ops[..k + 1][..k] == ops[..k];
  }

  lemma {:induction false} WithinUpTo(c: Config, price: real, ops: seq<Operation>, k: nat)
    requires k <= |ops| && NeverUndercuts(c, price, ops)
    ensures AllWithin(Run(c, price, ops[..k]))
  {
    if k > 0 {
      WithinUpTo(c, price, ops, k - 1);
      RunOneMore(c, price, ops, k - 1);
      WithinUnlessUndercut(c, Run(c, price, ops[..k - 1]), ops[k - 1]);
    }
  }

  /** Throughout a run no order is overfilled exactly when no amendment undercuts
      what is filled. */
  lemma NoOverfillIffNoUndercut(c: Config, price: real, ops: seq<Operation>)
    ensures AlwaysWithin(c, price, ops) <==> NeverUndercuts(c, price, ops)
  {
    if NeverUndercuts(c, price, ops) {
      forall k | 0 <= k <= |ops| ensures AllWithin(Run(c, price, ops[..k])) { WithinUpTo(c, price, ops, k); }
    }
    if AlwaysWithin(c, price, ops) {
      forall k | 0 <= k < |ops| ensures !Undercuts(Run(c, price, ops[..k]), ops[k]) {
        RunOneMore(c, price, ops, k);
        assert AllWithin(Run(c, price, ops[..k + 1]));
        WithinUnlessUndercut(c, Run(c, price, ops[..k]), ops[k]);
      }
    }
  }

  lemma {:induction false} ProcessLeavesTerminal(c: Config, v: Venue, n: nat, i: nat)
    requires n <= |v.orders| && i < |v.orders| && !IsActive(v.orders[i].status)
    ensures ProcessOrders(c, v, n).orders[i] == v.orders[i]
  {
    if n > 0 { ProcessLeavesTerminal(c, v, n - 1, i); }
  }

  /** Once filled or cancelled, an order never changes again, whatever is done. */
  lemma TerminalOrdersStay(c: Config, v: Venue, op: Operation, i: nat)
    requires i < |v.orders| && !IsActive(v.orders[i].status)
    ensures i < |Perform(c, v, op).0.orders| && Perform(c, v, op).0.orders[i] == v.orders[i]
  {
    match op
    case AdvanceClock(elapsed) => ProcessLeavesTerminal(c, v.(now := v.now + elapsed), |v.orders|, i);
    case AdvanceMarket(price, elapsed) =>
      ProcessLeavesTerminal(c, v.(price := price, now := v.now + elapsed), |v.orders|, i);
    case PlaceOrder(r, _, partialPlanned, _) =>
      var added := Accepted(c, v, r, partialPlanned);
      ProcessLeavesTerminal(c, added.(now := added.now + c.ackDelay), |added.orders|, i);
    case _ =>
  }

  lemma {:induction false} ProcessAppends(c: Config, v: Venue, n: nat)
    requires n <= |v.orders|
    ensures v.log <= ProcessOrders(c, v, n).log
  {
    if n > 0 { ProcessAppends(c, v, n - 1); }
  }

  lemma AdvanceAppends(c: Config, v: Venue, elapsed: int)
    ensures v.log <= AdvanceTime(c, v, elapsed).log
  {
    ProcessAppends(c, v.(now := v.now + elapsed), |v.orders|);
  }

  /** The event log is append-only. */
  lemma LogOnlyGrows(c: Config, v: Venue, op: Operation)
    ensures v.log <= Perform(c, v, op).0.log
  {
    match op
    case AdvanceClock(elapsed) => AdvanceAppends(c, v, elapsed);
    case AdvanceMarket(price, elapsed) => AdvanceAppends(c, v.(price := price), elapsed);
    case PlaceOrder(r, _, partialPlanned, _) => AdvanceAppends(c, Accepted(c, v, r, partialPlanned), c.ackDelay);
    case _ =>
  }
}
