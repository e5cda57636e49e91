/** What placing, amending and cancelling do, in terms of the orders that a request
    names, and that a cancelled order stays as it is whatever comes after. */
module ExchangeRequests {
  import opened InstrumentRules
  import opened ClientOrderIds
  import opened ExchangeAccounts
  import opened ExchangeModel
  import opened ExchangeRuns
  import opened ExchangeFills

  /** Order i is the one with this link. */
  predicate Carries(v: Venue, link: ClientOrderId, i: nat) {
    i < |v.orders| && v.orders[i].request.link == link && forall j | 0 <= j < i :: v.orders[j].request.link != link
  }

  predicate Unknown(v: Venue, link: ClientOrderId) {
    forall o <- v.orders :: o.request.link != link
  }

  lemma FoundIsCarried(v: Venue, link: ClientOrderId)
    ensures Unknown(v, link) <==> IndexOf(v.orders, link) == |v.orders|
    ensures forall i: nat :: Carries(v, link, i) ==> IndexOf(v.orders, link) == i
  {
    var k := IndexOf(v.orders, link);
    if k < |v.orders| { assert v.orders[k] in v.orders; }
  }

  /** Time and price move as asked: neither a price that is not positive nor a negative
      time is accepted, but with a good price and a bad time the price stays. */
  lemma TimeIsExact(c: Config, v: Venue, price: real, elapsed: int)
    ensures var (r, ending) := Perform(c, v, AdvanceClock(elapsed));
            && (ending == Done <==> elapsed >= 0) && (elapsed < 0 ==> r == v)
            && (elapsed >= 0 ==> r.now == v.now + elapsed && r.price == v.price && |r.orders| == |v.orders|)
    ensures var (r, ending) := Perform(c, v, AdvanceMarket(price, elapsed));
            && (ending == Done <==> price > 0.0 && elapsed >= 0)
            && (price <= 0.0 ==> r == v) && (price > 0.0 && elapsed < 0 ==> r == v.(price := price))
            && (ending == Done ==> r.now == v.now + elapsed && r.price == price && |r.orders| == |v.orders|)
  {
    ProcessKeepsRequests(c, v.(now := v.now + elapsed), |v.orders|);
    ProcessKeepsRequests(c, v.(price := price, now := v.now + elapsed), |v.orders|);
  }

  // ----- placing

  /** A request is refused for a foreign symbol or a link that is in the book, and then
      nothing changes; a rejected one leaves a note; any other is in the book from then
      on, due after the fill delay, even when its acknowledgement is uncertain. */
  lemma PlaceIsExact(c: Config, v: Venue, request: PlaceRequest, rejected: bool, partialPlanned: bool, uncertain: bool)
    ensures var (r, ending) := Perform(c, v, PlaceOrder(request, rejected, partialPlanned, uncertain));
            var refused := request.symbol != c.symbol || !Unknown(v, request.link);
            && (ending == Raised <==> refused || rejected || uncertain)
            && (refused ==> r == v)
            && (!refused && rejected ==> r == v.(log := v.log + [Noted(OrderRejected)]))
            && (!refused && !rejected ==> IsPlaced(c, v, request, partialPlanned, r))
  {
    FoundIsCarried(v, request.link);
    AcceptedIsPlaced(c, v, request, partialPlanned);
    NotedIsPlaced(c, v, request, partialPlanned,
                  AdvanceTime(c, Accepted(c, v, request, partialPlanned), c.ackDelay));
  }

  lemma NotedIsPlaced(c: Config, v: Venue, request: PlaceRequest, partialPlanned: bool, r: Venue)
    requires IsPlaced(c, v, request, partialPlanned, r)
    ensures IsPlaced(c, v, request, partialPlanned, Note(r, AckUncertain))
  {}

  lemma AcceptedIsPlaced(c: Config, v: Venue, request: PlaceRequest, partialPlanned: bool)
    ensures var r := AdvanceTime(c, Accepted(c, v, request, partialPlanned), c.ackDelay);
            IsPlaced(c, v, request, partialPlanned, r)
  {
    var added := Accepted(c, v, request, partialPlanned);
    LastIsServed(c, added.(now := added.now + c.ackDelay), |v.orders|);
  }

  /** What processing all orders does to the last one. */
  lemma LastIsServed(c: Config, v: Venue, n: nat)
    requires |v.orders| == n + 1
    ensures var o, r := v.orders[n], ProcessOrders(c, v, n + 1);
            && SameRequests(v, r) && v.log <= r.log
            && (v.now < o.fillMs ==> r.orders[n] == o)
            && (IsActive(o.status) && v.now >= o.fillMs && Met(c, v.price, o.request) ==>
                  r.orders[n].filled > o.filled || r.orders[n].status == Cancelled)
  {
    ProcessKeepsRequests(c, v, n + 1);
    ProcessAppends(c, v, n + 1);
    var u := LookedAtOnce(c, v, n + 1, n);
    NewOrderAfter(c, u, n);
  }

  predicate IsPlaced(c: Config, v: Venue, request: PlaceRequest, partialPlanned: bool, r: Venue) {
    var n := |v.orders|;
    && |r.orders| == n + 1 && r.now == v.now + c.ackDelay && r.price == v.price
    && v.log + [Noted(OrderAccepted)] <= r.log
    && (forall i: nat | i < n :: r.orders[i].request == v.orders[i].request)
    && r.orders[n].request == request
    && (c.ackDelay < c.fillDelay ==> r.orders[n] == Untouched(c, v, request, partialPlanned))
    && (c.ackDelay >= c.fillDelay && Met(c, v.price, request) ==>
          r.orders[n].filled > 0.0 || r.orders[n].status == Cancelled)
  }

  function Untouched(c: Config, v: Venue, request: PlaceRequest, partialPlanned: bool): Order {
    Order(request, v.now + c.fillDelay, if request.trigger == Untriggered then New else AwaitsTrigger, 0.0, 0.0,
          partialPlanned, false)
  }

  lemma NewOrderAfter(c: Config, u: Venue, n: nat)
    requires n < |u.orders|
    ensures var o, r := u.orders[n], ProcessOrder(c, u, n).orders[n];
            && (u.now < o.fillMs ==> r == o)
            && (IsActive(o.status) && u.now >= o.fillMs && Met(c, u.price, o.request) ==>
                  r.filled > o.filled || r.status == Cancelled)
  {
    ProcessOrderIsExact(c, u, n);
  }

  // ----- amending

  /** An amendment is taken by the active order with the link, if it changes something,
      to positive values, and to a limit or a trigger only where there is one; it
      changes exactly what it names, and neither what was filled nor when it is due. */
  lemma AmendIsExact(c: Config, v: Venue, link: ClientOrderId, change: Amendment, i: nat)
    requires Carries(v, link, i)
    ensures var o, (r, ending) := v.orders[i], Perform(c, v, AmendOrder(link, change));
            && (ending == Done <==> o.status in {New, AwaitsTrigger, PartiallyFilled} && Allowed(o.request, change))
            && (ending == Raised ==> r == v)
            && (ending == Done ==>
                  && |r.orders| == |v.orders| && r.orders == v.orders[i := o.(request := r.orders[i].request)]
                  && IsAmended(o.request, change, r.orders[i].request)
                  && r.now == v.now && r.price == v.price && r.account == v.account
                  && r.log == v.log + [Noted(OrderAmended)])
  {
    FoundIsCarried(v, link);
  }

  predicate Allowed(r: PlaceRequest, change: Amendment) {
    && (change.quantity.Set? || change.price.Set? || change.trigger.Set?)
    && (change.quantity.Set? ==> change.quantity.value > 0.0)
    && (change.price.Set? ==> change.price.value > 0.0 && r.orderType == LimitOrder)
    && (change.trigger.Set? ==> change.trigger.value > 0.0 && (r.trigger.RisesTo? || r.trigger.FallsTo?))
  }

  predicate IsAmended(before: PlaceRequest, change: Amendment, after: PlaceRequest) {
    && after == before.(quantity := after.quantity, price := after.price, trigger := after.trigger)
    && after.quantity == (if change.quantity.Set? then change.quantity.value else before.quantity)
    && after.price == (if change.price.Set? then change.price.value else before.price)
    && (change.trigger.Keep? ==> after.trigger == before.trigger)
    && (change.trigger.Set? && before.trigger.RisesTo? ==> after.trigger == RisesTo(change.trigger.value))
    && (change.trigger.Set? && before.trigger.FallsTo? ==> after.trigger == FallsTo(change.trigger.value))
  }

  // ----- cancelling

  /** The orders that a cancellation is about. */
  predicate Names(op: Operation, o: Order) {
    match op
    case CancelOrder(link) => o.request.link == link
    case CancelAll(category, anySymbol, symbol) =>
      o.request.category == category && (anySymbol || o.request.symbol == symbol)
    case _ => false
  }

  /** Links are unique in a book. */
  ghost predicate UniqueLinks(v: Venue) {
    forall i, j | 0 <= i < j < |v.orders| :: v.orders[i].request.link != v.orders[j].request.link
  }

  /** A cancellation that succeeds cancels exactly the named orders that are active, and
      one for a single order fails exactly when there is no such order. */
  lemma CancelIsExact(c: Config, v: Venue, op: Operation, i: nat)
    requires (op.CancelOrder? || op.CancelAll?) && UniqueLinks(v) && i < |v.orders|
    ensures var o, (r, ending) := v.orders[i], Perform(c, v, op);
            && (ending == Raised <==> op.CancelOrder? && Unknown(v, op.link))
            && |r.orders| == |v.orders| && r.account == v.account && r.price == v.price && r.now == v.now
            && r.orders[i] == (if Names(op, o) && o.status in {New, AwaitsTrigger, PartiallyFilled}
                               then o.(status := Cancelled) else o)
  {
    if op.CancelOrder? {
      FoundIsCarried(v, op.link);
      if v.orders[i].request.link == op.link { assert Carries(v, op.link, i); }
    }
  }

  lemma {:induction false} LinksAreUnique(c: Config, price: real, ops: seq<Operation>)
    ensures UniqueLinks(Run(c, price, ops))
  {
    if |ops| > 0 {
      var last := |ops| - 1;
      LinksAreUnique(c, price, ops[..last]);
      StillUnique(c, Run(c, price, ops[..last]), ops[last]);
    }
  }

  lemma PlacedIsUnique(c: Config, v: Venue, request: PlaceRequest, partialPlanned: bool, r: Venue)
    requires UniqueLinks(v) && Unknown(v, request.link) && IsPlaced(c, v, request, partialPlanned, r)
    ensures UniqueLinks(r)
  {
    forall j: nat | j < |v.orders| ensures v.orders[j].request.link != request.link { assert v.orders[j] in v.orders; }
  }

  lemma PlaceKeepsUnique(c: Config, v: Venue, request: PlaceRequest, rejected: bool, partialPlanned: bool,
                         uncertain: bool)
    requires UniqueLinks(v)
    ensures UniqueLinks(Perform(c, v, PlaceOrder(request, rejected, partialPlanned, uncertain)).0)
  {
    PlaceIsExact(c, v, request, rejected, partialPlanned, uncertain);
    if Unknown(v, request.link) && request.symbol == c.symbol && !rejected {
      PlacedIsUnique(c, v, request, partialPlanned,
                     Perform(c, v, PlaceOrder(request, rejected, partialPlanned, uncertain)).0);
    }
  }

  lemma SameRequestsUnique(v: Venue, r: Venue)
    requires UniqueLinks(v) && SameRequests(v, r)
    ensures UniqueLinks(r)
  {}

  lemma AdvanceKeepsUnique(c: Config, v: Venue, elapsed: int)
    requires UniqueLinks(v)
    ensures UniqueLinks(AdvanceTime(c, v, elapsed))
  {
    var later := v.(now := v.now + elapsed);
    ProcessKeepsRequests(c, later, |v.orders|);
    SameRequestsUnique(later, AdvanceTime(c, v, elapsed));
  }

  lemma StillUnique(c: Config, v: Venue, op: Operation)
    requires UniqueLinks(v)
    ensures UniqueLinks(Perform(c, v, op).0)
  {
    match op
    case PlaceOrder(request, rejected, partialPlanned, uncertain) =>
      PlaceKeepsUnique(c, v, request, rejected, partialPlanned, uncertain);
    case AdvanceClock(elapsed) => AdvanceKeepsUnique(c, v, elapsed);
    case AdvanceMarket(price, elapsed) => AdvanceKeepsUnique(c, v.(price := price), elapsed);
    case _ =>
  }

  lemma {:induction false} TerminalForever(c: Config, price: real, ops: seq<Operation>, more: seq<Operation>, i: nat)
    requires i < |Run(c, price, ops).orders| && Run(c, price, ops).orders[i].status in {Filled, Cancelled}
    ensures i < |Run(c, price, ops + more).orders|
    ensures Run(c, price, ops + more).orders[i] == Run(c, price, ops).orders[i]
  {
    if |more| == 0 {
      assert ops + more == ops;
    } else {
      var last := |more| - 1;
      assert ops + more == (ops + more[..last]) + [more[last]];
      TerminalForever(c, price, ops, more[..last], i);
      RunOfMore(c, price, ops + more[..last], more[last]);
      TerminalOrdersStay(c, Run(c, price, ops + more[..last]), more[last], i);
    }
  }

  /** On every run: once an order is named by a cancellation, nothing more is ever
      filled of it, whatever is asked of the exchange afterwards. */
  lemma CancelledIsFinal(c: Config, price: real, ops: seq<Operation>, op: Operation, more: seq<Operation>, i: nat)
    requires (op.CancelOrder? || op.CancelAll?) && i < |Run(c, price, ops).orders|
    requires Names(op, Run(c, price, ops).orders[i])
    ensures var o := Run(c, price, ops).orders[i];
            && i < |Run(c, price, ops + [op] + more).orders|
            && Run(c, price, ops + [op] + more).orders[i]
               == if o.status == Filled then o else o.(status := Cancelled)
  {
    LinksAreUnique(c, price, ops);
    RunOfMore(c, price, ops, op);
    CancelIsExact(c, Run(c, price, ops), op, i);
    TerminalForever(c, price, ops + [op], more, i);
  }
}
