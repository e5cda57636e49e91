/** The hedge account of the simulated exchange, kept fill by fill, its event log,
    and the replay of the log. */
module ExchangeAccounts {
  import opened Sums
  import opened Products
  import opened InstrumentRules
  import opened ClientOrderIds

  datatype Notice =
    | OrderRejected | OrderAccepted | AckUncertain | OrderAmended | OrderCancelled | AllCancelled | Connection

  datatype ExecutionRecord = Executed(price: real, quantity: real, fee: real, side: Side, role: Role)

  type Execution = x: ExecutionRecord | x.quantity > 0.0 witness Executed(1.0, 1.0, 0.0, Sell, HedgeEntry)

  datatype Event = ExecutionEvent(execution: Execution) | FundingApplied(payment: real) | Noted(notice: Notice)

  /** A short position with its average price, and what was realized and paid. */
  datatype AccountFigures = Account(position: real, average: real, realized: real, funding: real,
                                    entryFees: real, exitFees: real, tpFees: real, stopFees: real)

  type Account = a: AccountFigures | a.position >= 0.0 witness NEW_ACCOUNT

  const NEW_ACCOUNT := AccountFigures.Account(0.0, 0.0, 0.0, 0.0, 0.0, 0.0, 0.0, 0.0)

  function Lesser(a: real, b: real): real {
    if a < b then a else b
  }

  /** A sale opens at a new average, a purchase closes at most what is open. */
  function ApplyPosition(a: Account, x: Execution): Account {
    if x.side == Sell then
      var position := a.position + x.quantity;
      a.(position := position, average := (Times(a.average, a.position) + Times(x.price, x.quantity)) / position,
         entryFees := a.entryFees + x.fee)
    else
      var closed := Lesser(x.quantity, a.position);
      var position := a.position - closed;
      a.(realized := a.realized + Times(a.average - x.price, closed),
         position := position,
         average := if position == 0.0 then 0.0 else a.average,
         exitFees := a.exitFees + x.fee,
         tpFees := if x.role == HedgeTp then a.tpFees + x.fee else a.tpFees,
         stopFees := if x.role == HedgeStop then a.stopFees + x.fee else a.stopFees)
  }

  function ApplyEvent(a: Account, e: Event): Account {
    match e
    case ExecutionEvent(x) => ApplyPosition(a, x)
    case FundingApplied(payment) => a.(funding := a.funding + payment)
    case Noted(_) => a
  }

  /** The account that a log of events leads to. */
  function AccountOf(log: seq<Event>): Account {
    if |log| == 0 then NEW_ACCOUNT else ApplyEvent(AccountOf(log[..|log| - 1]), log[|log| - 1])
  }

  lemma AccountOfMore(log: seq<Event>, e: Event)
    ensures AccountOf(log + [e]) == ApplyEvent(AccountOf(log), e)
  {
    assert (log + [e])[..|log|] == log;
  }

  function SaleFee(e: Event): real {
    if e.ExecutionEvent? && e.execution.side == Sell then e.execution.fee else 0.0
  }

  /** The fees of the purchases in a role. */
  function PurchaseFee(role: Role): Event -> real {
    (e: Event) =>
      if e.ExecutionEvent? && e.execution.side == Buy && e.execution.role == role then e.execution.fee else 0.0
  }

  function Payment(e: Event): real {
    if e.FundingApplied? then e.payment else 0.0
  }

  /** The totals of an account are sums over its log: the fees of the sales, of the
      take-profits and of the stops, and the funding payments. */
  lemma {:induction false} TotalsAreSums(log: seq<Event>)
    ensures var a := AccountOf(log);
            && a.entryFees == Sum(SaleFee, log) && a.funding == Sum(Payment, log)
            && a.tpFees == Sum(PurchaseFee(HedgeTp), log) && a.stopFees == Sum(PurchaseFee(HedgeStop), log)
            && a.exitFees == a.tpFees + a.stopFees + Sum(OtherExitFee, log)
  {
    if |log| > 0 { TotalsAreSums(log[..|log| - 1]); }
  }

  /** Net P&L as the metrics report it: all fees are charged. */
  function NetPnl(a: Account): real {
    a.realized + a.funding - a.entryFees - a.exitFees
  }

  // ----- the replay

  datatype Financials = Financials(gross: real, entryFees: real, tpFees: real, stopFees: real, funding: real, net: real)

  /** The figures rebuilt from the event log alone. They are those of the account,
      but net P&L is only charged with the fees of take-profits and stops. */
  method ReplaySimulatedFinancials(log: seq<Event>) returns (r: Financials)
    ensures var a := AccountOf(log);
            r == Financials(a.realized, a.entryFees, a.tpFees, a.stopFees, a.funding,
                            a.realized + a.funding - (a.entryFees + a.tpFees + a.stopFees))
  {
    var position, average, gross, entryFees, tpFees, stopFees, funding := 0.0, 0.0, 0.0, 0.0, 0.0, 0.0, 0.0;
    var k := 0;
    while k < |log|
      invariant 0 <= k <= |log|
      invariant var a := AccountOf(log[..k]);
                && a.position == position && a.average == average && a.realized == gross && a.funding == funding
                && a.entryFees == entryFees && a.tpFees == tpFees && a.stopFees == stopFees
    {
      ghost var before := AccountOf(log[..k]);
      assert log[..k + 1] == log[..k] + [log[k]];
      AccountOfMore(log[..k], log[k]);
      match log[k] {
        case FundingApplied(payment) => funding := funding + payment;
        case Noted(_) =>
        case ExecutionEvent(x) =>
          if x.side == Sell {
            var total := Times(average, position) + Times(x.price, x.quantity);
            position := position + x.quantity;
            average := total / position;
            entryFees := entryFees + x.fee;
          } else {
            var closed := Lesser(x.quantity, position);
            gross := gross + Times(average - x.price, closed);
            position := position - closed;
            if position == 0.0 { average := 0.0; }
            if x.role == HedgeTp {
              tpFees := tpFees + x.fee;
            } else if x.role == HedgeStop {
              stopFees := stopFees + x.fee;
            }
          }
      }
      k := k + 1;
    }
    assert log[..k] == log;
    return Financials(gross, entryFees, tpFees, stopFees, funding, gross + funding - (entryFees + tpFees + stopFees));
  }

  function ReplayedNet(log: seq<Event>): real {
    var a := AccountOf(log);
    a.realized + a.funding - (a.entryFees + a.tpFees + a.stopFees)
  }

  /** The fees of purchases that are neither take-profits nor stops. */
  function OtherExitFee(e: Event): real {
    if e.ExecutionEvent? && e.execution.side == Buy && e.execution.role != HedgeTp && e.execution.role != HedgeStop
    then e.execution.fee else 0.0
  }

  /** The replay overstates net P&L by exactly the fees of the other purchases:
      the two agree just when these cancel out, so, as no fee is negative, just
      when each of them is zero. */
  lemma ReplayNetDiffersByOtherFees(log: seq<Event>)
    ensures ReplayedNet(log) == NetPnl(AccountOf(log)) + Sum(OtherExitFee, log)
    ensures (forall e | e in log :: OtherExitFee(e) >= 0.0) ==>
              (ReplayedNet(log) == NetPnl(AccountOf(log)) <==> forall i | 0 <= i < |log| :: OtherExitFee(log[i]) == 0.0)
  {
    TotalsAreSums(log);
    if forall e | e in log :: OtherExitFee(e) >= 0.0 { SumIsZeroIff(OtherExitFee, log); }
  }

  /** An emergency close with a fee is such a purchase: after it a replay that
      agreed no longer does. */
  lemma EmergencyCloseMakesReplayDiffer(log: seq<Event>, price: real, quantity: real, fee: real)
    requires ReplayedNet(log) == NetPnl(AccountOf(log)) && quantity > 0.0 && fee > 0.0
    ensures var after := log + [ExecutionEvent(Executed(price, quantity, fee, Buy, EmergencyClose))];
            ReplayedNet(after) == NetPnl(AccountOf(after)) + fee
  {
    var e := ExecutionEvent(Executed(price, quantity, fee, Buy, EmergencyClose));
    ReplayNetDiffersByOtherFees(log);
    ReplayNetDiffersByOtherFees(log + [e]);
    SumAppend(OtherExitFee, log, e);
  }

  // ----- gross P&L is cash plus what is open

  function SoldNotional(e: Event): real {
    if e.ExecutionEvent? && e.execution.side == Sell then Times(e.execution.price, e.execution.quantity) else 0.0
  }

  function SoldQuantity(e: Event): real {
    if e.ExecutionEvent? && e.execution.side == Sell then e.execution.quantity else 0.0
  }

  /** What a purchase closes, given the log before it. */
  function ClosedBy(before: seq<Event>, e: Event): real {
    if e.ExecutionEvent? && e.execution.side == Buy then Lesser(e.execution.quantity, AccountOf(before).position)
    else 0.0
  }

  function ClosedQuantity(log: seq<Event>): real {
    if |log| == 0 then 0.0
    else ClosedQuantity(log[..|log| - 1]) + ClosedBy(log[..|log| - 1], log[|log| - 1])
  }

  function ClosedNotional(log: seq<Event>): real {
    if |log| == 0 then 0.0
    else
      var before, e := log[..|log| - 1], log[|log| - 1];
      ClosedNotional(before) + (if e.ExecutionEvent? then Times(e.execution.price, ClosedBy(before, e)) else 0.0)
  }

  lemma WeightedAverage(a: real, p: real, b: real, q: real)
    requires p + q > 0.0
    ensures Times((Times(a, p) + Times(b, q)) / (p + q), p + q) == Times(a, p) + Times(b, q)
  {
    QuotientBack(Times(a, p) + Times(b, q), p + q);
  }

  lemma CloseAtAverage(average: real, price: real, position: real, closed: real)
    ensures Times(average - price, closed) + Times(average, position - closed)
            == Times(average, position) - Times(price, closed)
  {}

  /** Gross P&L is what was sold less what was bought back, less the open position
      at its average price; and the position is what was sold less what was closed. */
  lemma {:induction false} GrossIsCashLessOpenValue(log: seq<Event>)
    ensures var a := AccountOf(log);
            && a.realized == Sum(SoldNotional, log) - ClosedNotional(log) - Times(a.average, a.position)
            && a.position == Sum(SoldQuantity, log) - ClosedQuantity(log)
  {
    if |log| == 0 {
      TimesZero(0.0);
    } else {
      var before, e := log[..|log| - 1], log[|log| - 1];
      var a := AccountOf(before);
      GrossIsCashLessOpenValue(before);
      if e.ExecutionEvent? {
        var x := e.execution;
        if x.side == Sell {
          WeightedAverage(a.average, a.position, x.price, x.quantity);
          TimesZero(x.price);
        } else {
          CloseAtAverage(a.average, x.price, a.position, ClosedBy(before, e));
          TimesZero(a.average);
          TimesZero(0.0);
        }
      }
    }
  }

  /** Every purchase in the log is covered by the position at its time. */
  ghost predicate Covered(log: seq<Event>) {
    forall k | 0 <= k < |log| && log[k].ExecutionEvent? && log[k].execution.side == Buy ::
      log[k].execution.quantity <= AccountOf(log[..k]).position
  }

  function BoughtNotional(e: Event): real {
    if e.ExecutionEvent? && e.execution.side == Buy then Times(e.execution.price, e.execution.quantity) else 0.0
  }

  /** When no purchase overruns the position, gross P&L is plain cash flow less
      the open value. */
  lemma {:induction false} CoveredIsCashFlow(log: seq<Event>)
    requires Covered(log)
    ensures ClosedNotional(log) == Sum(BoughtNotional, log)
  {
    if |log| > 0 {
      var last := |log| - 1;
      assert forall k | 0 <= k < last :: log[..last][k] == log[k] && log[..last][..k] == log[..k];
      CoveredIsCashFlow(log[..last]);
      if log[last].ExecutionEvent? && log[last].execution.side == Sell { TimesZero(log[last].execution.price); }
    }
  }
}
