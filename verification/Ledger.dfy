/** The append-only event ledger and its running totals. */
module Ledgers {
  import opened CreditSpreads
  import opened Products
  import opened VirtualLevels
  import opened Sums

  datatype EventKind = EntryEvent | FloorEntryEvent | TpEvent | StopEvent | BreakevenEvent | LockedEvent

  datatype LedgerEvent = LedgerEvent(
    sequence: nat,
    tick: int,
    kind: EventKind,
    level: nat,
    price: real,
    quantity: real,
    realizedPnl: real,
    levelState: LevelState,
    attempt: nat,
    projectedStopLoss: real,
    zoneComponent: real,
    recoveryComponent: real,
    recoveryClaim: Claim)

  /** The value of a ledger at one moment. */
  datatype Book = Book(
    events: seq<LedgerEvent>,
    realized: real,
    grossStops: real,
    grossTps: real,
    maximumQuantity: real,
    entries: nat,
    stops: nat,
    tps: nat,
    reentries: nat,
    floorEntries: nat,
    breakevens: nat)
  {
    function Append(tick: int, kind: EventKind, i: nat, level: Level, price: real, quantity: real,
                    realizedPnl: real, projected: real, zonePart: real, recoveryPart: real, claim: Claim): Book
    {
      this.(events := events + [LedgerEvent(|events| + 1, tick, kind, i, price, quantity, realizedPnl,
                                            level.state, level.attempts, projected, zonePart, recoveryPart, claim)])
    }

    function RecordOpen(tick: int, kind: EventKind, i: nat, level: Level, quantity: real, projected: real): Book {
      this.(entries := entries + 1,
            reentries := if level.attempts > 1 then reentries + 1 else reentries,
            maximumQuantity := if quantity > maximumQuantity then quantity else maximumQuantity)
      .Append(tick, kind, i, level, level.zone.entry, quantity, 0.0, projected, 0.0, 0.0, NoClaim)
    }

    function RecordEntry(tick: int, i: nat, level: Level, quantity: real, projected: real): Book {
      RecordOpen(tick, EntryEvent, i, level, quantity, projected)
    }

    function RecordFloorEntry(tick: int, i: nat, level: Level, quantity: real, projected: real): Book {
      this.(floorEntries := floorEntries + 1).RecordOpen(tick, FloorEntryEvent, i, level, quantity, projected)
    }

    function RecordBreakeven(tick: int, i: nat, level: Level, quantity: real): Book {
      this.(breakevens := breakevens + 1)
      .Append(tick, BreakevenEvent, i, level, level.zone.entry, quantity, 0.0, 0.0, 0.0, 0.0, NoClaim)
    }

    function RecordStop(tick: int, i: nat, level: Level, quantity: real, loss: real): Book {
      this.(stops := stops + 1, grossStops := grossStops + loss, realized := realized - loss)
      .Append(tick, StopEvent, i, level, level.zone.stop, quantity, -loss, 0.0, 0.0, 0.0, NoClaim)
    }

    function RecordTp(tick: int, i: nat, level: Level, quantity: real, profit: real,
                      zonePart: real, recoveryPart: real, claim: Claim): Book
    {
      this.(tps := tps + 1, grossTps := grossTps + profit, realized := realized + profit)
      .Append(tick, TpEvent, i, level, level.zone.tp, quantity, profit, 0.0, zonePart, recoveryPart, claim)
    }

    function RecordLocked(tick: int, i: nat, level: Level, quantity: real, projected: real): Book {
      Append(tick, LockedEvent, i, level, level.zone.entry, quantity, 0.0, projected, 0.0, 0.0, NoClaim)
    }
  }

  const EMPTY_BOOK := Book([], 0.0, 0.0, 0.0, 0.0, 0, 0, 0, 0, 0, 0)

  // ----- snapshots and results

  datatype EventRef = NoEvent | AfterEvent(sequence: nat)

  datatype Snapshot = Snapshot(
    tick: int,
    eventSequence: EventRef,
    price: real,
    optionPnl: real,
    realizedPnl: real,
    openPnl: real,
    combined: real,
    grossStops: real,
    grossTps: real,
    outstandingDebt: real,
    remainingBudget: real,
    incremental: real)

  function OpenPnlAt(price: real): Level -> real {
    (level: Level) => if level.state == Active then Times(level.quantity, level.zone.entry - price) else 0.0
  }

  function DebtOf(level: Level): real {
    level.debt
  }

  /** Option value at this terminal price plus realized and open hedge P&L. */
  function Combined(spread: CreditSpread, levels: seq<Level>, book: Book, price: real): real {
    spread.ExpiryPnl(price) + book.realized + Sum(OpenPnlAt(price), levels)
  }

  function SnapshotOf(spread: CreditSpread, levels: seq<Level>, book: Book, price: real, tick: int,
                      after: EventRef): Snapshot {
    var combined := Combined(spread, levels, book, price);
    Snapshot(tick, after, price, spread.ExpiryPnl(price), book.realized, Sum(OpenPnlAt(price), levels), combined,
             book.grossStops, book.grossTps, Sum(DebtOf, levels), spread.premium - book.grossStops,
             combined - spread.ExpiryPnl(spread.spot))
  }

  datatype Metrics = Metrics(
    combined: real,
    minimumCombined: real,
    floorPass: bool,
    entries: nat,
    stops: nat,
    tps: nat,
    reentries: nat,
    floorEntries: nat,
    breakevens: nat,
    maximumQuantity: real,
    budgetConsumed: real,
    remainingBudget: real,
    lockedLevels: seq<nat>,
    outstandingDebt: real)

  datatype StrategyResult = StrategyResult(
    inputPrices: seq<real>,
    prices: seq<real>,
    snapshots: seq<Snapshot>,
    events: seq<LedgerEvent>,
    levels: seq<Level>,
    metrics: Metrics)

  function MinimumCombined(snapshots: seq<Snapshot>): real
    requires |snapshots| > 0
  {
    var last := snapshots[|snapshots| - 1].combined;
    if |snapshots| == 1 then last
    else
      var rest := MinimumCombined(snapshots[..|snapshots| - 1]);
      if last < rest then last else rest
  }

  /** The minimum is one of the sampled values and at most each of them. */
  lemma {:induction false} MinimumCombinedIsLeast(snapshots: seq<Snapshot>)
    requires |snapshots| > 0
    ensures exists k | 0 <= k < |snapshots| :: snapshots[k].combined == MinimumCombined(snapshots)
    ensures forall k | 0 <= k < |snapshots| :: MinimumCombined(snapshots) <= snapshots[k].combined
  {
    var last := |snapshots| - 1;
    if last == 0 {
      assert snapshots[0].combined == MinimumCombined(snapshots);
    } else {
      MinimumCombinedIsLeast(snapshots[..last]);
      var k :| 0 <= k < last && snapshots[..last][k].combined == MinimumCombined(snapshots[..last]);
      assert snapshots[k].combined == MinimumCombined(snapshots)
             || snapshots[last].combined == MinimumCombined(snapshots);
      forall k | 0 <= k < |snapshots| ensures MinimumCombined(snapshots) <= snapshots[k].combined {
        if k < last { assert snapshots[..last][k] == snapshots[k]; }
      }
    }
  }

  function LockedIndices(levels: seq<Level>): seq<nat> {
    if |levels| == 0 then []
    else
      var last := |levels| - 1;
      LockedIndices(levels[..last]) + (if levels[last].state == Locked then [last] else [])
  }

  function ResultOf(spread: CreditSpread, levels: seq<Level>, book: Book, prices: seq<real>,
                    snapshots: seq<Snapshot>): StrategyResult
    requires |snapshots| > 0
  {
    var minimum := MinimumCombined(snapshots);
    var final := snapshots[|snapshots| - 1];
    StrategyResult(
      prices, seq(|snapshots|, k requires 0 <= k < |snapshots| => snapshots[k].price), snapshots, book.events, levels,
      Metrics(final.combined, minimum, minimum >= 0.0, book.entries, book.stops, book.tps, book.reentries,
              book.floorEntries, book.breakevens, book.maximumQuantity, book.grossStops,
              spread.premium - book.grossStops, LockedIndices(levels), final.outstandingDebt))
  }

  class Ledger {
    var events: seq<LedgerEvent>
    var realized: real
    var grossStops: real
    var grossTps: real
    var maximumQuantity: real
    var entries: nat
    var stops: nat
    var tps: nat
    var reentries: nat
    var floorEntries: nat
    var breakevens: nat

    constructor ()
      ensures View() == EMPTY_BOOK
    {
      events := [];
      realized, grossStops, grossTps, maximumQuantity := 0.0, 0.0, 0.0, 0.0;
      entries, stops, tps, reentries, floorEntries, breakevens := 0, 0, 0, 0, 0, 0;
    }

    function View(): Book
      reads this
    {
      Book(events, realized, grossStops, grossTps, maximumQuantity,
           entries, stops, tps, reentries, floorEntries, breakevens)
    }

    method RecordEntry(level: HedgeLevel, tick: int, quantity: real, projected: real)
      modifies this
      ensures View() == old(View()).RecordEntry(tick, level.index, level.View(), quantity, projected)
    {
      RecordOpen(level, tick, EntryEvent, quantity, projected);
    }

    method RecordFloorEntry(level: HedgeLevel, tick: int, quantity: real, projected: real)
      modifies this
      ensures View() == old(View()).RecordFloorEntry(tick, level.index, level.View(), quantity, projected)
    {
      floorEntries := floorEntries + 1;
      RecordOpen(level, tick, FloorEntryEvent, quantity, projected);
    }

    method RecordBreakeven(level: HedgeLevel, tick: int, quantity: real)
      modifies this
      ensures View() == old(View()).RecordBreakeven(tick, level.index, level.View(), quantity)
    {
      breakevens := breakevens + 1;
      Append(level, tick, BreakevenEvent, level.zone.entry, quantity, 0.0, 0.0, 0.0, 0.0, NoClaim);
    }

    method RecordStop(level: HedgeLevel, tick: int, quantity: real, loss: real)
      modifies this
      ensures View() == old(View()).RecordStop(tick, level.index, level.View(), quantity, loss)
    {
      stops := stops + 1;
      grossStops := grossStops + loss;
      realized := realized - loss;
      Append(level, tick, StopEvent, level.zone.stop, quantity, -loss, 0.0, 0.0, 0.0, NoClaim);
    }

    method RecordTp(level: HedgeLevel, tick: int, quantity: real, profit: real,
                    zonePart: real, recoveryPart: real, claim: Claim)
      modifies this
      ensures View() == old(View()).RecordTp(tick, level.index, level.View(), quantity, profit, zonePart, recoveryPart,
                                             claim)
    {
      tps := tps + 1;
      grossTps := grossTps + profit;
      realized := realized + profit;
      Append(level, tick, TpEvent, level.zone.tp, quantity, profit, 0.0, zonePart, recoveryPart, claim);
    }

    method RecordLocked(level: HedgeLevel, tick: int, quantity: real, projected: real)
      modifies this
      ensures View() == old(View()).RecordLocked(tick, level.index, level.View(), quantity, projected)
    {
      Append(level, tick, LockedEvent, level.zone.entry, quantity, 0.0, projected, 0.0, 0.0, NoClaim);
    }

    method RecordOpen(level: HedgeLevel, tick: int, kind: EventKind, quantity: real, projected: real)
      modifies this
      ensures View() == old(View()).RecordOpen(tick, kind, level.index, level.View(), quantity, projected)
    {
      entries := entries + 1;
      if level.attempts > 1 {
        reentries := reentries + 1;
      }
      maximumQuantity := if quantity > maximumQuantity then quantity else maximumQuantity;
      Append(level, tick, kind, level.zone.entry, quantity, 0.0, projected, 0.0, 0.0, NoClaim);
    }

    method Append(level: HedgeLevel, tick: int, kind: EventKind, price: real, quantity: real,
                  realizedPnl: real, projected: real, zonePart: real, recoveryPart: real, claim: Claim)
      modifies this`events
      ensures View() == old(View()).Append(tick, kind, level.index, level.View(), price, quantity,
                                           realizedPnl, projected, zonePart, recoveryPart, claim)
    {
      events := events + [LedgerEvent(|events| + 1, tick, kind, level.index, price, quantity, realizedPnl,
                                      level.state, level.attempts, projected, zonePart, recoveryPart, claim)];
    }
  }
}
