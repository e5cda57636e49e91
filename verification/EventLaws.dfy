/** What the ledger says, event by event and in its totals, at the end of every
    path: prices, amounts, components and ticks of the events, and the counters
    that summarize them. */
module EventLaws {
  import opened Products
  import opened VirtualLevels
  import opened Ledgers
  import opened Sums
  import opened HedgeModel
  import opened Positions
  import opened Claims
  import opened StopBudget
  import opened Accounting
  import opened Runs
  import opened PathRefinement

  // ----- one event

  /** An event at its level's own price, with the amounts of its kind: an entry shows
      the stop loss it risks, a take-profit its profit split into zone budget and
      repaid claim, a stop its loss. */
  predicate EventOk(zones: seq<Zone>, e: LedgerEvent) {
    e.level < |zones|
    && var zone := zones[e.level];
       var risked := Times(e.quantity, zone.StopDistance());
       match e.kind
       case EntryEvent =>
         && e.price == zone.entry && e.quantity > 0.0 && e.attempt >= 1 && e.levelState == Active
         && e.realizedPnl == 0.0 && e.projectedStopLoss == risked && e.zoneComponent == e.recoveryComponent == 0.0
       case FloorEntryEvent =>
         && e.price == zone.entry && e.quantity > 0.0 && e.attempt >= 1 && e.levelState == Active
         && e.realizedPnl == 0.0 && e.projectedStopLoss == risked && e.zoneComponent == e.recoveryComponent == 0.0
       case TpEvent =>
         && e.price == zone.tp && e.quantity > 0.0 && e.levelState == Paid && e.projectedStopLoss == 0.0
         && e.realizedPnl == Times(e.quantity, zone.TpDistance()) == e.zoneComponent + e.recoveryComponent
         && e.zoneComponent == zone.budget && e.recoveryComponent == e.recoveryClaim.Amount() >= 0.0
       case StopEvent =>
         && e.price == zone.stop && e.quantity > 0.0 && e.levelState == Ready && e.projectedStopLoss == 0.0
         && e.realizedPnl == -risked && e.zoneComponent == e.recoveryComponent == 0.0
       case BreakevenEvent =>
         && e.price == zone.entry && e.quantity > 0.0 && e.levelState == Ready && e.projectedStopLoss == 0.0
         && e.realizedPnl == 0.0 && e.zoneComponent == e.recoveryComponent == 0.0
       case LockedEvent =>
         && e.price == zone.entry && e.quantity > 0.0 && e.levelState == Locked && e.projectedStopLoss == risked
         && e.realizedPnl == 0.0 && e.zoneComponent == e.recoveryComponent == 0.0
  }

  lemma ClaimIsNotNegative(d: Desk, s: State, i: nat)
    requires AllDebtsOk(d, s.levels) && i < |s.levels|
    ensures ClaimFor(d, s.levels, i).Amount() >= 0.0
  {
    assert DebtOk(d, s.levels[i]);
    if d.mode == Distributed {
      var claim := ClaimFor(d, s.levels, i);
      OldestClaimIsFirst(s.levels, i, 0);
      if claim.Claim? { InstalmentBounds(s.levels[claim.source]); }
    }
  }

  /** The event a crossing appends. */
  function Fired(d: Desk, s: State, i: nat, dir: Direction, tick: int): LedgerEvent
    requires i < |s.levels| && TriggerOf(s.levels[i], dir).Trigger?
  {
    FireAppends(d, s, i, dir, tick);
    Fire(d, s, i, dir, tick).book.events[|s.book.events|]
  }

  /** Which event a crossing is, when and where. */
  lemma FiredIs(d: Desk, s: State, i: nat, dir: Direction, tick: int)
    requires i < |s.levels| && TriggerOf(s.levels[i], dir).Trigger?
    ensures var e, t := Fired(d, s, i, dir, tick), TriggerOf(s.levels[i], dir);
            && e.sequence == |s.book.events| + 1 && e.tick == tick && e.level == i && e.price == t.price
            && (t.crossing == Entry <==> e.kind.EntryEvent? || e.kind.FloorEntryEvent? || e.kind.LockedEvent?)
            && (t.crossing == Tp <==> e.kind.TpEvent?) && (t.crossing == Stop <==> e.kind.StopEvent?)
            && (t.crossing == Breakeven <==> e.kind.BreakevenEvent?)
  {}

  lemma EntryEventIsOk(d: Desk, s: State, i: nat, tick: int)
    requires Owing(d, s) && i < |s.levels| && TriggerOf(s.levels[i], Down).Trigger?
    requires TriggerOf(s.levels[i], Down).crossing == Entry
    ensures EventOk(ZonesIn(s.levels), Fired(d, s, i, Down, tick))
  {
    var claim := ClaimFor(d, s.levels, i);
    ClaimIsNotNegative(d, s, i);
    EntryQuantityPositive(s.levels[i].zone, claim);
    OpenedEvent(d, s, i, tick);
  }

  /** What an entry records, whatever it comes to. */
  lemma OpenedEvent(d: Desk, s: State, i: nat, tick: int)
    requires i < |s.levels| && s.levels[i].state == Ready
    ensures var e, zone := Open(d, s, i, tick).book.events[|s.book.events|], s.levels[i].zone;
            && e.level == i && e.price == zone.entry && e.quantity == EntryQuantity(zone, ClaimFor(d, s.levels, i))
            && e.projectedStopLoss == Times(e.quantity, zone.StopDistance())
            && e.realizedPnl == e.zoneComponent == e.recoveryComponent == 0.0
            && (e.kind.LockedEvent? ==> e.levelState == Locked)
            && (e.kind.EntryEvent? || e.kind.FloorEntryEvent? ==> e.attempt >= 1 && e.levelState == Active)
            && (e.kind.LockedEvent? || e.kind.EntryEvent? || e.kind.FloorEntryEvent?)
  {}

  lemma ExitEventIsOk(d: Desk, s: State, i: nat, dir: Direction, tick: int)
    requires Gridded(d, s) && Owing(d, s) && i < |s.levels| && s.levels[i].state == Active
    ensures EventOk(ZonesIn(s.levels), Fired(d, s, i, dir, tick))
  {
    assert ClaimOk(d, s.levels, i) && ZonesIn(s.levels)[i] == s.levels[i].zone;
    EntryQuantityPositive(s.levels[i].zone, s.levels[i].claim);
  }

  lemma FiredEventIsOk(d: Desk, s: State, i: nat, dir: Direction, tick: int)
    requires Gridded(d, s) && Owing(d, s) && i < |s.levels| && TriggerOf(s.levels[i], dir).Trigger?
    ensures EventOk(ZonesIn(s.levels), Fired(d, s, i, dir, tick))
  {
    if s.levels[i].state == Active {
      ExitEventIsOk(d, s, i, dir, tick);
    } else {
      EntryEventIsOk(d, s, i, tick);
    }
  }

  // ----- the totals

  function IsEntry(e: LedgerEvent): int {
    if e.kind.EntryEvent? || e.kind.FloorEntryEvent? then 1 else 0
  }

  function IsReentry(e: LedgerEvent): int {
    if IsEntry(e) == 1 && e.attempt > 1 then 1 else 0
  }

  function OfKind(kind: EventKind): LedgerEvent -> int {
    (e: LedgerEvent) => if e.kind == kind then 1 else 0
  }

  function EntryOn(i: nat): LedgerEvent -> int {
    (e: LedgerEvent) => if e.level == i then IsEntry(e) else 0
  }

  function StopOn(i: nat): LedgerEvent -> int {
    (e: LedgerEvent) => if e.level == i && e.kind.StopEvent? then 1 else 0
  }

  function ZonePart(e: LedgerEvent): real {
    e.zoneComponent
  }

  function RecoveryPart(e: LedgerEvent): real {
    e.recoveryComponent
  }

  /** The counters of the ledger count its events. */
  ghost predicate CountsEvents(book: Book) {
    && book.entries == Count(IsEntry, book.events) && book.reentries == Count(IsReentry, book.events)
    && book.floorEntries == Count(OfKind(FloorEntryEvent), book.events)
    && book.stops == Count(OfKind(StopEvent), book.events) && book.tps == Count(OfKind(TpEvent), book.events)
    && book.breakevens == Count(OfKind(BreakevenEvent), book.events)
  }

  lemma CountMore(weight: LedgerEvent -> int, events: seq<LedgerEvent>, e: LedgerEvent)
    ensures Count(weight, events + [e]) == Count(weight, events) + weight(e)
  {
    assert (events + [e])[..|events|] == events;
  }

  /** How a crossing moves the counters. */
  lemma FireMovesCounters(d: Desk, s: State, i: nat, dir: Direction, tick: int)
    requires i < |s.levels| && TriggerOf(s.levels[i], dir).Trigger?
    ensures var b, a, e := s.book, Fire(d, s, i, dir, tick).book, Fired(d, s, i, dir, tick);
            && a.entries == b.entries + IsEntry(e) && a.reentries == b.reentries + IsReentry(e)
            && a.floorEntries == b.floorEntries + OfKind(FloorEntryEvent)(e)
            && a.stops == b.stops + OfKind(StopEvent)(e) && a.tps == b.tps + OfKind(TpEvent)(e)
            && a.breakevens == b.breakevens + OfKind(BreakevenEvent)(e)
            && a.grossTps == b.grossTps + Gained(e)
  {}

  lemma CountsMore(before: Book, after: Book, e: LedgerEvent)
    requires CountsEvents(before) && after.events == before.events + [e]
    requires after.entries == before.entries + IsEntry(e) && after.reentries == before.reentries + IsReentry(e)
    requires after.floorEntries == before.floorEntries + OfKind(FloorEntryEvent)(e)
    requires after.stops == before.stops + OfKind(StopEvent)(e) && after.tps == before.tps + OfKind(TpEvent)(e)
    requires after.breakevens == before.breakevens + OfKind(BreakevenEvent)(e)
    ensures CountsEvents(after)
  {
    CountMore(IsEntry, before.events, e);
    CountMore(IsReentry, before.events, e);
    CountMore(OfKind(FloorEntryEvent), before.events, e);
    CountMore(OfKind(StopEvent), before.events, e);
    CountMore(OfKind(TpEvent), before.events, e);
    CountMore(OfKind(BreakevenEvent), before.events, e);
  }

  /** The largest hedge ever opened, or nothing. */
  ghost predicate IsLargest(maximum: real, events: seq<LedgerEvent>) {
    && maximum >= 0.0
    && (forall e | e in events && IsEntry(e) == 1 :: e.quantity <= maximum)
    && (maximum > 0.0 ==> exists e :: e in events && IsEntry(e) == 1 && e.quantity == maximum)
  }

  lemma FireKeepsLargest(d: Desk, s: State, i: nat, dir: Direction, tick: int)
    requires IsLargest(s.book.maximumQuantity, s.book.events) && i < |s.levels|
    requires TriggerOf(s.levels[i], dir).Trigger?
    ensures var r := Fire(d, s, i, dir, tick); IsLargest(r.book.maximumQuantity, r.book.events)
  {
    var r, e := Fire(d, s, i, dir, tick), Fired(d, s, i, dir, tick);
    FireAppends(d, s, i, dir, tick);
    forall x | x in r.book.events && IsEntry(x) == 1 ensures x.quantity <= r.book.maximumQuantity {
      assert x in s.book.events || x == e;
    }
    if r.book.maximumQuantity > 0.0 {
      if r.book.maximumQuantity == s.book.maximumQuantity {
        var x :| x in s.book.events && IsEntry(x) == 1 && x.quantity == s.book.maximumQuantity;
        assert x in r.book.events;
      } else {
        assert e in r.book.events;
      }
    }
  }

  /** Attempts and stop history of each level count its own events. */
  ghost predicate LevelsCount(s: State) {
    forall j: nat | j < |s.levels| ::
      && s.levels[j].attempts == Count(EntryOn(j), s.book.events)
      && |s.levels[j].stopHistory| == Count(StopOn(j), s.book.events)
  }

  /** A level counts one more attempt or stop exactly when the event is its own. */
  lemma FiredCountsOn(d: Desk, s: State, i: nat, dir: Direction, tick: int, j: nat)
    requires i < |s.levels| && TriggerOf(s.levels[i], dir).Trigger? && j < |s.levels|
    ensures var r, e := Fire(d, s, i, dir, tick).levels[j], Fired(d, s, i, dir, tick);
            && r.attempts == s.levels[j].attempts + EntryOn(j)(e)
            && |r.stopHistory| == |s.levels[j].stopHistory| + StopOn(j)(e)
  {
    if j != i { OthersCountNothing(d, s, i, dir, tick, j); }
  }

  lemma OthersCountNothing(d: Desk, s: State, i: nat, dir: Direction, tick: int, j: nat)
    requires i < |s.levels| && TriggerOf(s.levels[i], dir).Trigger? && j < |s.levels| && j != i
    ensures var r := Fire(d, s, i, dir, tick).levels[j];
            r.attempts == s.levels[j].attempts && r.stopHistory == s.levels[j].stopHistory
    ensures Fired(d, s, i, dir, tick).level == i
  {}

  lemma FireKeepsLevelCounts(d: Desk, s: State, i: nat, dir: Direction, tick: int)
    requires LevelsCount(s) && i < |s.levels| && TriggerOf(s.levels[i], dir).Trigger?
    ensures LevelsCount(Fire(d, s, i, dir, tick))
  {
    var r, e := Fire(d, s, i, dir, tick), Fired(d, s, i, dir, tick);
    FireAppends(d, s, i, dir, tick);
    forall j: nat | j < |r.levels|
      ensures r.levels[j].attempts == Count(EntryOn(j), r.book.events)
      ensures |r.levels[j].stopHistory| == Count(StopOn(j), r.book.events)
    {
      FiredCountsOn(d, s, i, dir, tick, j);
      CountMore(EntryOn(j), s.book.events, e);
      CountMore(StopOn(j), s.book.events, e);
    }
  }

  // ----- whole runs

  ghost predicate EventsInOrder(zones: seq<Zone>, events: seq<LedgerEvent>) {
    forall k | 0 <= k < |events| :: EventOk(zones, events[k]) && events[k].sequence == k + 1
  }

  lemma EventsGrow(zones: seq<Zone>, events: seq<LedgerEvent>, e: LedgerEvent)
    requires EventsInOrder(zones, events) && EventOk(zones, e) && e.sequence == |events| + 1
    ensures EventsInOrder(zones, events + [e])
  {}

  ghost predicate Recorded(zones: seq<Zone>, s: State) {
    && ZonesIn(s.levels) == zones
    && EventsInOrder(zones, s.book.events)
    && CountsEvents(s.book) && IsLargest(s.book.maximumQuantity, s.book.events) && LevelsCount(s)
    && Sum(ZonePart, s.book.events) == Sum(PaidBudget, s.levels) && Sum(Gained, s.book.events) == s.book.grossTps
  }

  lemma TpMovesZoneParts(d: Desk, s: State, i: nat, tick: int)
    requires Owing(d, s) && i < |s.levels| && s.levels[i].state == Active
    ensures var r := TakeProfit(d, s, i, tick);
            Sum(PaidBudget, r.levels) == Sum(PaidBudget, s.levels) + s.levels[i].zone.budget
  {
    var r, levels := TakeProfit(d, s, i, tick), RepayClaim(d, s.levels, s.levels[i].claim);
    assert ClaimOk(d, s.levels, i);
    RepaymentSums(d, s.levels, s.levels[i].claim);
    assert r.levels == levels[i := r.levels[i]];
    SumUpdate(PaidBudget, levels, i, r.levels[i]);
  }

  lemma OthersKeepZoneParts(d: Desk, s: State, i: nat, dir: Direction, tick: int)
    requires i < |s.levels| && TriggerOf(s.levels[i], dir).Trigger? && TriggerOf(s.levels[i], dir).crossing != Tp
    ensures var r := Fire(d, s, i, dir, tick); Sum(PaidBudget, r.levels) == Sum(PaidBudget, s.levels)
  {
    var r := Fire(d, s, i, dir, tick);
    assert r.levels == s.levels[i := r.levels[i]];
    SumUpdate(PaidBudget, s.levels, i, r.levels[i]);
  }

  lemma FireKeepsZoneParts(d: Desk, s: State, i: nat, dir: Direction, tick: int)
    requires Sum(ZonePart, s.book.events) == Sum(PaidBudget, s.levels)
    requires Gridded(d, s) && Owing(d, s) && i < |s.levels| && TriggerOf(s.levels[i], dir).Trigger?
    ensures var r := Fire(d, s, i, dir, tick); Sum(ZonePart, r.book.events) == Sum(PaidBudget, r.levels)
  {
    FireAppends(d, s, i, dir, tick);
    FiredIs(d, s, i, dir, tick);
    FiredEventIsOk(d, s, i, dir, tick);
    SumAppend(ZonePart, s.book.events, Fired(d, s, i, dir, tick));
    if TriggerOf(s.levels[i], dir).crossing == Tp {
      TpMovesZoneParts(d, s, i, tick);
    } else {
      OthersKeepZoneParts(d, s, i, dir, tick);
    }
  }

  lemma FireKeepsRecorded(d: Desk, zones: seq<Zone>, s: State, i: nat, dir: Direction, tick: int)
    requires Gridded(d, s) && Owing(d, s) && Recorded(zones, s) && i < |s.levels|
    requires TriggerOf(s.levels[i], dir).Trigger?
    ensures Recorded(zones, Fire(d, s, i, dir, tick))
  {
    FireKeepsZones(d, s, i, dir, tick);
    FireAppends(d, s, i, dir, tick);
    FiredIs(d, s, i, dir, tick);
    FiredEventIsOk(d, s, i, dir, tick);
    EventsGrow(zones, s.book.events, Fired(d, s, i, dir, tick));
    FireMovesCounters(d, s, i, dir, tick);
    CountsMore(s.book, Fire(d, s, i, dir, tick).book, Fired(d, s, i, dir, tick));
    SumAppend(Gained, s.book.events, Fired(d, s, i, dir, tick));
    FireKeepsLargest(d, s, i, dir, tick);
    FireKeepsLevelCounts(d, s, i, dir, tick);
    FireKeepsZoneParts(d, s, i, dir, tick);
  }

  lemma FreshIsRecorded(zones: seq<Zone>)
    ensures Recorded(zones, FreshState(zones))
  {
    SumZero(PaidBudget, FreshState(zones).levels);
    assert ZonesIn(FreshState(zones).levels) == zones;
  }

  lemma ArmKeepsRecorded(zones: seq<Zone>, s: State, price: real)
    requires Recorded(zones, s)
    ensures Recorded(zones, Arm(s, price))
  {
    SumsAgree(s.levels, Arm(s, price).levels);
    assert ZonesIn(Arm(s, price).levels) == ZonesIn(s.levels);
  }

  /** At the end of every path every event is in order, the counters count the events,
      and the components of the take-profits add up: the zone parts to the budgets of
      the paid levels, the recovery parts to the stop losses that are no longer owed. */
  lemma RunIsRecorded(d: Desk, zones: seq<Zone>, prices: seq<real>)
    requires Tiles(d.spread, d.rate, zones) && |prices| > 0
    ensures var s := After(d, zones, prices).state;
            && Recorded(zones, s)
            && Sum(RecoveryPart, s.book.events) == s.book.grossStops - Sum(DebtOf, s.levels)
  {
    ghost var kept := (s: State) => Recorded(zones, s);
    FreshIsRecorded(zones);
    forall s, p | kept(s) ensures kept(Arm(s, p)) {
      ArmKeepsRecorded(zones, s, p);
    }
    forall s, i, dir, t | kept(s) && CanFire(d, s, i, dir, prices[0], false) ensures kept(Fire(d, s, i, dir, t)) {
      CanFireIsTriggered(d, s, i, dir, prices[0], false);
      FireKeepsRecorded(d, zones, s, i, dir, t);
    }
    RunInvariant(d, zones, prices, false, kept);
    RecoveryPartsAddUp(zones, After(d, zones, prices).state);
  }

  lemma RecoveryPartsAddUp(zones: seq<Zone>, s: State)
    requires Recorded(zones, s) && Conserved(s)
    ensures Sum(RecoveryPart, s.book.events) == s.book.grossStops - Sum(DebtOf, s.levels)
  {
    var events := s.book.events;
    RecoveryParts(zones, events, |events|);
    assert events[..|events|] == events;
  }

  /** What the events realize is zone parts plus recovery parts less losses. */
  lemma {:induction false} RecoveryParts(zones: seq<Zone>, events: seq<LedgerEvent>, n: nat)
    requires n <= |events| && forall k | 0 <= k < |events| :: EventOk(zones, events[k])
    ensures Sum(ZonePart, events[..n]) + Sum(RecoveryPart, events[..n]) == Sum(Gained, events[..n])
  {
    if n > 0 {
      assert events[..n][..n - 1] == events[..n - 1];
      RecoveryParts(zones, events, n - 1);
    }
  }

  function Gained(e: LedgerEvent): real {
    if e.kind.TpEvent? then e.realizedPnl else 0.0
  }

  // ----- ticks

  /** Every event happened at a price its tick passed, and ticks never go back. */
  ghost predicate InTheirTicks(prices: seq<real>, events: seq<LedgerEvent>) {
    && (forall k | 0 <= k < |events| ::
          0 < events[k].tick < |prices|
          && Between(prices[events[k].tick - 1], events[k].price, prices[events[k].tick]))
    && forall j, k | 0 <= j < k < |events| :: events[j].tick <= events[k].tick
  }

  /** The new events of a segment carry its tick number and lie ahead of its cursor. */
  ghost predicate NewIn(before: seq<LedgerEvent>, after: seq<LedgerEvent>, dir: Direction, cursor: real, target: real,
                        tick: int) {
    && before <= after
    && forall k | |before| <= k < |after| ::
         after[k].tick == tick && Reached(dir, cursor, after[k].price) && Reached(dir, after[k].price, target)
  }

  lemma {:induction false} SettleEvents(d: Desk, s: State, dir: Direction, start: real, cursor: real, target: real,
                                        tick: int)
    requires AllStand(s, dir, start, cursor) && Reached(dir, cursor, target)
    ensures NewIn(s.book.events, Settle(d, s, dir, target, tick).book.events, dir, cursor, target, tick)
    decreases Potential(s, dir)
  {
    NextIsFirst(s.levels, dir, target);
    if Next(s.levels, dir, target).First? {
      var i := Next(s.levels, dir, target).index;
      var r, price := Fire(d, s, i, dir, tick), TriggerOf(s.levels[i], dir).price;
      ExecuteUsesPotential(d, s, i, dir, target, tick);
      FireMovesCursor(d, s, i, dir, start, cursor, target, tick);
      FireAppends(d, s, i, dir, tick);
      FiredIs(d, s, i, dir, tick);
      SettleEvents(d, r, dir, start, price, target, tick);
    }
  }

  lemma StepEvents(d: Desk, run: Run, price: real, tick: int)
    requires RunRests(run) && run.previous.At?
    ensures var before, after := run.state.book.events, Step(d, run, price, tick).state.book.events;
            && before <= after
            && forall k | |before| <= k < |after| ::
                 after[k].tick == tick && Between(run.previous.price, after[k].price, price)
  {
    var previous := run.previous.price;
    if price != previous {
      RestStands(run.state, Heading(previous, price), previous);
      SettleEvents(d, run.state, Heading(previous, price), previous, previous, price, tick);
    }
  }

  /** In every run every event lies between the two prices of its tick. */
  lemma {:induction false} RunEventsLieInTheirTicks(d: Desk, zones: seq<Zone>, prices: seq<real>)
    ensures InTheirTicks(prices, After(d, zones, prices).state.book.events)
  {
    if |prices| > 0 {
      var last := |prices| - 1;
      var before := prices[..last];
      RunEventsLieInTheirTicks(d, zones, before);
      AfterMore(d, zones, before, prices[last]);
      assert before + [prices[last]] == prices;
      if last > 0 {
        AfterRests(d, zones, before);
        StepEvents(d, After(d, zones, before), prices[last], last);
        MoreInTheirTicks(before, prices[last], After(d, zones, before).state.book.events,
                         After(d, zones, prices).state.book.events);
      }
    }
  }

  lemma MoreInTheirTicks(before: seq<real>, price: real, events: seq<LedgerEvent>, after: seq<LedgerEvent>)
    requires |before| > 0 && InTheirTicks(before, events) && events <= after
    requires forall k | |events| <= k < |after| ::
               after[k].tick == |before| && Between(before[|before| - 1], after[k].price, price)
    ensures InTheirTicks(before + [price], after)
  {}
}
