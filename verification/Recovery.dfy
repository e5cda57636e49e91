/** How debt is recovered: the growth of re-entries under full recovery, the
    equal instalments under distributed recovery, and the bound the premium puts
    on the number of stops and ledger events of any path. */
module Recovery {
  import opened Products
  import opened VirtualLevels
  import opened Ledgers
  import opened Sums
  import opened HedgeModel
  import opened Claims
  import opened StopBudget
  import opened Accounting
  import opened Runs

  // ----- full recovery: geometric growth

  function Power(base: real, n: nat): real {
    if n == 0 then 1.0 else Times(Power(base, n - 1), base)
  }

  /** By what factor each stop enlarges the next hedge of its level. */
  function Growth(zone: Zone): real {
    1.0 + zone.StopDistance() / zone.TpDistance()
  }

  function InitialQuantity(zone: Zone): real {
    zone.budget / zone.TpDistance()
  }

  /** The books of one level under full recovery: its stop losses are what makes
      budget plus losses grow by the same factor with each stop, all of it is
      debt until the take-profit, and the take-profit nets exactly the budget. */
  predicate Geometric(level: Level) {
    && level.zone.budget + level.stopLosses == Times(level.zone.budget, Power(Growth(level.zone), |level.stopHistory|))
    && (if level.state == Paid then level.debt == 0.0 && level.tpProfit - level.stopLosses == level.zone.budget
        else level.debt == level.stopLosses && level.tpProfit == 0.0)
  }

  ghost predicate AllGeometric(s: State) {
    forall i | 0 <= i < |s.levels| :: Geometric(s.levels[i])
  }

  lemma EntryQuantityGrows(level: Level, claim: Claim)
    requires level.zone.budget + level.stopLosses
             == Times(level.zone.budget, Power(Growth(level.zone), |level.stopHistory|))
    requires claim.Amount() == level.stopLosses
    ensures EntryQuantity(level.zone, claim)
            == Times(InitialQuantity(level.zone), Power(Growth(level.zone), |level.stopHistory|))
  {
    QuotientTimes(level.zone.budget, Power(Growth(level.zone), |level.stopHistory|), level.zone.TpDistance());
  }

  lemma QuotientTimes(a: real, p: real, t: real)
    requires t > 0.0
    ensures Times(a, p) / t == Times(a / t, p)
  {
    var q := a / t;
    assert q * t == a;
    assert Times(a, p) == Times(q, p) * t;
  }

  /** A stop turns budget plus losses into the next power. */
  lemma StopGrows(zone: Zone, total: real)
    ensures total + StopLossOf(zone, total / zone.TpDistance()) == Times(total, Growth(zone))
  {
    var t, s := zone.TpDistance(), zone.StopDistance();
    var q := total / t;
    assert Times(q, s) == Times(total, s / t) by {
      assert q * t == total && (s / t) * t == s;
      assert Times(q, s) == q * ((s / t) * t) == (q * t) * (s / t);
    }
    TimesAdds(total, 1.0, s / t);
  }

  lemma FullClaim(d: Desk, s: State, i: nat)
    requires d.mode == FullNextTp && Owing(d, s) && AllGeometric(s) && i < |s.levels| && s.levels[i].state == Active
    ensures s.levels[i].claim.Amount() == s.levels[i].stopLosses
    ensures s.levels[i].claim.Claim? ==> s.levels[i].claim.source == i
    ensures s.levels[i].quantity == (s.levels[i].zone.budget + s.levels[i].stopLosses) / s.levels[i].zone.TpDistance()
  {
    assert ClaimOk(d, s.levels, i) && Geometric(s.levels[i]);
  }

  lemma FireKeepsGeometric(d: Desk, s: State, i: nat, dir: Direction, tick: int)
    requires d.mode == FullNextTp && Owing(d, s) && AllGeometric(s)
    requires i < |s.levels| && TriggerOf(s.levels[i], dir).Trigger?
    ensures AllGeometric(Fire(d, s, i, dir, tick))
  {
    var r := Fire(d, s, i, dir, tick);
    var level := s.levels[i];
    assert Geometric(level);
    if level.state == Active { FullClaim(d, s, i); }
    match TriggerOf(level, dir).crossing
    case Entry =>
    case Breakeven =>
    case Tp =>
      EntryQuantityPositive(level.zone, level.claim);
      assert ClaimOk(d, s.levels, i);
    case Stop =>
      var total := level.zone.budget + level.stopLosses;
      StopGrows(level.zone, total);
      TimesAssociates(level.zone.budget, Power(Growth(level.zone), |level.stopHistory|), Growth(level.zone));
  }

  /** Attempts of a level when no floor hedge is ever opened. */
  predicate AttemptsOk(level: Level) {
    level.attempts == |level.stopHistory| + (if level.state == Active || level.state == Paid then 1 else 0)
  }

  /** The size of the k-th hedge of a level under full recovery. */
  function GeometricQuantity(zone: Zone, k: nat): real
    requires k > 0
  {
    Times(InitialQuantity(zone), Power(Growth(zone), k - 1))
  }

  predicate EntryIsGeometric(zones: seq<Zone>, e: LedgerEvent) {
    e.kind == EntryEvent ==>
      e.level < |zones| && e.attempt > 0 && e.quantity == GeometricQuantity(zones[e.level], e.attempt)
  }

  ghost predicate GeometricLedger(d: Desk, zones: seq<Zone>, s: State) {
    && ZonesIn(s.levels) == zones && AllGeometric(s)
    && (forall i | 0 <= i < |s.levels| :: AttemptsOk(s.levels[i]))
    && s.book.floorEntries == 0 && s.book.breakevens == 0
    && (forall i | 0 <= i < |s.levels| :: !s.levels[i].isFloor)
    && (forall e | e in s.book.events :: EntryIsGeometric(zones, e))
  }

  lemma FireKeepsEntriesGeometric(d: Desk, zones: seq<Zone>, s: State, i: nat, dir: Direction, tick: int)
    requires d.mode == FullNextTp && d.policy == Unhedged && Owing(d, s) && GeometricLedger(d, zones, s)
    requires i < |s.levels| && TriggerOf(s.levels[i], dir).Trigger?
    ensures forall e | e in Fire(d, s, i, dir, tick).book.events :: EntryIsGeometric(zones, e)
  {
    var r := Fire(d, s, i, dir, tick);
    var e := r.book.events[|s.book.events|];
    assert r.book.events == s.book.events + [e];
    if e.kind == EntryEvent {
      var level := s.levels[i];
      assert Geometric(level) && AttemptsOk(level) && DebtOk(d, level);
      EntryQuantityGrows(level, ClaimFor(d, s.levels, i));
      assert zones[i] == level.zone;
    }
  }

  lemma FireKeepsAttempts(d: Desk, s: State, i: nat, dir: Direction, tick: int)
    requires d.policy == Unhedged && i < |s.levels| && TriggerOf(s.levels[i], dir).Trigger?
    requires s.book.floorEntries == 0 && s.book.breakevens == 0
    requires forall j | 0 <= j < |s.levels| :: AttemptsOk(s.levels[j]) && !s.levels[j].isFloor
    ensures var r := Fire(d, s, i, dir, tick);
            && r.book.floorEntries == 0 && r.book.breakevens == 0
            && forall j | 0 <= j < |r.levels| :: AttemptsOk(r.levels[j]) && !r.levels[j].isFloor
  {}

  /** Under full recovery without floor hedges every entry of every ledger has the
      geometric size of its attempt, and every paid level nets exactly its budget. */
  lemma ReentriesAreGeometric(d: Desk, zones: seq<Zone>, prices: seq<real>)
    requires Tiles(d.spread, d.rate, zones) && |prices| > 0
    requires d.mode == FullNextTp && d.policy == Unhedged
    ensures var s := Replay(d, FreshRun(zones), prices, 0).state;
            && (forall e | e in s.book.events :: EntryIsGeometric(zones, e))
            && (forall i | 0 <= i < |s.levels| :: Geometric(s.levels[i]) && AttemptsOk(s.levels[i]))
  {
    ghost var kept := (s: State) => GeometricLedger(d, zones, s);
    FreshIsGeometric(d, zones);
    forall s, p | kept(s) ensures kept(Arm(s, p)) {
      ArmKeepsGeometric(d, zones, s, p);
    }
    forall s, i, dir, t | kept(s) && CanFire(d, s, i, dir, prices[0], false) ensures kept(Fire(d, s, i, dir, t)) {
      CanFireIsTriggered(d, s, i, dir, prices[0], false);
      FireKeepsGeometricLedger(d, zones, s, i, dir, t);
    }
    RunInvariant(d, zones, prices, false, kept);
  }

  lemma FreshIsGeometric(d: Desk, zones: seq<Zone>)
    ensures GeometricLedger(d, zones, FreshState(zones))
  {
    assert ZonesIn(FreshState(zones).levels) == zones;
    forall i | 0 <= i < |zones| ensures Geometric(FreshLevel(zones[i])) {
      assert Power(Growth(zones[i]), 0) == 1.0;
      assert Times(zones[i].budget, 1.0) == zones[i].budget;
    }
  }

  lemma ArmKeepsGeometric(d: Desk, zones: seq<Zone>, s: State, price: real)
    requires GeometricLedger(d, zones, s)
    ensures GeometricLedger(d, zones, Arm(s, price))
  {
    assert ZonesIn(Arm(s, price).levels) == ZonesIn(s.levels);
    forall i | 0 <= i < |s.levels| ensures Geometric(Arm(s, price).levels[i]) {
      assert Geometric(s.levels[i]);
    }
  }

  lemma FireKeepsGeometricLedger(d: Desk, zones: seq<Zone>, s: State, i: nat, dir: Direction, tick: int)
    requires d.mode == FullNextTp && d.policy == Unhedged && Owing(d, s) && GeometricLedger(d, zones, s)
    requires i < |s.levels| && TriggerOf(s.levels[i], dir).Trigger?
    ensures GeometricLedger(d, zones, Fire(d, s, i, dir, tick))
  {
    FireKeepsZones(d, s, i, dir, tick);
    FireKeepsGeometric(d, s, i, dir, tick);
    FireKeepsAttempts(d, s, i, dir, tick);
    FireKeepsEntriesGeometric(d, zones, s, i, dir, tick);
  }

  // ----- how many stops the premium can pay for

  /** The loss of stopping the smallest hedge of the lowest level. */
  function SmallestStopLoss(d: Desk, zones: seq<Zone>): real
    requires |zones| > 0
  {
    Times(d.spread.quantity, zones[|zones| - 1].StopDistance())
  }

  lemma StopDistanceFalls(d: Desk, zones: seq<Zone>, i: nat)
    requires Tiles(d.spread, d.rate, zones) && i < |zones|
    ensures zones[|zones| - 1].StopDistance() <= zones[i].StopDistance()
  {
    var last := |zones| - 1;
    if i < last {
      ZonesDescend(zones, i, last);
      StopDistanceIsRate(zones[i].entry, d.rate);
      StopDistanceIsRate(zones[last].entry, d.rate);
      TimesLe(zones[last].entry, zones[i].entry, d.rate);
    }
  }

  lemma StopDistanceIsRate(entry: real, rate: real)
    ensures Times(entry, 1.0 + rate) - entry == Times(entry, rate)
  {}

  ghost predicate StopsCost(d: Desk, zones: seq<Zone>, s: State)
    requires |zones| > 0
  {
    && ZonesIn(s.levels) == zones
    && Times(s.book.stops as real, SmallestStopLoss(d, zones)) <= s.book.grossStops
    && (d.policy == Unhedged ==> s.book.breakevens == 0 && forall i | 0 <= i < |s.levels| :: !s.levels[i].isFloor)
  }

  lemma OneMoreStop(stops: nat, smallest: real, gross: real, loss: real)
    requires Times(stops as real, smallest) <= gross && smallest <= loss
    ensures Times((stops + 1) as real, smallest) <= gross + loss
  {
    assert Times((stops + 1) as real, smallest) == Times(stops as real, smallest) + smallest;
  }

  lemma FireKeepsStopsCost(d: Desk, zones: seq<Zone>, s: State, i: nat, dir: Direction, tick: int)
    requires Tiles(d.spread, d.rate, zones) && StopsCost(d, zones, s) && Owing(d, s) && Gridded(d, s)
    requires i < |s.levels| && TriggerOf(s.levels[i], dir).Trigger?
    ensures StopsCost(d, zones, Fire(d, s, i, dir, tick))
  {
    FireKeepsZones(d, s, i, dir, tick);
    if TriggerOf(s.levels[i], dir).crossing == Stop {
      var level := s.levels[i];
      assert zones[i] == level.zone;
      ActiveCoversOption(d, s, i);
      StopDistanceFalls(d, zones, i);
      TimesLe(zones[|zones| - 1].StopDistance(), level.zone.StopDistance(), d.spread.quantity);
      TimesLe(d.spread.quantity, level.quantity, level.zone.StopDistance());
      OneMoreStop(s.book.stops, SmallestStopLoss(d, zones), s.book.grossStops, StopLossOf(level.zone, level.quantity));
    }
  }

  /** From a clear start the premium bounds the number of stops, and the stops
      bound the ledger, for a path of any length. */
  lemma StopsAreBounded(d: Desk, zones: seq<Zone>, prices: seq<real>)
    requires Tiles(d.spread, d.rate, zones) && |prices| > 0 && Clear(d, zones, prices[0])
    ensures var book := Replay(d, FreshRun(zones), prices, 0).state.book;
            && Times(book.stops as real, SmallestStopLoss(d, zones)) <= d.spread.premium
            && |book.events| <= 2 * book.stops + 2 * book.breakevens + 2 * |zones|
            && (d.policy == Unhedged ==> |book.events| <= 2 * book.stops + 2 * |zones|)
  {
    ghost var kept := (s: State) => StopsCost(d, zones, s);
    assert ZonesIn(FreshState(zones).levels) == zones;
    assert Times(0 as real, SmallestStopLoss(d, zones)) == 0.0;
    forall s, p | kept(s) ensures kept(Arm(s, p)) {
      assert ZonesIn(Arm(s, p).levels) == ZonesIn(s.levels);
    }
    forall s, i, dir, t | kept(s) && CanFire(d, s, i, dir, prices[0], true) ensures kept(Fire(d, s, i, dir, t)) {
      CanFireIsTriggered(d, s, i, dir, prices[0], true);
      FireKeepsStopsCost(d, zones, s, i, dir, t);
    }
    RunInvariant(d, zones, prices, true, kept);
    var r := Replay(d, FreshRun(zones), prices, 0).state;
    ReservesNonnegative(d, r);
    assert |r.levels| == |zones|;
    StatesAreExclusive(r.levels);
  }

  lemma ReservesNonnegative(d: Desk, s: State)
    requires Owing(d, s)
    ensures Sum(Reserve, s.levels) >= 0.0
  {
    forall level | level in s.levels ensures Reserve(level) >= 0.0 {
      var i :| 0 <= i < |s.levels| && s.levels[i] == level;
      if level.state == Active { ReserveNonnegative(d, s, i); }
    }
    SumNonnegative(Reserve, s.levels);
  }

  lemma {:induction false} StatesAreExclusive(levels: seq<Level>)
    ensures 2 * Count(InState(Paid), levels) + Count(InState(Active), levels)
            + Count(InState(Locked), levels) <= 2 * |levels|
  {
    if |levels| > 0 { StatesAreExclusive(levels[..|levels| - 1]); }
  }

  // ----- distributed recovery: equal instalments

  function Repays(m: nat): LedgerEvent -> int {
    (e: LedgerEvent) => if e.kind == TpEvent && e.recoveryClaim.Claim? && e.recoveryClaim.source == m then 1 else 0
  }

  predicate Stops(e: LedgerEvent, m: nat) {
    e.kind == StopEvent && e.level == m
  }

  /** After `repaid` of `count` instalments, one share is owed per instalment left. */
  predicate PayingOff(level: Level, repaid: int, share: real, count: int) {
    && level.tpsRemaining >= 0
    && level.tpsRemaining + repaid == count
    && level.debt == Times(level.tpsRemaining as real, share)
  }

  /** In these events the level has repaid equal shares, one per take-profit that
      claimed it, and owes one share per instalment left; or it was stopped again. */
  ghost predicate Instalments(level: Level, events: seq<LedgerEvent>, m: nat, share: real, count: int) {
    || (exists e :: e in events && Stops(e, m))
    || (&& PayingOff(level, Count(Repays(m), events), share, count)
        && forall e | e in events && Repays(m)(e) == 1 :: e.recoveryClaim.amount == share)
  }

  ghost predicate InstalmentsOf(s: State, since: nat, m: nat, share: real, count: int) {
    since <= |s.book.events| && m < |s.levels| && Instalments(s.levels[m], s.book.events[since..], m, share, count)
  }

  lemma InstalmentIsShare(level: Level, share: real)
    requires level.tpsRemaining > 0 && level.debt > 0.0 && level.debt == Times(level.tpsRemaining as real, share)
    ensures Instalment(level) == share
    ensures level.debt - share == Times((level.tpsRemaining - 1) as real, share)
    ensures share > 0.0
  {
    var n := level.tpsRemaining as real;
    InstalmentBounds(level);
    assert level.debt / n * n == level.debt;
    SameFactor(level.debt / n, share, n);
    assert Times((level.tpsRemaining - 1) as real, share) == Times(n, share) - share;
  }

  lemma CountAppend(weight: LedgerEvent -> int, events: seq<LedgerEvent>, e: LedgerEvent)
    ensures Count(weight, events + [e]) == Count(weight, events) + weight(e)
  {
    assert (events + [e])[..|events|] == events;
  }

  /** An event touches the debt of level m only by repaying a claim on it or by stopping it. */
  predicate DebtMoves(before: Level, after: Level, e: LedgerEvent, m: nat) {
    if Repays(m)(e) == 1 then
      && before.debt > 0.0 && before.tpsRemaining > 0
      && e.recoveryClaim.amount == Instalment(before)
      && after.debt == before.debt - e.recoveryClaim.amount
      && after.tpsRemaining == (if after.debt == 0.0 then 0 else before.tpsRemaining - 1)
    else Stops(e, m) || (after.debt == before.debt && after.tpsRemaining == before.tpsRemaining)
  }

  lemma TpMovesDebt(d: Desk, s: State, i: nat, tick: int, m: nat)
    requires d.mode == Distributed && Owing(d, s) && m < |s.levels| && i < |s.levels| && s.levels[i].state == Active
    ensures var r := TakeProfit(d, s, i, tick);
            && |r.book.events| == |s.book.events| + 1
            && r.book.events == s.book.events + [r.book.events[|s.book.events|]]
            && DebtMoves(s.levels[m], r.levels[m], r.book.events[|s.book.events|], m)
  {
    assert ClaimOk(d, s.levels, i);
  }

  lemma FireMovesDebt(d: Desk, s: State, i: nat, dir: Direction, tick: int, m: nat)
    requires d.mode == Distributed && Owing(d, s) && m < |s.levels|
    requires i < |s.levels| && TriggerOf(s.levels[i], dir).Trigger?
    ensures var r := Fire(d, s, i, dir, tick);
            && |r.book.events| == |s.book.events| + 1
            && r.book.events == s.book.events + [r.book.events[|s.book.events|]]
            && DebtMoves(s.levels[m], r.levels[m], r.book.events[|s.book.events|], m)
  {
    if TriggerOf(s.levels[i], dir).crossing == Tp { TpMovesDebt(d, s, i, tick, m); }
  }

  lemma ShareRepaid(before: Level, after: Level, repaid: int, share: real, count: int)
    requires PayingOff(before, repaid, share, count)
    requires before.debt > 0.0 && before.tpsRemaining > 0
    requires after.debt == before.debt - Instalment(before)
    requires after.tpsRemaining == (if after.debt == 0.0 then 0 else before.tpsRemaining - 1)
    ensures Instalment(before) == share && PayingOff(after, repaid + 1, share, count)
  {
    InstalmentIsShare(before, share);
    InstalmentBounds(before);
  }

  lemma EventKeepsInstalments(before: Level, after: Level, events: seq<LedgerEvent>, e: LedgerEvent, m: nat,
                              share: real, count: int)
    requires DebtMoves(before, after, e, m) && Instalments(before, events, m, share, count)
    ensures Instalments(after, events + [e], m, share, count)
  {
    CountAppend(Repays(m), events, e);
    if x :| x in events && Stops(x, m) {
      assert x in events + [e];
    } else if Stops(e, m) {
      assert e in events + [e];
    } else if Repays(m)(e) == 1 {
      ShareRepaid(before, after, Count(Repays(m), events), share, count);
    }
  }

  lemma FireKeepsInstalments(d: Desk, s: State, i: nat, dir: Direction, tick: int, since: nat, m: nat, share: real,
                             count: int)
    requires d.mode == Distributed && Owing(d, s) && InstalmentsOf(s, since, m, share, count)
    requires i < |s.levels| && TriggerOf(s.levels[i], dir).Trigger?
    ensures InstalmentsOf(Fire(d, s, i, dir, tick), since, m, share, count)
  {
    FireMovesDebt(d, s, i, dir, tick, m);
    var r := Fire(d, s, i, dir, tick);
    var e := r.book.events[|s.book.events|];
    assert r.book.events[since..] == s.book.events[since..] + [e];
    EventKeepsInstalments(s.levels[m], r.levels[m], s.book.events[since..], e, m, share, count);
  }

  /** A claim with `count` instalments left is repaid in exactly that many equal
      shares: whatever path the run takes on, unless the level is stopped again,
      each take-profit that claims it repays one share, and the debt is gone
      exactly when all of them have. */
  lemma DebtIsRepaidInEqualInstalments(d: Desk, run: Run, prices: seq<real>, tick: int, first: real, m: nat)
    requires d.mode == Distributed && RunSound(d, run, first, false) && m < |run.state.levels|
    requires run.state.levels[m].debt > 0.0
    ensures run.state.levels[m].tpsRemaining > 0
    ensures var share := run.state.levels[m].debt / run.state.levels[m].tpsRemaining as real;
            InstalmentsOf(Replay(d, run, prices, tick).state, |run.state.book.events|, m, share,
                          run.state.levels[m].tpsRemaining)
  {
    assert DebtOk(d, run.state.levels[m]);
    var since, count := |run.state.book.events|, run.state.levels[m].tpsRemaining;
    var share := run.state.levels[m].debt / count as real;
    assert run.state.book.events[since..] == [];
    ShareTimesCount(run.state.levels[m].debt, count as real);
    ghost var kept := (s: State) => InstalmentsOf(s, since, m, share, count);
    forall s, p | kept(s) ensures kept(Arm(s, p)) {}
    forall s, i, dir, t | kept(s) && CanFire(d, s, i, dir, first, false) ensures kept(Fire(d, s, i, dir, t)) {
      CanFireIsTriggered(d, s, i, dir, first, false);
      FireKeepsInstalments(d, s, i, dir, t, since, m, share, count);
    }
    RunOnInvariant(d, run, prices, tick, first, false, kept);
  }

  lemma ShareTimesCount(debt: real, count: real)
    requires count > 0.0
    ensures debt == Times(count, debt / count)
  {}
}
