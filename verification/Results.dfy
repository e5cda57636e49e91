/** What every accounting run reports: no sample falls below the floor, realized
    stops stay within the premium, and the reported minimum is the true minimum
    over every price of the path. */
module Results {
  import opened VirtualLevels
  import opened Ledgers
  import opened Sums
  import opened Folds
  import opened HedgeModel
  import opened Positions
  import opened Claims
  import opened StopBudget
  import opened Accounting
  import opened FloorTheorem
  import opened Runs

  /** The budget of a level that ends the run locked, or that enters above the first price. */
  function Exposed(first: real): Level -> real {
    (level: Level) => if level.state == Locked || first < level.zone.entry then level.zone.budget else 0.0
  }

  function Exposure(s: State, first: real): real {
    Sum(Exposed(first), s.levels)
  }

  lemma {:induction false} SumCompare(low: Level -> real, high: Level -> real, a: seq<Level>, b: seq<Level>)
    requires |a| == |b| && forall i | 0 <= i < |a| :: low(a[i]) <= high(b[i])
    ensures Sum(low, a) <= Sum(high, b)
  {
    if |a| > 0 {
      SumCompare(low, high, a[..|a| - 1], b[..|b| - 1]);
    }
  }

  lemma UncoveredIsExposedLater(s: State, r: State, first: real)
    requires StartedAt(s, first) && Follows(s, r)
    ensures Sum(Uncovered, s.levels) <= Exposure(r, first)
  {
    SumCompare(Uncovered, Exposed(first), s.levels, r.levels);
  }

  lemma ExposureGrows(s: State, r: State, first: real)
    requires Follows(s, r)
    ensures Exposure(s, first) <= Exposure(r, first)
  {
    SumCompare(Exposed(first), Exposed(first), s.levels, r.levels);
  }

  predicate SampleOk(d: Desk, sample: Snapshot, exposure: real) {
    sample.combined >= -exposure && sample.grossStops <= d.spread.premium && sample.remainingBudget >= 0.0
  }

  ghost predicate SamplesOk(d: Desk, samples: seq<Snapshot>, exposure: real) {
    forall k | 0 <= k < |samples| :: SampleOk(d, samples[k], exposure)
  }

  lemma SampledFloor(d: Desk, s: State, later: State, price: real, tick: int, after: EventRef, first: real)
    requires SoundFrom(d, s, first, true) && AllInPlace(s, price) && Follows(s, later)
    ensures SampleOk(d, SampleAfter(d, s, price, tick, after), Exposure(later, first))
  {
    FloorHolds(d, s, price);
    UncoveredIsExposedLater(s, later, first);
    forall level | level in s.levels ensures Reserve(level) >= 0.0 {
      var i :| 0 <= i < |s.levels| && s.levels[i] == level;
      if level.state == Active { ReserveNonnegative(d, s, i); }
    }
    SumNonnegative(Reserve, s.levels);
  }

  /** The state in the middle of a segment of a run whose stop budget is kept. */
  ghost predicate Midway(d: Desk, s: State, dir: Direction, start: real, cursor: real, target: real, first: real) {
    SoundFrom(d, s, first, true) && AllStand(s, dir, start, cursor) && Reached(dir, cursor, target)
  }

  lemma CrossingStep(d: Desk, s: State, i: nat, dir: Direction, start: real, cursor: real, target: real, tick: int,
                     first: real)
    requires Midway(d, s, dir, start, cursor, target, first) && IsNext(s.levels, dir, target, i)
    ensures Midway(d, Fire(d, s, i, dir, tick), dir, start, TriggerOf(s.levels[i], dir).price, target, first)
  {
    FireMovesCursor(d, s, i, dir, start, cursor, target, tick);
    FireKeepsSound(d, s, i, dir, start, cursor, target, tick, first, true);
  }

  lemma CrossingSampleOk(d: Desk, s: State, dir: Direction, start: real, cursor: real, target: real, tick: int,
                         after: EventRef, first: real)
    requires Midway(d, s, dir, start, cursor, target, first)
    ensures SampleOk(d, SampleAfter(d, s, cursor, tick, after), Exposure(Settle(d, s, dir, target, tick), first))
  {
    StandingInPlace(s, dir, start, cursor);
    SettleKeepsSound(d, s, dir, start, cursor, target, tick, first, true);
    SampledFloor(d, s, Settle(d, s, dir, target, tick), cursor, tick, after, first);
  }

  lemma MoreSamplesOk(d: Desk, sample: Snapshot, rest: seq<Snapshot>, exposure: real)
    requires SampleOk(d, sample, exposure) && SamplesOk(d, rest, exposure)
    ensures SamplesOk(d, [sample] + rest, exposure)
  {}

  lemma {:induction false} CrossingSamplesOk(d: Desk, s: State, dir: Direction, start: real, cursor: real, target: real,
                                             tick: int, first: real)
    requires Midway(d, s, dir, start, cursor, target, first)
    ensures SamplesOk(d, CrossingSamples(d, s, dir, target, tick), Exposure(Settle(d, s, dir, target, tick), first))
    decreases Potential(s, dir)
  {
    NextIsFirst(s.levels, dir, target);
    if Next(s.levels, dir, target).First? {
      var i := Next(s.levels, dir, target).index;
      var r := Fire(d, s, i, dir, tick);
      var price := TriggerOf(s.levels[i], dir).price;
      ExecuteUsesPotential(d, s, i, dir, target, tick);
      CrossingStep(d, s, i, dir, start, cursor, target, tick, first);
      CrossingSampleOk(d, r, dir, start, price, target, tick, AfterEvent(|r.book.events|), first);
      CrossingSamplesOk(d, r, dir, start, price, target, tick, first);
      NextSample(d, s, i, dir, target, tick);
      var sample := SampleAfter(d, r, price, tick, AfterEvent(|r.book.events|));
      MoreSamplesOk(d, sample, CrossingSamples(d, r, dir, target, tick),
                    Exposure(Settle(d, r, dir, target, tick), first));
    }
  }

  lemma SegmentSamplesOk(d: Desk, run: Run, price: real, tick: int, first: real)
    requires RunSound(d, run, first, true)
    ensures SamplesOk(d, SegmentSamples(d, run, price, tick), Exposure(Step(d, run, price, tick).state, first))
  {
    var previous, s := run.previous.price, run.state;
    if price != previous {
      var dir := Heading(previous, price);
      RestStands(s, dir, previous);
      CrossingSamplesOk(d, s, dir, previous, previous, price, tick, first);
      ArmFollows(Settle(d, s, dir, price, tick), price);
      ExposureGrows(Settle(d, s, dir, price, tick), Step(d, run, price, tick).state, first);
    }
  }

  lemma FollowsItself(s: State)
    ensures Follows(s, s)
  {}

  lemma RestSampleOk(d: Desk, run: Run, tick: int, first: real)
    requires RunSound(d, run, first, true)
    ensures SampleOk(d, SampleAfter(d, run.state, run.previous.price, tick, NoEvent), Exposure(run.state, first))
  {
    RestingInPlace(run.state, run.previous.price);
    FollowsItself(run.state);
    SampledFloor(d, run.state, run.state, run.previous.price, tick, NoEvent, first);
  }

  lemma TickSamplesOk(d: Desk, run: Run, price: real, tick: int, first: real)
    requires RunSound(d, run, first, true)
    ensures SamplesOk(d, TickSamples(d, run, price, tick), Exposure(Step(d, run, price, tick).state, first))
  {
    SegmentSamplesOk(d, run, price, tick, first);
    StepKeepsSound(d, run, price, tick, first, true);
    RestSampleOk(d, Step(d, run, price, tick), tick, first);
  }

  ghost predicate FineAt(d: Desk, first: real, run: Run, sample: Snapshot) {
    SampleOk(d, sample, Exposure(run.state, first))
  }

  lemma StepKeepsFine(d: Desk, run: Run, price: real, tick: int, first: real, sample: Snapshot)
    requires RunSound(d, run, first, true) && FineAt(d, first, run, sample)
    ensures FineAt(d, first, Step(d, run, price, tick), sample)
  {
    StepKeepsSound(d, run, price, tick, first, true);
    ExposureGrows(run.state, Step(d, run, price, tick).state, first);
  }

  lemma TickSampleFine(d: Desk, run: Run, price: real, tick: int, first: real, sample: Snapshot)
    requires RunSound(d, run, first, true) && sample in TickSamples(d, run, price, tick)
    ensures FineAt(d, first, Step(d, run, price, tick), sample)
  {
    TickSamplesOk(d, run, price, tick, first);
  }

  lemma FirstSampleFine(d: Desk, zones: seq<Zone>, first: real, sample: Snapshot)
    requires Tiles(d.spread, d.rate, zones) && Clear(d, zones, first)
    requires sample in TickSamples(d, FreshRun(zones), first, 0)
    ensures FineAt(d, first, Step(d, FreshRun(zones), first, 0), sample)
  {
    FirstTick(d, zones, first, 0, true);
    RestSampleOk(d, Step(d, FreshRun(zones), first, 0), 0, first);
  }

  /** The floor theorem. On every path from a clear start, no sampled combined
      P&L falls below minus the budgets of the levels that end up locked or that
      enter above the first price, and realized stops never exceed the premium. */
  lemma RunStaysAboveFloor(d: Desk, zones: seq<Zone>, prices: seq<real>)
    requires Tiles(d.spread, d.rate, zones) && |prices| > 0 && Clear(d, zones, prices[0])
    ensures forall x | x in ReplaySamples(d, FreshRun(zones), prices, 0) ::
              FineAt(d, prices[0], Replay(d, FreshRun(zones), prices, 0), x)
  {
    var first := prices[0];
    var kept := (r: Run) => RunSound(d, r, first, true);
    var fine := (r: Run, x: Snapshot) => FineAt(d, first, r, x);
    assert kept(Ticks(d)(FreshRun(zones), first, 0)) by { FirstTick(d, zones, first, 0, true); }
    forall x | x in Samples(d)(FreshRun(zones), first, 0) ensures fine(Ticks(d)(FreshRun(zones), first, 0), x) {
      FirstSampleFine(d, zones, first, x);
    }
    forall r, price, t | kept(r) ensures kept(Ticks(d)(r, price, t)) {
      StepKeepsSound(d, r, price, t, first, true);
    }
    forall r, price, t, x | kept(r) && x in Samples(d)(r, price, t) ensures fine(Ticks(d)(r, price, t), x) {
      TickSampleFine(d, r, price, t, first, x);
    }
    forall r, price, t, x | kept(r) && fine(r, x) ensures fine(Ticks(d)(r, price, t), x) {
      StepKeepsFine(d, r, price, t, first, x);
    }
    GatherKeepsFromSecond(Ticks(d), Samples(d), FreshRun(zones), prices, 0, kept, fine);
  }

  lemma ReportedMinimum(d: Desk, zones: seq<Zone>, prices: seq<real>, bound: real)
    requires |prices| > 0
    requires forall x | x in ReplaySamples(d, FreshRun(zones), prices, 0) :: x.combined >= bound
    ensures Account(d, zones, prices).metrics.minimumCombined >= bound
  {
    var samples := ReplaySamples(d, FreshRun(zones), prices, 0);
    SamplesExist(d, FreshRun(zones), prices, 0);
    MinimumCombinedIsLeast(samples);
    var k :| 0 <= k < |samples| && samples[k].combined == MinimumCombined(samples);
    assert samples[k] in samples;
  }

  /** The reported minimum respects the floor on every path from a clear start. */
  lemma MinimumAboveFloor(d: Desk, zones: seq<Zone>, prices: seq<real>)
    requires Tiles(d.spread, d.rate, zones) && |prices| > 0 && Clear(d, zones, prices[0])
    ensures var r := Account(d, zones, prices);
            && r.metrics.minimumCombined >= -Sum(Exposed(prices[0]), r.levels)
            && (forall x | x in r.snapshots :: x.grossStops <= d.spread.premium && x.remainingBudget >= 0.0)
  {
    RunStaysAboveFloor(d, zones, prices);
    ReportedMinimum(d, zones, prices, -Exposure(Replay(d, FreshRun(zones), prices, 0).state, prices[0]));
  }

  function LockedBudget(level: Level): real {
    if level.state == Locked then level.zone.budget else 0.0
  }

  /** From a start at or above the short strike only locked levels are exposed,
      whatever the stop rate. */
  lemma OnlyLockedLevelsExpose(d: Desk, zones: seq<Zone>, prices: seq<real>)
    requires Tiles(d.spread, d.rate, zones) && |prices| > 0 && prices[0] >= d.spread.shortStrike
    ensures var r := Account(d, zones, prices); r.metrics.minimumCombined >= -Sum(LockedBudget, r.levels)
  {
    var s := Replay(d, FreshRun(zones), prices, 0).state;
    StartAboveIsClear(d, zones, prices[0]);
    MinimumAboveFloor(d, zones, prices);
    RunEndsSound(d, zones, prices, false);
    forall i | 0 <= i < |s.levels| ensures Exposed(prices[0])(s.levels[i]) <= LockedBudget(s.levels[i]) {
      ZoneWithinStrikes(d.spread, d.rate, ZonesIn(s.levels), i);
    }
    SumCompare(Exposed(prices[0]), LockedBudget, s.levels, s.levels);
  }

  /** Under the breakeven-floor policy the combined P&L never becomes negative. */
  lemma FloorPolicyAlwaysPasses(d: Desk, zones: seq<Zone>, prices: seq<real>)
    requires Tiles(d.spread, d.rate, zones) && |prices| > 0 && prices[0] >= d.spread.shortStrike
    requires d.policy == BreakevenFloor
    ensures Account(d, zones, prices).metrics.floorPass
    ensures Account(d, zones, prices).metrics.lockedLevels == []
  {
    var s := Replay(d, FreshRun(zones), prices, 0).state;
    OnlyLockedLevelsExpose(d, zones, prices);
    RunEndsSound(d, zones, prices, false);
    SumZero(LockedBudget, s.levels);
    NothingLocked(s.levels);
  }

  lemma {:induction false} NothingLocked(levels: seq<Level>)
    requires forall i | 0 <= i < |levels| :: levels[i].state != Locked
    ensures LockedIndices(levels) == []
  {
    if |levels| > 0 { NothingLocked(levels[..|levels| - 1]); }
  }

  // ----- what every reachable state satisfies

  /** P&L and debt are conserved and every event is accounted for, on every path
      from every start; no level ever owes a negative amount. */
  lemma RunConserves(d: Desk, zones: seq<Zone>, prices: seq<real>)
    requires Tiles(d.spread, d.rate, zones) && |prices| > 0
    ensures var s := Replay(d, FreshRun(zones), prices, 0).state;
            Conserved(s) && Counted(s) && AllDebtsOk(d, s.levels)
  {
    RunEndsSound(d, zones, prices, false);
  }

  /** From a clear start at most one hedge is open, and realized stops plus what
      the open hedge may still lose stay within the premium. */
  lemma RunStaysFunded(d: Desk, zones: seq<Zone>, prices: seq<real>)
    requires Tiles(d.spread, d.rate, zones) && |prices| > 0 && Clear(d, zones, prices[0])
    ensures var s := Replay(d, FreshRun(zones), prices, 0).state;
            && Committed(s) <= d.spread.premium
            && forall i, j | 0 <= i < |s.levels| && 0 <= j < |s.levels|
                             && s.levels[i].state == Active && s.levels[j].state == Active :: i == j
  {
    RunEndsSound(d, zones, prices, true);
  }

  /** Level i is still in its attempt number `attempt` with the same stops realized, or has left it. */
  predicate SameWhileOpen(s: State, i: nat, attempt: nat, gross: real) {
    && i < |s.levels| && s.levels[i].attempts >= attempt
    && (s.levels[i].state == Active && s.levels[i].attempts == attempt ==> s.book.grossStops == gross)
  }

  lemma FireKeepsSameWhileOpen(d: Desk, s: State, k: nat, dir: Direction, tick: int, i: nat, attempt: nat, gross: real,
                               first: real)
    requires CanFire(d, s, k, dir, first, true) && SameWhileOpen(s, i, attempt, gross)
    ensures SameWhileOpen(Fire(d, s, k, dir, tick), i, attempt, gross)
  {
    CanFireIsTriggered(d, s, k, dir, first, true);
    if s.levels[i].state == Active && s.levels[k].state == Active {
      AtMostOneActive(d, s.levels, i, k);
    }
  }

  /** While a hedge stays open the realized stop budget does not move. */
  lemma BudgetIsConstantWhileOpen(d: Desk, run: Run, prices: seq<real>, tick: int, first: real, i: nat)
    requires RunSound(d, run, first, true) && i < |run.state.levels| && run.state.levels[i].state == Active
    ensures var r := Replay(d, run, prices, tick).state;
            && i < |r.levels|
            && (r.levels[i].state == Active && r.levels[i].attempts == run.state.levels[i].attempts ==>
                  r.book.grossStops == run.state.book.grossStops)
  {
    var attempt, gross := run.state.levels[i].attempts, run.state.book.grossStops;
    var kept := (s: State) => SameWhileOpen(s, i, attempt, gross);
    forall s, k, dir, t | kept(s) && CanFire(d, s, k, dir, first, true) ensures kept(Fire(d, s, k, dir, t)) {
      FireKeepsSameWhileOpen(d, s, k, dir, t, i, attempt, gross, first);
    }
    RunOnInvariant(d, run, prices, tick, first, true, kept);
  }

  ghost predicate AllPaid(s: State) {
    forall i | 0 <= i < |s.levels| :: s.levels[i].state == Paid
  }

  lemma PaidLevelCoversItsZone(d: Desk, s: State, i: nat, price: real)
    requires Gridded(d, s) && i < |s.levels| && s.levels[i].state == Paid && price <= d.spread.longStrike
    ensures CoverAt(d.spread.quantity, price)(s.levels[i]) == 0.0
  {
    assert ZonesIn(s.levels)[i] == s.levels[i].zone;
    ZoneWithinStrikes(d.spread, d.rate, ZonesIn(s.levels), i);
    var zone := s.levels[i].zone;
    assert Clamp(zone.entry - price, zone.TpDistance()) == zone.TpDistance();
    assert ZoneLossAt(d.spread.quantity, price)(s.levels[i]) == zone.budget;
    assert OpenPnlAt(price)(s.levels[i]) == 0.0;
  }

  lemma PaidStateLeavesPremium(d: Desk, s: State, price: real)
    requires Gridded(d, s) && Conserved(s) && AllPaid(s) && price <= d.spread.longStrike
    ensures Combined(d.spread, s.levels, s.book, price) == d.spread.premium - Sum(DebtOf, s.levels)
  {
    CombinedByCover(d, s, price);
    forall level | level in s.levels ensures CoverAt(d.spread.quantity, price)(level) == 0.0 {
      var i :| 0 <= i < |s.levels| && s.levels[i] == level;
      PaidLevelCoversItsZone(d, s, i, price);
    }
    SumZero(CoverAt(d.spread.quantity, price), s.levels);
  }

  /** Once all levels are paid and the price is at or below the long strike, what
      is left is the premium less the debt still owed. */
  lemma AllPaidLeavesPremium(d: Desk, zones: seq<Zone>, prices: seq<real>, price: real)
    requires Tiles(d.spread, d.rate, zones) && |prices| > 0 && price <= d.spread.longStrike
    requires AllPaid(Replay(d, FreshRun(zones), prices, 0).state)
    ensures var s := Replay(d, FreshRun(zones), prices, 0).state;
            Combined(d.spread, s.levels, s.book, price) == d.spread.premium - Sum(DebtOf, s.levels)
  {
    RunEndsSound(d, zones, prices, false);
    PaidStateLeavesPremium(d, Replay(d, FreshRun(zones), prices, 0).state, price);
  }
}
