/** Sampling only crossings and ticks misses nothing: between two samples the
    combined P&L is monotone in the price, so the reported minimum is the minimum
    over every price the path passes. Holds for every start price. */
module TrueMinimum {
  import opened CreditSpreads
  import opened Products
  import opened VirtualLevels
  import opened Ledgers
  import opened Sums
  import opened Folds
  import opened HedgeModel
  import opened Segments
  import opened Positions
  import opened Claims
  import opened StopBudget
  import opened Accounting
  import opened Runs

  function OpenQuantity(level: Level): real {
    if level.state == Active then level.quantity else 0.0
  }

  /** What the open hedges lose when the price rises by `rise`. */
  function RiseLoss(rise: real): Level -> real {
    (level: Level) => Times(OpenQuantity(level), rise)
  }

  lemma OpenPnlFalls(levels: seq<Level>, low: real, high: real)
    ensures Sum(OpenPnlAt(low), levels) == Sum(OpenPnlAt(high), levels) + Sum(RiseLoss(high - low), levels)
  {
    forall level | level in levels
      ensures OpenPnlAt(low)(level) == OpenPnlAt(high)(level) + RiseLoss(high - low)(level)
    {
      TimesDifference(level.quantity, level.zone.entry - low, level.zone.entry - high);
    }
    SumSplits(OpenPnlAt(low), OpenPnlAt(high), RiseLoss(high - low), levels);
  }

  /** With a hedge open the combined P&L never rises with the price. */
  lemma HedgedFallsWithPrice(d: Desk, s: State, i: nat, low: real, high: real)
    requires Gridded(d, s) && Owing(d, s) && low <= high
    requires i < |s.levels| && s.levels[i].state == Active
    ensures Combined(d.spread, s.levels, s.book, low) >= Combined(d.spread, s.levels, s.book, high)
  {
    OpenPnlFalls(s.levels, low, high);
    ExpiryPnlShape(d.spread, low, high);
    forall level | level in s.levels ensures RiseLoss(high - low)(level) >= 0.0 {
      var j :| 0 <= j < |s.levels| && s.levels[j] == level;
      if level.state == Active { ActiveCoversOption(d, s, j); }
      TimesLe(0.0, OpenQuantity(level), high - low);
    }
    SumBoundsEach(RiseLoss(high - low), s.levels, i);
    ActiveCoversOption(d, s, i);
    assert RiseLoss(high - low)(s.levels[i]) >= Times(d.spread.quantity, high - low) by {
      TimesLe(d.spread.quantity, s.levels[i].quantity, high - low);
    }
    assert d.spread.ExpiryPnl(high) - d.spread.ExpiryPnl(low) <= Times(d.spread.quantity, high - low);
  }

  /** With no hedge open it never falls. */
  lemma UnhedgedRisesWithPrice(d: Desk, s: State, low: real, high: real)
    requires low <= high && forall i | 0 <= i < |s.levels| :: s.levels[i].state != Active
    ensures Combined(d.spread, s.levels, s.book, low) <= Combined(d.spread, s.levels, s.book, high)
  {
    SumZero(OpenPnlAt(low), s.levels);
    SumZero(OpenPnlAt(high), s.levels);
    ExpiryPnlShape(d.spread, low, high);
  }

  lemma NoDipBetween(d: Desk, s: State, a: real, x: real, b: real, floor: real)
    requires Gridded(d, s) && Owing(d, s) && Between(a, x, b)
    requires Combined(d.spread, s.levels, s.book, a) >= floor && Combined(d.spread, s.levels, s.book, b) >= floor
    ensures Combined(d.spread, s.levels, s.book, x) >= floor
  {
    var low, high := if a <= b then a else b, if a <= b then b else a;
    if i: nat :| i < |s.levels| && s.levels[i].state == Active {
      HedgedFallsWithPrice(d, s, i, x, high);
    } else {
      UnhedgedRisesWithPrice(d, s, low, x);
    }
  }

  /** A segment in progress, with the combined P&L at the cursor above `floor`. */
  ghost predicate Under(d: Desk, s: State, dir: Direction, start: real, cursor: real, first: real, floor: real) {
    && SoundFrom(d, s, first, false) && AllStand(s, dir, start, cursor)
    && Combined(d.spread, s.levels, s.book, cursor) >= floor
  }

  lemma FireStaysUnder(d: Desk, s: State, i: nat, dir: Direction, start: real, cursor: real, target: real, tick: int,
                       first: real, floor: real)
    requires Under(d, s, dir, start, cursor, first, floor) && IsNext(s.levels, dir, target, i)
    requires var r := Fire(d, s, i, dir, tick);
             Combined(d.spread, r.levels, r.book, TriggerOf(s.levels[i], dir).price) >= floor
    ensures Under(d, Fire(d, s, i, dir, tick), dir, start, TriggerOf(s.levels[i], dir).price, first, floor)
  {
    FireMovesCursor(d, s, i, dir, start, cursor, target, tick);
    FireKeepsSound(d, s, i, dir, start, cursor, target, tick, first, false);
  }

  /** Before the next crossing, or before the target if there is none, the
      combined P&L stays above a floor that both ends respect. */
  lemma StillStretch(d: Desk, s: State, dir: Direction, start: real, cursor: real, x: real, target: real, tick: int,
                     first: real, floor: real)
    requires Under(d, s, dir, start, cursor, first, floor)
    requires Reached(dir, cursor, x) && Reached(dir, x, target) && Next(s.levels, dir, x) == Nobody
    requires forall y | y in CrossingSamples(d, s, dir, target, tick) :: y.combined >= floor
    requires var r := Settle(d, s, dir, target, tick); Combined(d.spread, r.levels, r.book, target) >= floor
    ensures Combined(d.spread, s.levels, s.book, x) >= floor
  {
    match Next(s.levels, dir, target)
    case Nobody =>
      NoDipBetween(d, s, cursor, x, target, floor);
    case First(i) =>
      var price := TriggerOf(s.levels[i], dir).price;
      FireKeepsCombined(d, s, i, dir, tick);
      assert CrossingSamples(d, s, dir, target, tick)[0].combined >= floor;
      NextIsFirst(s.levels, dir, x);
      assert !Pending(s.levels[i], dir, x);
      NoDipBetween(d, s, cursor, x, price, floor);
  }

  lemma {:induction false} SegmentStaysAbove(d: Desk, s: State, dir: Direction, start: real, cursor: real, x: real,
                                             target: real, tick: int, first: real, floor: real)
    requires Under(d, s, dir, start, cursor, first, floor)
    requires Reached(dir, cursor, x) && Reached(dir, x, target)
    requires forall y | y in CrossingSamples(d, s, dir, target, tick) :: y.combined >= floor
    requires var r := Settle(d, s, dir, target, tick); Combined(d.spread, r.levels, r.book, target) >= floor
    ensures var r := Settle(d, s, dir, x, tick); Combined(d.spread, r.levels, r.book, x) >= floor
    decreases Potential(s, dir)
  {
    match Next(s.levels, dir, x)
    case Nobody =>
      StillStretch(d, s, dir, start, cursor, x, target, tick, first, floor);
    case First(i) =>
      var r, price := Fire(d, s, i, dir, tick), TriggerOf(s.levels[i], dir).price;
      NextIsFirst(s.levels, dir, x);
      NextSurvivesFartherTarget(s.levels, dir, x, target);
      ExecuteUsesPotential(d, s, i, dir, x, tick);
      var samples := CrossingSamples(d, s, dir, target, tick);
      assert samples[0] in samples && samples[0].combined == Combined(d.spread, r.levels, r.book, price);
      FireStaysUnder(d, s, i, dir, start, cursor, x, tick, first, floor);
      assert samples[1..] == CrossingSamples(d, r, dir, target, tick);
      SegmentStaysAbove(d, r, dir, start, price, x, target, tick, first, floor);
  }

  // ----- the samples of a tick

  lemma {:induction false} LastCrossingIsEnd(d: Desk, s: State, dir: Direction, target: real, tick: int)
    requires |CrossingSamples(d, s, dir, target, tick)| > 0
    ensures var samples := CrossingSamples(d, s, dir, target, tick);
            var r := Settle(d, s, dir, target, tick);
            var y := samples[|samples| - 1];
            y.combined == Combined(d.spread, r.levels, r.book, y.price) && y.outstandingDebt == Sum(DebtOf, r.levels)
    decreases Potential(s, dir)
  {
    var i := Next(s.levels, dir, target).index;
    var r := Fire(d, s, i, dir, tick);
    ExecuteUsesPotential(d, s, i, dir, target, tick);
    if |CrossingSamples(d, r, dir, target, tick)| > 0 {
      LastCrossingIsEnd(d, r, dir, target, tick);
    }
  }

  /** The last sample of every tick is taken in the state the tick ends in. */
  lemma TickEndIsSampled(d: Desk, run: Run, price: real, tick: int)
    ensures var samples := TickSamples(d, run, price, tick);
            var r := Step(d, run, price, tick).state;
            var y := samples[|samples| - 1];
            && y in samples && y.combined == Combined(d.spread, r.levels, r.book, price)
            && y.outstandingDebt == Sum(DebtOf, r.levels)
  {
    var crossings := SegmentSamples(d, run, price, tick);
    if |crossings| > 0 && crossings[|crossings| - 1].price == price {
      CrossingAtEnd(d, run, price, tick);
    }
  }

  lemma CrossingAtEnd(d: Desk, run: Run, price: real, tick: int)
    requires var crossings := SegmentSamples(d, run, price, tick);
             |crossings| > 0 && crossings[|crossings| - 1].price == price
    ensures var crossings := SegmentSamples(d, run, price, tick);
            var r := Step(d, run, price, tick).state;
            var y := crossings[|crossings| - 1];
            y.combined == Combined(d.spread, r.levels, r.book, price) && y.outstandingDebt == Sum(DebtOf, r.levels)
  {
    var previous, s := run.previous.price, run.state;
    var r := Settle(d, s, Heading(previous, price), price, tick);
    LastCrossingIsEnd(d, s, Heading(previous, price), price, tick);
    ArmKeepsCombined(d, r, price, price);
  }

  lemma TickStaysAbove(d: Desk, run: Run, x: real, price: real, tick: int, first: real, floor: real)
    requires RunSound(d, run, first, false) && Between(run.previous.price, x, price)
    requires Combined(d.spread, run.state.levels, run.state.book, run.previous.price) >= floor
    requires forall y | y in TickSamples(d, run, price, tick) :: y.combined >= floor
    ensures var r := Travel(d, run.state, run.previous.price, x, tick);
            Combined(d.spread, r.levels, r.book, x) >= floor
  {
    var previous, s := run.previous.price, run.state;
    if x != previous {
      var dir := Heading(previous, price);
      var end := Settle(d, s, dir, price, tick);
      RestStands(s, dir, previous);
      ArmKeepsCombined(d, end, price, price);
      TickEndIsSampled(d, run, price, tick);
      forall y | y in CrossingSamples(d, s, dir, price, tick) ensures y.combined >= floor {
        assert y in TickSamples(d, run, price, tick);
      }
      SegmentStaysAbove(d, s, dir, previous, previous, x, price, tick, first, floor);
    }
  }

  // ----- the converse: every sample is a value the path passes

  lemma {:induction false} SettleAtCursorKeepsCombined(d: Desk, s: State, dir: Direction, start: real, cursor: real,
          tick: int)
    requires AllStand(s, dir, start, cursor)
    ensures var r := Settle(d, s, dir, cursor, tick);
            Combined(d.spread, r.levels, r.book, cursor) == Combined(d.spread, s.levels, s.book, cursor)
    decreases Potential(s, dir)
  {
    NextIsFirst(s.levels, dir, cursor);
    if Next(s.levels, dir, cursor).First? {
      var i := Next(s.levels, dir, cursor).index;
      ExecuteUsesPotential(d, s, i, dir, cursor, tick);
      FireMovesCursor(d, s, i, dir, start, cursor, cursor, tick);
      FireKeepsCombined(d, s, i, dir, tick);
      SettleAtCursorKeepsCombined(d, Fire(d, s, i, dir, tick), dir, start, cursor, tick);
    }
  }

  /** A price of a segment at which the combined P&L takes the given value. */
  ghost predicate TakesValueAt(d: Desk, s: State, dir: Direction, tick: int, x: real, value: real) {
    var r := Settle(d, s, dir, x, tick); Combined(d.spread, r.levels, r.book, x) == value
  }

  lemma TakesValueEarlier(d: Desk, s: State, i: nat, dir: Direction, start: real, target: real, tick: int, x: real,
                          value: real)
    requires IsNext(s.levels, dir, target, i)
    requires Reached(dir, TriggerOf(s.levels[i], dir).price, x) && Reached(dir, x, target)
    requires TakesValueAt(d, Fire(d, s, i, dir, tick), dir, tick, x, value)
    ensures TakesValueAt(d, s, dir, tick, x, value)
  {
    assert IsNext(s.levels, dir, x, i);
    NextIsUnique(s.levels, dir, x, i);
    ExecuteUsesPotential(d, s, i, dir, target, tick);
  }

  /** A sample lies on the rest of the segment and reports a value the segment takes there. */
  ghost predicate Passed(d: Desk, s: State, dir: Direction, cursor: real, target: real, tick: int, price: real,
                         value: real) {
    Reached(dir, cursor, price) && Reached(dir, price, target) && TakesValueAt(d, s, dir, tick, price, value)
  }

  lemma FirstCrossingPassed(d: Desk, s: State, i: nat, dir: Direction, start: real, cursor: real, target: real,
                            tick: int)
    requires AllStand(s, dir, start, cursor) && IsNext(s.levels, dir, target, i)
    ensures var r, price := Fire(d, s, i, dir, tick), TriggerOf(s.levels[i], dir).price;
            Passed(d, s, dir, cursor, target, tick, price, Combined(d.spread, r.levels, r.book, price))
  {
    var r, price := Fire(d, s, i, dir, tick), TriggerOf(s.levels[i], dir).price;
    FireMovesCursor(d, s, i, dir, start, cursor, target, tick);
    SettleAtCursorKeepsCombined(d, r, dir, start, price, tick);
    TakesValueEarlier(d, s, i, dir, start, target, tick, price, Combined(d.spread, r.levels, r.book, price));
  }

  lemma LaterCrossingPassed(d: Desk, s: State, i: nat, dir: Direction, start: real, cursor: real, target: real,
                            tick: int, price: real, value: real)
    requires AllStand(s, dir, start, cursor) && IsNext(s.levels, dir, target, i)
    requires Passed(d, Fire(d, s, i, dir, tick), dir, TriggerOf(s.levels[i], dir).price, target, tick, price, value)
    ensures Passed(d, s, dir, cursor, target, tick, price, value)
  {
    FireMovesCursor(d, s, i, dir, start, cursor, target, tick);
    TakesValueEarlier(d, s, i, dir, start, target, tick, price, value);
  }

  lemma {:induction false} CrossingSamplesArePassed(d: Desk, s: State, dir: Direction, start: real, cursor: real,
                                                    target: real, tick: int)
    requires AllStand(s, dir, start, cursor)
    ensures forall y | y in CrossingSamples(d, s, dir, target, tick) ::
              Passed(d, s, dir, cursor, target, tick, y.price, y.combined)
    decreases Potential(s, dir)
  {
    NextIsFirst(s.levels, dir, target);
    if Next(s.levels, dir, target).First? {
      var i := Next(s.levels, dir, target).index;
      var r, price := Fire(d, s, i, dir, tick), TriggerOf(s.levels[i], dir).price;
      ExecuteUsesPotential(d, s, i, dir, target, tick);
      FireMovesCursor(d, s, i, dir, start, cursor, target, tick);
      FirstCrossingPassed(d, s, i, dir, start, cursor, target, tick);
      CrossingSamplesArePassed(d, r, dir, start, price, target, tick);
      forall y | y in CrossingSamples(d, r, dir, target, tick)
        ensures Passed(d, s, dir, cursor, target, tick, y.price, y.combined)
      {
        LaterCrossingPassed(d, s, i, dir, start, cursor, target, tick, y.price, y.combined);
      }
    }
  }

  // ----- whole paths

  /** The combined P&L of a run when its tick `k` passes the price x. */
  function ValueOnPath(d: Desk, zones: seq<Zone>, prices: seq<real>, k: nat, x: real): real
    requires k < |prices|
  {
    var run := Replay(d, FreshRun(zones), prices[..k], 0);
    var s := if k == 0 then Arm(run.state, x) else Travel(d, run.state, prices[k - 1], x, k);
    Combined(d.spread, s.levels, s.book, x)
  }

  /** Tick `k` of the path passes the price x. */
  predicate Passes(prices: seq<real>, k: nat, x: real) {
    k < |prices| && if k == 0 then x == prices[0] else Between(prices[k - 1], x, prices[k])
  }

  lemma ReplayOne(d: Desk, zones: seq<Zone>, prices: seq<real>, k: nat)
    requires 0 < k <= |prices|
    ensures Replay(d, FreshRun(zones), prices[..k], 0)
            == Step(d, Replay(d, FreshRun(zones), prices[..k - 1], 0), prices[k - 1], k - 1)
  {
    assert prices[..k][..k - 1] == prices[..k - 1];
  }

  lemma SampleAboveMinimum(d: Desk, zones: seq<Zone>, prices: seq<real>, y: Snapshot)
    requires |prices| > 0 && y in ReplaySamples(d, FreshRun(zones), prices, 0)
    ensures y.combined >= Account(d, zones, prices).metrics.minimumCombined
  {
    var samples := ReplaySamples(d, FreshRun(zones), prices, 0);
    MinimumCombinedIsLeast(samples);
    var j :| 0 <= j < |samples| && samples[j] == y;
  }

  lemma TickSamplesAboveMinimum(d: Desk, zones: seq<Zone>, prices: seq<real>, k: nat)
    requires k < |prices|
    ensures forall y | y in TickSamples(d, Replay(d, FreshRun(zones), prices[..k], 0), prices[k], k) ::
              y.combined >= Account(d, zones, prices).metrics.minimumCombined
  {
    GatherContains(Ticks(d), Samples(d), FreshRun(zones), prices, 0, k);
    forall y | y in TickSamples(d, Replay(d, FreshRun(zones), prices[..k], 0), prices[k], k)
      ensures y.combined >= Account(d, zones, prices).metrics.minimumCombined
    {
      SampleAboveMinimum(d, zones, prices, y);
    }
  }

  lemma TickEndAbove(d: Desk, run: Run, price: real, tick: int, floor: real)
    requires forall y | y in TickSamples(d, run, price, tick) :: y.combined >= floor
    ensures var r := Step(d, run, price, tick).state; Combined(d.spread, r.levels, r.book, price) >= floor
  {
    TickEndIsSampled(d, run, price, tick);
  }

  lemma RestAboveMinimum(d: Desk, zones: seq<Zone>, prices: seq<real>, k: nat)
    requires 0 < k <= |prices|
    ensures var r := Replay(d, FreshRun(zones), prices[..k], 0);
            && r.previous == At(prices[k - 1])
            && Combined(d.spread, r.state.levels, r.state.book, prices[k - 1])
               >= Account(d, zones, prices).metrics.minimumCombined
  {
    TickSamplesAboveMinimum(d, zones, prices, k - 1);
    ReplayOne(d, zones, prices, k);
    TickEndAbove(d, Replay(d, FreshRun(zones), prices[..k - 1], 0), prices[k - 1], k - 1,
                 Account(d, zones, prices).metrics.minimumCombined);
  }

  /** No price of the path is worth less than the reported minimum. */
  lemma NothingBelowMinimum(d: Desk, zones: seq<Zone>, prices: seq<real>, k: nat, x: real)
    requires Tiles(d.spread, d.rate, zones) && Passes(prices, k, x)
    ensures ValueOnPath(d, zones, prices, k, x) >= Account(d, zones, prices).metrics.minimumCombined
  {
    var floor := Account(d, zones, prices).metrics.minimumCombined;
    if k == 0 {
      var start := FreshRun(zones);
      assert Replay(d, start, prices[..0], 0) == start;
      TickSamplesAboveMinimum(d, zones, prices, 0);
      TickEndAbove(d, start, x, 0, floor);
    } else {
      RunEndsSound(d, zones, prices[..k], false);
      RestAboveMinimum(d, zones, prices, k);
      TickSamplesAboveMinimum(d, zones, prices, k);
      TickStaysAbove(d, Replay(d, FreshRun(zones), prices[..k], 0), x, prices[k], k, prices[0], floor);
    }
  }

  /** Every sample of tick `k` is the value of some price that tick passes. */
  lemma TickSampleOnPath(d: Desk, zones: seq<Zone>, prices: seq<real>, k: nat, y: Snapshot)
    requires Tiles(d.spread, d.rate, zones) && k < |prices|
    requires y in TickSamples(d, Replay(d, FreshRun(zones), prices[..k], 0), prices[k], k)
    ensures exists x :: Passes(prices, k, x) && ValueOnPath(d, zones, prices, k, x) == y.combined
  {
    var run := Replay(d, FreshRun(zones), prices[..k], 0);
    if k == 0 {
      assert run == FreshRun(zones);
      assert Passes(prices, k, prices[0]) && ValueOnPath(d, zones, prices, k, prices[0]) == y.combined;
    } else {
      RunEndsSound(d, zones, prices[..k], false);
      ReplayOne(d, zones, prices, k);
      TickSamplePassed(d, run, prices[k], k, y);
      assert Passes(prices, k, y.price) && ValueOnPath(d, zones, prices, k, y.price) == y.combined;
    }
  }

  lemma TickSamplePassed(d: Desk, run: Run, price: real, tick: int, y: Snapshot)
    requires run.previous.At? && AllRest(run.state, run.previous.price) && y in TickSamples(d, run, price, tick)
    ensures Between(run.previous.price, y.price, price)
    ensures var r := Travel(d, run.state, run.previous.price, y.price, tick);
            Combined(d.spread, r.levels, r.book, y.price) == y.combined
  {
    var previous, s := run.previous.price, run.state;
    if y in SegmentSamples(d, run, price, tick) {
      var dir := Heading(previous, price);
      RestStands(s, dir, previous);
      CrossingSamplesArePassed(d, s, dir, previous, previous, price, tick);
      if y.price == previous {
        SettleAtCursorKeepsCombined(d, s, dir, previous, previous, tick);
      }
    } else {
      ArmKeepsCombined(d, Travel(d, s, previous, price, tick), price, price);
    }
  }

  lemma SampledAtTick(d: Desk, run: Run, prices: seq<real>, y: Snapshot) returns (k: nat)
    requires y in ReplaySamples(d, run, prices, 0)
    ensures k < |prices| && y in TickSamples(d, Replay(d, run, prices[..k], 0), prices[k], k)
  {
    k := GatheredAt(Ticks(d), Samples(d), run, prices, 0, y);
    var before := Replay(d, run, prices[..k], 0);
    assert Samples(d)(before, prices[k], k) == TickSamples(d, before, prices[k], k);
  }

  lemma SampleOnPath(d: Desk, zones: seq<Zone>, prices: seq<real>, y: Snapshot)
    requires Tiles(d.spread, d.rate, zones) && y in ReplaySamples(d, FreshRun(zones), prices, 0)
    ensures exists k, x :: Passes(prices, k, x) && ValueOnPath(d, zones, prices, k, x) == y.combined
  {
    var k := SampledAtTick(d, FreshRun(zones), prices, y);
    TickSampleOnPath(d, zones, prices, k, y);
    var x :| Passes(prices, k, x) && ValueOnPath(d, zones, prices, k, x) == y.combined;
  }

  lemma MinimumIsSampled(d: Desk, zones: seq<Zone>, prices: seq<real>)
    requires |prices| > 0
    ensures exists y :: y in ReplaySamples(d, FreshRun(zones), prices, 0)
                        && y.combined == Account(d, zones, prices).metrics.minimumCombined
  {
    var samples := ReplaySamples(d, FreshRun(zones), prices, 0);
    SamplesExist(d, FreshRun(zones), prices, 0);
    MinimumCombinedIsLeast(samples);
    var j :| 0 <= j < |samples| && samples[j].combined == MinimumCombined(samples);
    assert samples[j] in samples;
  }

  /** The reported minimum is the exact minimum of the combined P&L over all
      prices of the path: no price is worth less, and some price is worth it. */
  lemma MinimumIsExact(d: Desk, zones: seq<Zone>, prices: seq<real>)
    requires Tiles(d.spread, d.rate, zones) && |prices| > 0
    ensures var minimum := Account(d, zones, prices).metrics.minimumCombined;
            && (forall k, x | Passes(prices, k, x) :: ValueOnPath(d, zones, prices, k, x) >= minimum)
            && (exists k, x :: Passes(prices, k, x) && ValueOnPath(d, zones, prices, k, x) == minimum)
  {
    var minimum := Account(d, zones, prices).metrics.minimumCombined;
    forall k, x | Passes(prices, k, x) ensures ValueOnPath(d, zones, prices, k, x) >= minimum {
      NothingBelowMinimum(d, zones, prices, k, x);
    }
    MinimumIsSampled(d, zones, prices);
    var y :| y in ReplaySamples(d, FreshRun(zones), prices, 0) && y.combined == minimum;
    SampleOnPath(d, zones, prices, y);
  }
}
