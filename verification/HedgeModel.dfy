/** The hedge strategy on values: what each crossing does to the levels and the
    ledger, and what a price segment, a tick and a whole path do. The engine
    class is proved against these functions. */
module HedgeModel {
  import opened CreditSpreads
  import opened Products
  import opened VirtualLevels
  import opened Ledgers
  import opened Sums
  import opened Folds

  datatype RecoveryMode = FullNextTp | Distributed
  datatype LockPolicy = Unhedged | BreakevenFloor

  datatype Setup = Desk(spread: CreditSpread, rate: real, mode: RecoveryMode, policy: LockPolicy, tpCount: int)

  type Desk = d: Setup | d.tpCount > 0 && d.rate > 0.0
    witness Setup.Desk(Spread(1.0, 2.0, 1.0, 1.0, 0.0), 1.0, FullNextTp, Unhedged, 1)

  datatype State = State(levels: seq<Level>, book: Book)

  datatype Direction = Down | Up

  datatype Crossing = Entry | Tp | Stop | Breakeven

  // ----- recovery claims

  /** The debt the next take-profit of a level is asked to repay. */
  function ClaimFor(d: Desk, levels: seq<Level>, target: nat): Claim
    requires target < |levels|
  {
    match d.mode
    case FullNextTp =>
      if levels[target].debt > 0.0 then Claim(target, levels[target].debt) else NoClaim
    case Distributed => OldestClaim(levels, target, 0)
  }

  /** One instalment of the first level, from `from` down to the target, that
      still has debt and instalments left. */
  function OldestClaim(levels: seq<Level>, target: nat, from: nat): Claim
    requires target < |levels|
    decreases target + 1 - from
  {
    if from > target then NoClaim
    else if levels[from].debt > 0.0 && levels[from].tpsRemaining > 0 then Claim(from, Instalment(levels[from]))
    else OldestClaim(levels, target, from + 1)
  }

  function Instalment(source: Level): real
    requires source.tpsRemaining > 0
  {
    var part := source.debt / source.tpsRemaining as real;
    if part < source.debt then part else source.debt
  }

  function RepayClaim(d: Desk, levels: seq<Level>, claim: Claim): (r: seq<Level>)
    ensures |r| == |levels|
  {
    if claim.Claim? && claim.source < |levels|
    then levels[claim.source := Repaid(levels[claim.source], claim.amount, d.mode.Distributed?)]
    else levels
  }

  // ----- the four crossings

  function EntryQuantity(zone: Zone, claim: Claim): real {
    (zone.budget + claim.Amount()) / zone.TpDistance()
  }

  /** The stop loss a hedge of this quantity would realize. */
  function StopLossOf(zone: Zone, quantity: real): real {
    Times(quantity, zone.StopDistance())
  }

  function OpenFixed(s: State, i: nat, tick: int, quantity: real, claim: Claim, projected: real): State
    requires i < |s.levels|
  {
    var active := Opened(s.levels[i], quantity, claim, false);
    State(s.levels[i := active], s.book.RecordEntry(tick, i, active, quantity, projected))
  }

  function OpenFloor(s: State, i: nat, tick: int, quantity: real, claim: Claim, projected: real): State
    requires i < |s.levels|
  {
    var active := Opened(s.levels[i], quantity, claim, true);
    State(s.levels[i := active], s.book.RecordFloorEntry(tick, i, active, quantity, projected))
  }

  function LockOut(s: State, i: nat, tick: int, quantity: real, projected: real): State
    requires i < |s.levels|
  {
    var locked := LockedOut(s.levels[i]);
    State(s.levels[i := locked], s.book.RecordLocked(tick, i, locked, quantity, projected))
  }

  function Open(d: Desk, s: State, i: nat, tick: int): State
    requires i < |s.levels|
  {
    var claim := ClaimFor(d, s.levels, i);
    var quantity := EntryQuantity(s.levels[i].zone, claim);
    var projected := StopLossOf(s.levels[i].zone, quantity);
    if s.book.grossStops + projected <= d.spread.premium then OpenFixed(s, i, tick, quantity, claim, projected)
    else if d.policy.BreakevenFloor? then OpenFloor(s, i, tick, quantity, claim, projected)
    else LockOut(s, i, tick, quantity, projected)
  }

  function TakeProfit(d: Desk, s: State, i: nat, tick: int): State
    requires i < |s.levels|
  {
    var claim := s.levels[i].claim;
    var quantity := s.levels[i].quantity;
    var profit := Times(quantity, s.levels[i].zone.TpDistance());
    var levels := RepayClaim(d, s.levels, claim);
    var paid := PaidOut(levels[i], profit);
    State(levels[i := paid],
          s.book.RecordTp(tick, i, paid, quantity, profit, paid.zone.budget, claim.Amount(), claim))
  }

  function StopOut(d: Desk, s: State, i: nat, tick: int): State
    requires i < |s.levels|
  {
    var level := s.levels[i];
    var loss := StopLossOf(level.zone, level.quantity);
    var stopped := StoppedOut(level, loss, d.mode.Distributed?, d.tpCount);
    State(s.levels[i := stopped], s.book.RecordStop(tick, i, stopped, level.quantity, loss))
  }

  function BreakEven(d: Desk, s: State, i: nat, tick: int): State
    requires i < |s.levels|
  {
    var level := s.levels[i];
    var closed := BrokenEven(level);
    State(s.levels[i := closed], s.book.RecordBreakeven(tick, i, closed, level.quantity))
  }

  function Execute(d: Desk, s: State, i: nat, crossing: Crossing, tick: int): (r: State)
    requires i < |s.levels|
    ensures |r.levels| == |s.levels|
  {
    match crossing
    case Entry => Open(d, s, i, tick)
    case Tp => TakeProfit(d, s, i, tick)
    case Stop => StopOut(d, s, i, tick)
    case Breakeven => BreakEven(d, s, i, tick)
  }

  // ----- triggers: the one crossing a level waits for in each direction

  datatype Trigger = NoTrigger | Trigger(crossing: Crossing, price: real)

  function TriggerOf(level: Level, dir: Direction): Trigger {
    match dir
    case Down =>
      if level.state == Active then Trigger(Tp, level.zone.tp)
      else if level.state == Ready && level.armed then Trigger(Entry, level.zone.entry)
      else NoTrigger
    case Up =>
      if level.state != Active then NoTrigger
      else if level.isFloor then Trigger(Breakeven, level.zone.entry)
      else Trigger(Stop, level.zone.stop)
  }

  /** Moving in the direction, `price` is met no later than `target`. */
  predicate Reached(dir: Direction, price: real, target: real) {
    if dir == Down then target <= price else price <= target
  }

  predicate Pending(level: Level, dir: Direction, target: real) {
    var t := TriggerOf(level, dir);
    t.Trigger? && Reached(dir, t.price, target)
  }

  function Priority(crossing: Crossing): int {
    if crossing == Entry then 1 else 0
  }

  /** The first trigger fires before the second: nearer price, then lower priority number. */
  predicate Sooner(dir: Direction, a: Trigger, b: Trigger)
    requires a.Trigger? && b.Trigger?
  {
    if a.price == b.price then Priority(a.crossing) < Priority(b.crossing)
    else Reached(dir, a.price, b.price)
  }

  /** The level whose trigger fires first on the way to the target, or none. */
  datatype Choice = Nobody | First(index: nat)

  function Next(levels: seq<Level>, dir: Direction, target: real): (c: Choice)
    ensures c.First? ==> c.index < |levels| && Pending(levels[c.index], dir, target)
  {
    if |levels| == 0 then Nobody
    else
      var last := |levels| - 1;
      var best := Next(levels[..last], dir, target);
      if !Pending(levels[last], dir, target) then best
      else if best.Nobody? || Sooner(dir, TriggerOf(levels[last], dir), TriggerOf(levels[best.index], dir))
      then First(last)
      else best
  }

  /** Level i is the pending level nobody precedes; ties go to the higher level. */
  ghost predicate IsNext(levels: seq<Level>, dir: Direction, target: real, i: nat) {
    && i < |levels| && Pending(levels[i], dir, target)
    && (forall j | 0 <= j < |levels| && j != i && Pending(levels[j], dir, target) ::
          || Sooner(dir, TriggerOf(levels[i], dir), TriggerOf(levels[j], dir))
          || (i < j && !Sooner(dir, TriggerOf(levels[j], dir), TriggerOf(levels[i], dir))))
  }

  lemma {:induction false} NextIsFirst(levels: seq<Level>, dir: Direction, target: real)
    ensures match Next(levels, dir, target)
            case Nobody => forall j | 0 <= j < |levels| :: !Pending(levels[j], dir, target)
            case First(i) => IsNext(levels, dir, target, i)
  {
    if |levels| > 0 {
      var last := |levels| - 1;
      NextIsFirst(levels[..last], dir, target);
    }
  }

  /** In prices alone: downwards no pending trigger is higher than the one that fires,
      upwards none is lower; at its price an entry only fires when no exit is pending
      there, and of two levels alike the one listed first does. */
  lemma NextIsNearest(levels: seq<Level>, dir: Direction, target: real, i: nat, j: nat)
    requires Next(levels, dir, target) == First(i) && j < |levels| && Pending(levels[j], dir, target)
    ensures var t, u := TriggerOf(levels[i], dir), TriggerOf(levels[j], dir);
            && (dir == Down ==> target <= u.price <= t.price)
            && (dir == Up ==> t.price <= u.price <= target)
            && (t.price == u.price && t.crossing == Entry ==> u.crossing == Entry)
            && (t.price == u.price && (t.crossing == Entry <==> u.crossing == Entry) ==> i <= j)
  {
    NextIsFirst(levels, dir, target);
  }

  /** Only one level can be first. */
  lemma NextIsUnique(levels: seq<Level>, dir: Direction, target: real, i: nat)
    requires IsNext(levels, dir, target, i)
    ensures Next(levels, dir, target) == First(i)
  {
    NextIsFirst(levels, dir, target);
  }

  // ----- a price segment

  /** How many more crossings a level can make in a segment of this direction. */
  function Weight(dir: Direction): Level -> int {
    (level: Level) =>
      if level.state == Active then 1
      else if level.state == Ready && dir == Down then 2
      else 0
  }

  function Potential(s: State, dir: Direction): (n: int)
    ensures 0 <= n <= 2 * |s.levels|
  {
    CountBounds(Weight(dir), s.levels, 0, 2);
    Count(Weight(dir), s.levels)
  }

  /** Every crossing that fires uses up potential. */
  lemma ExecuteUsesPotential(d: Desk, s: State, i: nat, dir: Direction, target: real, tick: int)
    requires i < |s.levels| && Pending(s.levels[i], dir, target)
    ensures Potential(Execute(d, s, i, TriggerOf(s.levels[i], dir).crossing, tick), dir) < Potential(s, dir)
  {
    var crossing := TriggerOf(s.levels[i], dir).crossing;
    var r := Execute(d, s, i, crossing, tick);
    if crossing == Tp {
      var claim := s.levels[i].claim;
      var levels := RepayClaim(d, s.levels, claim);
      if claim.Claim? && claim.source < |s.levels| {
        CountUpdate(Weight(dir), s.levels, claim.source, levels[claim.source]);
      }
      CountUpdate(Weight(dir), levels, i, r.levels[i]);
    } else {
      CountUpdate(Weight(dir), s.levels, i, r.levels[i]);
    }
  }

  function Fire(d: Desk, s: State, i: nat, dir: Direction, tick: int): (r: State)
    requires i < |s.levels| && TriggerOf(s.levels[i], dir).Trigger?
    ensures |r.levels| == |s.levels|
  {
    Execute(d, s, i, TriggerOf(s.levels[i], dir).crossing, tick)
  }

  /** Every crossing appends one event. */
  lemma FireAppends(d: Desk, s: State, i: nat, dir: Direction, tick: int)
    requires i < |s.levels| && TriggerOf(s.levels[i], dir).Trigger?
    ensures var r := Fire(d, s, i, dir, tick);
            && |r.book.events| == |s.book.events| + 1
            && r.book.events == s.book.events + [r.book.events[|s.book.events|]]
  {}

  /** Fires every trigger met on the way to the target, nearest first, including
      the triggers the fired crossings bring up. */
  function Settle(d: Desk, s: State, dir: Direction, target: real, tick: int): (r: State)
    ensures |r.levels| == |s.levels|
    decreases Potential(s, dir)
  {
    match Next(s.levels, dir, target)
    case Nobody => s
    case First(i) =>
      ExecuteUsesPotential(d, s, i, dir, target, tick);
      Settle(d, Fire(d, s, i, dir, tick), dir, target, tick)
  }

  function ArmedAt(level: Level, price: real): Level {
    if level.state == Ready && price >= level.zone.entry then level.(armed := true) else level
  }

  function Arm(s: State, price: real): (r: State)
    ensures |r.levels| == |s.levels| && r.book == s.book
    ensures forall i | 0 <= i < |s.levels| :: r.levels[i] == ArmedAt(s.levels[i], price)
  {
    s.(levels := seq(|s.levels|, i requires 0 <= i < |s.levels| => ArmedAt(s.levels[i], price)))
  }

  // ----- ticks and paths

  datatype Quote = NoQuote | At(price: real)

  /** An engine at rest between two ticks. */
  datatype Run = Run(previous: Quote, state: State)

  function Heading(previous: real, price: real): Direction {
    if price < previous then Down else Up
  }

  function Travel(d: Desk, s: State, previous: real, price: real, tick: int): (r: State)
    ensures |r.levels| == |s.levels|
  {
    if price == previous then s else Settle(d, s, Heading(previous, price), price, tick)
  }

  function Step(d: Desk, run: Run, price: real, tick: int): (r: Run)
    ensures r.previous == At(price) && |r.state.levels| == |run.state.levels|
  {
    match run.previous
    case NoQuote => Run(At(price), Arm(run.state, price))
    case At(previous) => Run(At(price), Arm(Travel(d, run.state, previous, price, tick), price))
  }

  function Ticks(d: Desk): (Run, real, int) -> Run {
    (run, price, tick) => Step(d, run, price, tick)
  }

  /** All prices in order, the first one at tick `tick`. */
  function Replay(d: Desk, run: Run, prices: seq<real>, tick: int): Run {
    Fold(Ticks(d), run, prices, tick)
  }

  /** All ticks of a history, each a price with its own tick number. */
  function ReplayTicks(d: Desk, run: Run, history: seq<(real, int)>): Run {
    Fold((r: Run, x: (real, int), n: int) => Step(d, r, x.0, x.1), run, history, 0)
  }

  lemma OneMoreTick(d: Desk, run: Run, history: seq<(real, int)>, price: real, tick: int)
    ensures ReplayTicks(d, run, history + [(price, tick)]) == Step(d, ReplayTicks(d, run, history), price, tick)
  {
    assert (history + [(price, tick)])[..|history|] == history;
  }

  function FreshState(zones: seq<Zone>): State {
    State(seq(|zones|, i requires 0 <= i < |zones| => FreshLevel(zones[i])), EMPTY_BOOK)
  }

  function FreshRun(zones: seq<Zone>): Run {
    Run(NoQuote, FreshState(zones))
  }

  // ----- accounting samples of a path

  function SampleAfter(d: Desk, s: State, price: real, tick: int, after: EventRef): Snapshot {
    SnapshotOf(d.spread, s.levels, s.book, price, tick, after)
  }

  /** One sample right after each crossing of a segment, at its trigger price. */
  function CrossingSamples(d: Desk, s: State, dir: Direction, target: real, tick: int): seq<Snapshot>
    decreases Potential(s, dir)
  {
    match Next(s.levels, dir, target)
    case Nobody => []
    case First(i) =>
      ExecuteUsesPotential(d, s, i, dir, target, tick);
      var r := Fire(d, s, i, dir, tick);
      [SampleAfter(d, r, TriggerOf(s.levels[i], dir).price, tick, AfterEvent(|r.book.events|))]
      + CrossingSamples(d, r, dir, target, tick)
  }

  lemma NextSample(d: Desk, s: State, i: nat, dir: Direction, current: real, tick: int)
    requires Next(s.levels, dir, current) == First(i)
    ensures var r := Fire(d, s, i, dir, tick);
            CrossingSamples(d, s, dir, current, tick)
            == [SampleAfter(d, r, TriggerOf(s.levels[i], dir).price, tick, AfterEvent(|r.book.events|))]
               + CrossingSamples(d, r, dir, current, tick)
  {
    ExecuteUsesPotential(d, s, i, dir, current, tick);
  }

  function SegmentSamples(d: Desk, run: Run, price: real, tick: int): seq<Snapshot> {
    match run.previous
    case NoQuote => []
    case At(previous) =>
      if price == previous then [] else CrossingSamples(d, run.state, Heading(previous, price), price, tick)
  }

  lemma {:induction false} CrossingSampleTicks(d: Desk, s: State, dir: Direction, target: real, tick: int)
    ensures forall x | x in CrossingSamples(d, s, dir, target, tick) :: x.tick == tick
    decreases Potential(s, dir)
  {
    if Next(s.levels, dir, target).First? {
      var i := Next(s.levels, dir, target).index;
      ExecuteUsesPotential(d, s, i, dir, target, tick);
      CrossingSampleTicks(d, Fire(d, s, i, dir, tick), dir, target, tick);
    }
  }

  lemma SegmentSampleTicks(d: Desk, run: Run, price: real, tick: int)
    ensures forall x | x in SegmentSamples(d, run, price, tick) :: x.tick == tick
  {
    if run.previous.At? && run.previous.price != price {
      CrossingSampleTicks(d, run.state, Heading(run.previous.price, price), price, tick);
    }
  }

  /** The samples of one tick: its crossings, and its own price unless the last
      crossing already sampled that price. */
  function TickSamples(d: Desk, run: Run, price: real, tick: int): (r: seq<Snapshot>)
    ensures |r| > 0
  {
    var crossings := SegmentSamples(d, run, price, tick);
    if |crossings| > 0 && crossings[|crossings| - 1].price == price then crossings
    else crossings + [SampleAfter(d, Step(d, run, price, tick).state, price, tick, NoEvent)]
  }

  function Samples(d: Desk): (Run, real, int) -> seq<Snapshot> {
    (run, price, tick) => TickSamples(d, run, price, tick)
  }

  function ReplaySamples(d: Desk, run: Run, prices: seq<real>, tick: int): seq<Snapshot> {
    Gather(Ticks(d), Samples(d), run, prices, tick)
  }

  /** The result of an accounting run of a fresh engine over a path. */
  function Account(d: Desk, zones: seq<Zone>, prices: seq<real>): StrategyResult
    requires |prices| > 0
  {
    var samples := ReplaySamples(d, FreshRun(zones), prices, 0);
    assert |samples| > 0 by { SamplesExist(d, FreshRun(zones), prices, 0); }
    var end := Replay(d, FreshRun(zones), prices, 0).state;
    ResultOf(d.spread, end.levels, end.book, prices, samples)
  }

  lemma SamplesExist(d: Desk, run: Run, prices: seq<real>, tick: int)
    requires |prices| > 0
    ensures |ReplaySamples(d, run, prices, tick)| > 0
  {
    var last := |prices| - 1;
    assert |TickSamples(d, Replay(d, run, prices[..last], tick), prices[last], tick + last)| > 0;
  }
}
