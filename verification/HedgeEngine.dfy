/** The hedge engine as it runs: level objects and a ledger object updated in
    place, driven by the cursor loop. Every method is proved to do to the values
    of these objects exactly what the model says. */
module HedgeEngine {
  import opened CreditSpreads
  import opened Products
  import opened VirtualLevels
  import opened Ledgers
  import opened Folds
  import opened HedgeModel
  import opened Positions
  import opened Claims
  import opened CrossingEngine

  /** Collects the samples an accounting run takes after each executed crossing. */
  class Recorder {
    var samples: seq<Snapshot>

    constructor ()
      ensures samples == []
    {
      samples := [];
    }
  }

  /** Executed crossings come in the order of the price; where two share a price,
      take-profits come before entries. */
  ghost predicate InPriceOrder(executed: seq<CrossingEvent>, dir: Direction) {
    && (forall k | 0 <= k < |executed| :: executed[k].priority == if executed[k].crossing == Entry then 1 else 0)
    && forall j, k | 0 <= j < k < |executed| ::
      && (if dir == Down then executed[k].price <= executed[j].price else executed[j].price <= executed[k].price)
      && (executed[j].price == executed[k].price ==> executed[j].priority <= executed[k].priority)
  }

  /** After an entry at the cursor no open take-profit shares its price. */
  ghost predicate HandedOff(levels: seq<Level>, executed: seq<CrossingEvent>, dir: Direction) {
    |executed| > 0 && executed[|executed| - 1].priority == 1 ==>
      && dir == Down
      && forall i | 0 <= i < |levels| && levels[i].state == Active :: levels[i].zone.tp < executed[|executed| - 1].price
  }

  lemma FireKeepsOrder(d: Desk, s: State, i: nat, dir: Direction, start: real, cursor: real, target: real, tick: int,
                       executed: seq<CrossingEvent>)
    requires AllStand(s, dir, start, cursor) && IsNext(s.levels, dir, target, i)
    requires InPriceOrder(executed, dir) && HandedOff(s.levels, executed, dir)
    requires |executed| > 0 ==> executed[|executed| - 1].price == cursor
    ensures var e := EventOf(s.levels[i], i, dir);
            && InPriceOrder(executed + [e], dir)
            && HandedOff(Fire(d, s, i, dir, tick).levels, executed + [e], dir)
  {
    var e, r := EventOf(s.levels[i], i, dir), Fire(d, s, i, dir, tick);
    FireMovesCursor(d, s, i, dir, start, cursor, target, tick);
    if |executed| > 0 {
      var last := executed[|executed| - 1];
      assert last.price == e.price ==> last.priority <= e.priority;
      forall k | 0 <= k < |executed|
        ensures Reached(dir, executed[k].price, e.price)
        ensures executed[k].price == e.price ==> executed[k].priority <= e.priority
      {
        if k < |executed| - 1 {
          assert Reached(dir, executed[k].price, last.price);
          assert executed[k].price == last.price ==> executed[k].priority <= last.priority;
        }
      }
    }
    if e.crossing == Entry {
      forall j | 0 <= j < |r.levels| && r.levels[j].state == Active ensures r.levels[j].zone.tp < e.price {
        if j != i {
          assert !Pending(s.levels[j], dir, target)
                 || Sooner(dir, TriggerOf(s.levels[i], dir), TriggerOf(s.levels[j], dir));
        }
      }
    }
  }

  /** Everything the cursor loop maintains: the levels stand at the cursor, the
      model would still reach the same end from here, and the processed and
      executed events are in order. */
  ghost predicate Cruising(d: Desk, start: State, s: State, dir: Direction, previous: real, cursor: real, current: real,
                           tick: int,
                           processed: set<EventKey>, executed: seq<CrossingEvent>)
  {
    && Owing(d, s) && AllStand(s, dir, previous, cursor) && Reached(dir, cursor, current)
    && Settle(d, s, dir, current, tick) == Settle(d, start, dir, current, tick)
    && Spent(s.levels, dir, processed)
    && |executed| + Potential(s, dir) <= Potential(start, dir)
    && InPriceOrder(executed, dir) && HandedOff(s.levels, executed, dir)
    && (|executed| > 0 ==> executed[|executed| - 1].price == cursor)
  }

  lemma CruisingStarts(d: Desk, s: State, dir: Direction, previous: real, current: real, tick: int)
    requires Owing(d, s) && AllRest(s, previous) && Reached(dir, previous, current)
    ensures Cruising(d, s, s, dir, previous, previous, current, tick, {}, [])
  {
    RestStands(s, dir, previous);
  }

  lemma CruisingStep(d: Desk, start: State, s: State, i: nat, dir: Direction, previous: real, cursor: real,
                     current: real, tick: int,
                     processed: set<EventKey>, executed: seq<CrossingEvent>)
    requires Cruising(d, start, s, dir, previous, cursor, current, tick, processed, executed)
    requires Next(s.levels, dir, current) == First(i)
    ensures var e := EventOf(s.levels[i], i, dir);
            Cruising(d, start, Fire(d, s, i, dir, tick), dir, previous, e.price, current, tick,
                     processed + {KeyOf(e)}, executed + [e])
    ensures Potential(Fire(d, s, i, dir, tick), dir) < Potential(s, dir)
    ensures Executable(s, EventOf(s.levels[i], i, dir))
  {
    NextIsFirst(s.levels, dir, current);
    FireMovesCursor(d, s, i, dir, previous, cursor, current, tick);
    FireKeepsOwing(d, s, i, dir, previous, cursor, current, tick);
    FireSpends(d, s, i, dir, tick, processed);
    FireKeepsOrder(d, s, i, dir, previous, cursor, current, tick, executed);
    ExecuteUsesPotential(d, s, i, dir, current, tick);
    if s.levels[i].state == Active { assert ClaimOk(d, s.levels, i); }
  }

  lemma OneMoreEligible(levels: seq<Level>, i: nat, previous: real, current: real, dir: Direction)
    requires i < |levels|
    ensures Eligible(levels[..i + 1], previous, current, dir)
            == Eligible(levels[..i], previous, current, dir) + EligibleOf(levels[i], i, previous, current, dir)
  {
    assert levels[..i + 1][..i] == levels[..i];
  }

  ghost predicate EarlierThan(samples: seq<Snapshot>, tick: int) {
    forall x | x in samples :: x.tick < tick
  }

  /** The sample of a tick's own price is dropped if the last one taken so far is
      of the same tick and price. */
  function WithOwnSample(samples: seq<Snapshot>, own: Snapshot): seq<Snapshot> {
    var last := |samples| - 1;
    if |samples| == 0 || samples[last].tick != own.tick || samples[last].price != own.price
    then samples + [own]
    else samples
  }

  lemma OwnSampleOfTick(d: Desk, run: Run, price: real, tick: int, earlier: seq<Snapshot>)
    requires EarlierThan(earlier, tick)
    ensures var own := SampleAfter(d, HedgeModel.Step(d, run, price, tick).state, price, tick, NoEvent);
            var all := WithOwnSample(earlier + SegmentSamples(d, run, price, tick), own);
            all == earlier + TickSamples(d, run, price, tick) && EarlierThan(all, tick + 1)
  {
    var now := SegmentSamples(d, run, price, tick);
    var all := earlier + now;
    SegmentSampleTicks(d, run, price, tick);
    if |now| > 0 {
      assert all[|all| - 1] == now[|now| - 1] && now[|now| - 1] in now;
    } else if |earlier| > 0 {
      assert all[|all| - 1] == earlier[|earlier| - 1] && earlier[|earlier| - 1] in earlier;
    }
  }

  /** A crossing may fire: it is the trigger of its level and no assertion fails on it. */
  ghost predicate Fireable(s: State, dir: Direction, e: CrossingEvent) {
    && Executable(s, e)
    && TriggerOf(s.levels[e.level], dir).Trigger? && e == EventOf(s.levels[e.level], e.level, dir)
  }

  /** The levels stand at the cursor, so the candidates can be taken. */
  ghost predicate Poised(s: State, dir: Direction, previous: real, cursor: real, current: real,
                         processed: set<EventKey>) {
    AllStand(s, dir, previous, cursor) && Reached(dir, cursor, current) && Spent(s.levels, dir, processed)
  }

  type LoopState = (State, real, set<EventKey>, seq<CrossingEvent>)

  /** What the loop does to its state when it fires level i. */
  ghost function Advanced(d: Desk, l: LoopState, i: nat, dir: Direction, tick: int): LoopState
    requires i < |l.0.levels| && TriggerOf(l.0.levels[i], dir).Trigger?
  {
    var e := EventOf(l.0.levels[i], i, dir);
    (Fire(d, l.0, i, dir, tick), e.price, l.2 + {KeyOf(e)}, l.3 + [e])
  }

  ghost predicate Done(d: Desk, start: State, l: LoopState, dir: Direction, current: real, tick: int) {
    l.0 == Settle(d, start, dir, current, tick) && |l.3| <= 2 * |start.levels| && InPriceOrder(l.3, dir)
  }

  /** What makes `holds` an invariant of the loop and `ahead` the samples still to
      come: the next crossing can be picked and fired, firing keeps `holds` and
      takes one sample, and at the end the loop has done what the model does. */
  ghost predicate DrivesLoop(d: Desk, start: State, dir: Direction, previous: real, current: real, tick: int,
                             holds: LoopState -> bool, ahead: State -> seq<Snapshot>, left: State -> nat)
  {
    && (forall l | holds(l) :: Poised(l.0, dir, previous, l.1, current, l.2))
    && (forall l, i: nat {:trigger Advanced(d, l, i, dir, tick)}
          | holds(l) && Next(l.0.levels, dir, current) == First(i) ::
          var next := Advanced(d, l, i, dir, tick);
          && Fireable(l.0, dir, EventOf(l.0.levels[i], i, dir))
          && holds(next) && left(next.0) < left(l.0)
          && ahead(l.0) == [SampleAfter(d, next.0, next.1, tick, AfterEvent(|next.0.book.events|))] + ahead(next.0))
    && (forall l | holds(l) && Next(l.0.levels, dir, current).Nobody? ::
          Done(d, start, l, dir, current, tick) && ahead(l.0) == [])
  }

  lemma CruisingEnds(d: Desk, start: State, l: LoopState, dir: Direction, previous: real, current: real, tick: int)
    requires Cruising(d, start, l.0, dir, previous, l.1, current, tick, l.2, l.3)
    requires Next(l.0.levels, dir, current).Nobody?
    ensures Done(d, start, l, dir, current, tick)
  {}

  lemma SplitAt<T>(prefix: seq<T>, all: seq<T>)
    requires prefix <= all
    ensures all == prefix + all[|prefix|..]
  {}

  lemma Associate<T>(a: seq<T>, b: seq<T>, c: seq<T>)
    ensures (a + b) + c == a + (b + c)
  {}

  lemma LoopInvariant(d: Desk, start: State, dir: Direction, previous: real, current: real, tick: int)
    returns (holds: LoopState -> bool, ahead: State -> seq<Snapshot>, left: State -> nat)
    requires Owing(d, start) && AllRest(start, previous) && Reached(dir, previous, current)
    ensures DrivesLoop(d, start, dir, previous, current, tick, holds, ahead, left)
    ensures holds((start, previous, {}, [])) && ahead(start) == CrossingSamples(d, start, dir, current, tick)
  {
    holds := (l: LoopState) => Cruising(d, start, l.0, dir, previous, l.1, current, tick, l.2, l.3);
    ahead := (s: State) => CrossingSamples(d, s, dir, current, tick);
    left := (s: State) => Potential(s, dir);
    CruisingStarts(d, start, dir, previous, current, tick);
    forall l, i: nat | holds(l) && Next(l.0.levels, dir, current) == First(i)
      ensures Fireable(l.0, dir, EventOf(l.0.levels[i], i, dir))
      ensures var next := Advanced(d, l, i, dir, tick);
              && holds(next) && left(next.0) < left(l.0)
              && ahead(l.0) == [SampleAfter(d, next.0, next.1, tick, AfterEvent(|next.0.book.events|))] + ahead(next.0)
    {
      CruisingStep(d, start, l.0, i, dir, previous, l.1, current, tick, l.2, l.3);
      NextSample(d, l.0, i, dir, current, tick);
    }
    forall l | holds(l) && Next(l.0.levels, dir, current).Nobody?
      ensures Done(d, start, l, dir, current, tick) && ahead(l.0) == []
    {
      CruisingEnds(d, start, l, dir, previous, current, tick);
    }
  }

  /** No assertion of the engine can fail on this event: the claim of a
      take-profit is owed, a stop closes a fixed hedge, a breakeven a floor hedge. */
  ghost predicate Executable(s: State, e: CrossingEvent) {
    && e.level < |s.levels|
    && var level := s.levels[e.level];
       match e.crossing
       case Entry => true
       case Tp =>
         level.claim.Claim? ==>
           level.claim.source < |s.levels| && level.claim.amount <= s.levels[level.claim.source].debt
       case Stop => !level.isFloor
       case Breakeven => level.isFloor
  }

  datatype Pick = NoCandidate | Picked(event: CrossingEvent)

  datatype Refusal = EngineNotFresh | EmptyPath

  datatype AccountingOutcome = Result(result: StrategyResult) | Refused(why: Refusal)

  datatype BadSetting = NoLevels | NoStopRate | NoTpCount

  datatype Made = Engine(engine: HedgeEngine) | Invalid(why: BadSetting)

  method NewEngine(spread: CreditSpread, levelCount: int, mode: RecoveryMode, tpCount: int, policy: LockPolicy,
                   stopRate: real)
    returns (r: Made)
    ensures r.Invalid? <==> levelCount <= 0 || stopRate <= 0.0 || tpCount <= 0
    ensures r.Engine? ==>
      && fresh(r.engine) && r.engine.Valid() && fresh(r.engine.ledger) && fresh(r.engine.levels)
      && r.engine.desk == Setup.Desk(spread, stopRate, mode, policy, tpCount)
      && r.engine.View() == FreshRun(TiledZones(spread, stopRate, levelCount))
  {
    if levelCount <= 0 { return Invalid(NoLevels); }
    if stopRate <= 0.0 { return Invalid(NoStopRate); }
    if tpCount <= 0 { return Invalid(NoTpCount); }
    var generated := GenerateVirtualLevels(spread, levelCount, stopRate);
    var desk: Desk := Setup.Desk(spread, stopRate, mode, policy, tpCount);
    var engine := new HedgeEngine(desk, generated.levels);
    return Engine(engine);
  }

  class HedgeEngine {
    const desk: Desk
    const levels: seq<HedgeLevel>
    const ledger: Ledger
    var previousPrice: Quote
    ghost var history: seq<(real, int)>  // every tick so far, with its number

    constructor (desk: Desk, levels: seq<HedgeLevel>)
      requires Numbered(levels) && |levels| > 0 && Chained(ZonesOf(levels))
      requires forall i | 0 <= i < |levels| :: levels[i].View() == FreshLevel(levels[i].zone)
      ensures Valid() && history == [] && fresh(ledger) && this.desk == desk && this.levels == levels
      ensures View() == FreshRun(ZonesOf(levels))
    {
      this.desk, this.levels := desk, levels;
      this.previousPrice := NoQuote;
      this.history := [];
      this.ledger := new Ledger();
      new;
      assert ViewsOf(levels) == FreshState(ZonesOf(levels)).levels;
    }

    function Book(): Book
      reads ledger
    {
      ledger.View()
    }

    function StateView(): State
      reads levels, ledger
    {
      State(ViewsOf(levels), ledger.View())
    }

    function View(): Run
      reads this, levels, ledger
    {
      Run(previousPrice, StateView())
    }

    /** The engine is in the state its history of ticks leads a fresh engine to. */
    ghost predicate Valid()
      reads this, levels, ledger
    {
      && Numbered(levels) && |levels| > 0 && Chained(ZonesOf(levels))
      && View() == ReplayTicks(desk, FreshRun(ZonesOf(levels)), history)
    }

    ghost predicate Holds(level: HedgeLevel) {
      Numbered(levels) && level.index < |levels| && levels[level.index] == level
    }

    ghost predicate ClaimIsOwed(claim: Claim)
      reads levels
    {
      claim.Claim? ==> claim.source < |levels| && claim.amount <= levels[claim.source].debt
    }

    method RecoveryAllocationsFor(target: HedgeLevel) returns (claim: Claim)
      requires Holds(target)
      ensures claim == ClaimFor(desk, ViewsOf(levels), target.index)
      ensures desk.mode == FullNextTp ==>
                claim == if target.debt > 0.0 then Claim(target.index, target.debt) else NoClaim
      ensures desk.mode == Distributed && claim.NoClaim? ==>
                forall j | 0 <= j <= target.index :: levels[j].debt <= 0.0 || levels[j].tpsRemaining <= 0
      ensures desk.mode == Distributed && claim.Claim? ==>
                && claim.source <= target.index
                && levels[claim.source].debt > 0.0 && levels[claim.source].tpsRemaining > 0
                && (forall j | 0 <= j < claim.source :: levels[j].debt <= 0.0 || levels[j].tpsRemaining <= 0)
                && claim.amount == levels[claim.source].debt / levels[claim.source].tpsRemaining as real
    {
      OldestClaimIsFirst(ViewsOf(levels), target.index, 0);
      if desk.mode == FullNextTp {
        if target.debt > 0.0 {
          return Claim(target.index, target.debt);
        }
        return NoClaim;
      }
      var source := 0;
      while source < |levels|
        invariant 0 <= source <= target.index + 1
        invariant ClaimFor(desk, ViewsOf(levels), target.index) == OldestClaim(ViewsOf(levels), target.index, source)
      {
        if source > target.index {
          break;
        }
        if levels[source].debt > 0.0 && levels[source].tpsRemaining > 0 {
          return Claim(source, Instalment(levels[source].View()));
        }
        source := source + 1;
      }
      return NoClaim;
    }

    method Open(level: HedgeLevel, tick: int)
      requires Holds(level)
      modifies level, ledger
      ensures StateView() == HedgeModel.Open(desk, old(StateView()), level.index, tick)
    {
      var claim := RecoveryAllocationsFor(level);
      var quantity := EntryQuantity(level.zone, claim);
      var projected := StopLossOf(level.zone, quantity);
      if ledger.grossStops + projected > desk.spread.premium {
        if desk.policy == BreakevenFloor {
          OpenFloor(level, tick, quantity, claim, projected);
        } else {
          Lock(level, tick, quantity, projected);
        }
      } else {
        OpenFixed(level, tick, quantity, claim, projected);
      }
    }

    method OpenFixed(level: HedgeLevel, tick: int, quantity: real, claim: Claim, projected: real)
      requires Holds(level)
      modifies level, ledger
      ensures StateView() == HedgeModel.OpenFixed(old(StateView()), level.index, tick, quantity, claim, projected)
    {
      level.Activate(quantity, claim, false);
      assert ViewsOf(levels) == old(ViewsOf(levels))[level.index := level.View()];
      ledger.RecordEntry(level, tick, quantity, projected);
    }

    method OpenFloor(level: HedgeLevel, tick: int, quantity: real, claim: Claim, projected: real)
      requires Holds(level)
      modifies level, ledger
      ensures StateView() == HedgeModel.OpenFloor(old(StateView()), level.index, tick, quantity, claim, projected)
    {
      level.Activate(quantity, claim, true);
      assert ViewsOf(levels) == old(ViewsOf(levels))[level.index := level.View()];
      ledger.RecordFloorEntry(level, tick, quantity, projected);
    }

    method Lock(level: HedgeLevel, tick: int, quantity: real, projected: real)
      requires Holds(level)
      modifies level, ledger
      ensures StateView() == HedgeModel.LockOut(old(StateView()), level.index, tick, quantity, projected)
    {
      level.LockOut();
      assert ViewsOf(levels) == old(ViewsOf(levels))[level.index := level.View()];
      ledger.RecordLocked(level, tick, quantity, projected);
    }

    /** The claimed debt never exceeds what its source owes, so the check that
        guards against negative debt cannot fail. */
    method RepaySource(claim: Claim)
      requires Numbered(levels) && ClaimIsOwed(claim)
      modifies levels
      ensures ViewsOf(levels) == RepayClaim(desk, old(ViewsOf(levels)), claim)
    {
      if claim.Claim? {
        var source := levels[claim.source];
        source.Repay(claim.amount, desk.mode == Distributed);
        assert source.debt >= 0.0;
        assert ViewsOf(levels) == old(ViewsOf(levels))[claim.source := source.View()];
      }
    }

    method PayOutLevel(level: HedgeLevel, profit: real)
      requires Holds(level)
      modifies level
      ensures ViewsOf(levels) == old(ViewsOf(levels))[level.index := PaidOut(old(level.View()), profit)]
    {
      level.PayOut(profit);
      assert ViewsOf(levels) == old(ViewsOf(levels))[level.index := level.View()];
    }

    method TakeProfit(level: HedgeLevel, tick: int)
      requires Holds(level) && ClaimIsOwed(level.claim)
      modifies levels, ledger
      ensures StateView() == HedgeModel.TakeProfit(desk, old(StateView()), level.index, tick)
    {
      var quantity := level.quantity;
      var profit := Times(quantity, level.zone.TpDistance());
      var claim := level.claim;
      RepaySource(claim);
      PayOutLevel(level, profit);
      ledger.RecordTp(level, tick, quantity, profit, level.zone.budget, claim.Amount(), claim);
    }

    /** Only a fixed hedge is ever stopped. */
    method StopOut(level: HedgeLevel, tick: int)
      requires Holds(level) && !level.isFloor
      modifies level, ledger
      ensures StateView() == HedgeModel.StopOut(desk, old(StateView()), level.index, tick)
    {
      assert !level.isFloor;
      var quantity := level.quantity;
      var loss := StopLossOf(level.zone, quantity);
      level.StopOut(loss, desk.mode == Distributed, desk.tpCount);
      assert ViewsOf(levels) == old(ViewsOf(levels))[level.index := level.View()];
      ledger.RecordStop(level, tick, quantity, loss);
    }

    /** Only a floor hedge ever leaves at breakeven. */
    method BreakEven(level: HedgeLevel, tick: int)
      requires Holds(level) && level.isFloor
      modifies level, ledger
      ensures StateView() == HedgeModel.BreakEven(desk, old(StateView()), level.index, tick)
    {
      assert level.isFloor;
      var quantity := level.quantity;
      level.BreakEven();
      assert ViewsOf(levels) == old(ViewsOf(levels))[level.index := level.View()];
      ledger.RecordBreakeven(level, tick, quantity);
    }

    method ArmReadyLevels(price: real)
      requires Numbered(levels)
      modifies levels
      ensures StateView() == Arm(old(StateView()), price)
    {
      var i := 0;
      while i < |levels|
        invariant 0 <= i <= |levels|
        invariant forall j | 0 <= j < |levels| ::
          levels[j].View() == if j < i then ArmedAt(old(levels[j].View()), price) else old(levels[j].View())
      {
        var level := levels[i];
        if level.state == Ready && price >= level.zone.entry {
          level.armed := true;
        }
        i := i + 1;
      }
      assert ViewsOf(levels) == Arm(old(StateView()), price).levels;
    }

    /** What one level offers, in the order of the checks. */
    method LevelCrossings(i: nat, previous: real, current: real, dir: Direction) returns (events: seq<CrossingEvent>)
      requires i < |levels|
      ensures events == EligibleOf(levels[i].View(), i, previous, current, dir)
    {
      events := [];
      var level := levels[i];
      if dir == Down {
        if level.state == Active && previous > level.zone.tp && current <= level.zone.tp {
          events := events + [CrossingEvent(Tp, i, level.zone.tp, 0)];
        }
        if level.state == Ready && level.armed && current <= level.zone.entry {
          events := events + [CrossingEvent(Entry, i, level.zone.entry, 1)];
        }
      } else {
        if level.state == Active && level.isFloor && previous <= level.zone.entry <= current {
          events := events + [CrossingEvent(Breakeven, i, level.zone.entry, 0)];
        } else if level.state == Active && previous < level.zone.stop && current >= level.zone.stop {
          events := events + [CrossingEvent(Stop, i, level.zone.stop, 0)];
        }
      }
    }

    method EligibleCrossings(previous: real, current: real, dir: Direction) returns (events: seq<CrossingEvent>)
      ensures events == Eligible(ViewsOf(levels), previous, current, dir)
    {
      events := [];
      ghost var views := ViewsOf(levels);
      var i := 0;
      while i < |levels|
        invariant 0 <= i <= |levels|
        invariant events == Eligible(views[..i], previous, current, dir)
      {
        var offered := LevelCrossings(i, previous, current, dir);
        events := events + offered;
        OneMoreEligible(views, i, previous, current, dir);
        i := i + 1;
      }
      assert views[..i] == views;
    }

    method ExecuteCrossing(event: CrossingEvent, tick: int)
      requires Numbered(levels) && Executable(StateView(), event)
      modifies levels, ledger
      ensures StateView() == Execute(desk, old(StateView()), event.level, event.crossing, tick)
    {
      var level := levels[event.level];
      match event.crossing {
        case Entry => Open(level, tick);
        case Tp => TakeProfit(level, tick);
        case Stop => StopOut(level, tick);
        case Breakeven => BreakEven(level, tick);
      }
    }

    /** Executes one crossing and, in an accounting run, samples right after it. */
    method Advance(event: CrossingEvent, ghost dir: Direction, tick: int, recorder: Recorder?)
      requires Numbered(levels) && Fireable(StateView(), dir, event)
      modifies levels, ledger, recorder
      ensures StateView() == Fire(desk, old(StateView()), event.level, dir, tick)
      ensures recorder != null ==>
                recorder.samples == old(recorder.samples)
                                    + [SampleAfter(desk, StateView(), event.price, tick,
                                                   AfterEvent(|StateView().book.events|))]
    {
      ExecuteCrossing(event, tick);
      if recorder != null {
        recorder.samples := recorder.samples
          + [SnapshotOf(desk.spread, ViewsOf(levels), ledger.View(), event.price, tick, AfterEvent(|ledger.events|))];
      }
    }

    /** The nearest candidate ahead of the cursor that is not yet processed. */
    method NearestCandidate(previous: real, current: real, cursor: real, dir: Direction, processed: set<EventKey>)
      returns (pick: Pick)
      requires Poised(StateView(), dir, previous, cursor, current, processed)
      ensures match Next(StateView().levels, dir, current)
              case Nobody => pick == NoCandidate
              case First(i) => pick == Picked(EventOf(StateView().levels[i], i, dir))
    {
      var eligible := EligibleCrossings(previous, current, dir);
      var candidates := Candidates(eligible, cursor, current, dir, processed);
      LoopFollowsModel(StateView().levels, previous, cursor, current, dir, processed);
      if |candidates| == 0 {
        return NoCandidate;
      }
      return Picked(Nearest(candidates, dir));
    }

    /** One turn of the cursor loop: picks the nearest candidate and executes it. */
    method FireNearest(previous: real, current: real, cursor: real, dir: Direction, tick: int, processed: set<EventKey>,
                       recorder: Recorder?, ghost start: State, ghost executed: seq<CrossingEvent>,
                       ghost holds: LoopState -> bool, ghost ahead: State -> seq<Snapshot>, ghost left: State -> nat)
      returns (pick: Pick)
      requires Numbered(levels) && DrivesLoop(desk, start, dir, previous, current, tick, holds, ahead, left)
      requires holds((StateView(), cursor, processed, executed))
      modifies levels, ledger, recorder
      ensures pick.NoCandidate? ==>
        && Next(StateView().levels, dir, current).Nobody? && StateView() == old(StateView())
        && (recorder != null ==> recorder.samples == old(recorder.samples))
      ensures pick.Picked? ==>
        && holds((StateView(), pick.event.price, processed + {KeyOf(pick.event)}, executed + [pick.event]))
        && left(StateView()) < left(old(StateView()))
        && (recorder != null ==>
              recorder.samples + ahead(StateView()) == old(recorder.samples) + ahead(old(StateView())))
    {
      ghost var l := (StateView(), cursor, processed, executed);
      pick := NearestCandidate(previous, current, cursor, dir, processed);
      if pick.Picked? {
        ghost var i := pick.event.level;
        ghost var next := Advanced(desk, l, i, dir, tick);
        assert Next(l.0.levels, dir, current) == First(i) && holds(next) && left(next.0) < left(l.0);
        ghost var sample := SampleAfter(desk, next.0, next.1, tick, AfterEvent(|next.0.book.events|));
        assert ahead(l.0) == [sample] + ahead(next.0);
        Advance(pick.event, dir, tick, recorder);
        assert (StateView(), pick.event.price, processed + {KeyOf(pick.event)}, executed + [pick.event]) == next;
        if recorder != null { Associate(old(recorder.samples), [sample], ahead(next.0)); }
      }
    }

    /** The cursor loop, started where `holds` is true. */
    method CursorLoop(previous: real, current: real, dir: Direction, tick: int, recorder: Recorder?, ghost start: State,
                      ghost holds: LoopState -> bool, ghost ahead: State -> seq<Snapshot>, ghost left: State -> nat)
      returns (executed: seq<CrossingEvent>, ghost reached: LoopState)
      requires Numbered(levels) && DrivesLoop(desk, start, dir, previous, current, tick, holds, ahead, left)
      requires holds((StateView(), previous, {}, []))
      modifies levels, ledger, recorder
      ensures reached.0 == StateView() && reached.3 == executed
      ensures holds(reached) && Next(reached.0.levels, dir, current).Nobody?
      ensures recorder != null ==>
                recorder.samples + ahead(StateView()) == old(recorder.samples) + ahead(old(StateView()))
    {
      executed := [];
      var cursor := previous;
      var processed: set<EventKey> := {};
      while true
        invariant holds((StateView(), cursor, processed, executed))
        invariant recorder != null ==>
                    recorder.samples + ahead(StateView()) == old(recorder.samples) + ahead(old(StateView()))
        decreases left(StateView())
      {
        var pick := FireNearest(previous, current, cursor, dir, tick, processed, recorder, start, executed, holds,
                                ahead, left);
        if pick == NoCandidate {
          reached := (StateView(), cursor, processed, executed);
          return;
        }
        executed := executed + [pick.event];
        processed := processed + {KeyOf(pick.event)};
        cursor := pick.event.price;
      }
    }

    /** The crossings of one price segment. It does what the model does, offers
        every crossing once, executes crossings in price order with take-profits
        before entries, and makes at most two crossings per level. */
    method ProcessTransition(previous: real, current: real, tick: int, recorder: Recorder?)
      returns (executed: seq<CrossingEvent>)
      requires Numbered(levels) && Owing(desk, StateView()) && AllRest(StateView(), previous)
      modifies levels, ledger, recorder
      ensures StateView() == Travel(desk, old(StateView()), previous, current, tick)
      ensures |executed| <= 2 * |levels|
      ensures InPriceOrder(executed, Heading(previous, current))
      ensures recorder != null ==>
                recorder.samples == old(recorder.samples)
                + SegmentSamples(desk, Run(At(previous), old(StateView())), current, tick)
    {
      if previous == current {
        return [];
      }
      var dir := Heading(previous, current);
      ghost var start := StateView();
      ghost var holds, ahead, left := LoopInvariant(desk, start, dir, previous, current, tick);
      ghost var reached: LoopState;
      executed, reached := CursorLoop(previous, current, dir, tick, recorder, start, holds, ahead, left);
      assert Done(desk, start, reached, dir, current, tick) && ahead(reached.0) == [];
    }

    /** Crossings up to the new price, then arming there. */
    method MoveTo(price: real, tick: int, recorder: Recorder?)
      requires Numbered(levels) && RunRests(View()) && Owing(desk, StateView())
      modifies this`previousPrice, levels, ledger, recorder
      ensures View() == HedgeModel.Step(desk, old(View()), price, tick)
      ensures recorder != null ==>
                recorder.samples == old(recorder.samples) + SegmentSamples(desk, old(View()), price, tick)
    {
      if previousPrice != NoQuote {
        var executed := ProcessTransition(previousPrice.price, price, tick, recorder);
      }
      previousPrice := At(price);
      ArmReadyLevels(price);
    }

    /** One tick. Returns the ledger events it appended. */
    method Step(price: real, tick: int, recorder: Recorder?) returns (events: seq<LedgerEvent>)
      requires Valid()
      modifies this, levels, ledger, recorder
      ensures Valid() && history == old(history) + [(price, tick)]
      ensures View() == HedgeModel.Step(desk, old(View()), price, tick)
      ensures ledger.events == old(ledger.events) + events
      ensures recorder != null ==>
                recorder.samples == old(recorder.samples) + SegmentSamples(desk, old(View()), price, tick)
    {
      ReachableIsRestingAndOwing(desk, ZonesOf(levels), history);
      OneMoreTick(desk, FreshRun(ZonesOf(levels)), history, price, tick);
      StepAppends(desk, View(), price, tick);
      var eventStart := |ledger.events|;
      ghost var before := ledger.events;
      MoveTo(price, tick, recorder);
      history := history + [(price, tick)];
      events := ledger.events[eventStart..];
      SplitAt(before, ledger.events);
    }

    method RunPath(prices: seq<real>) returns (events: seq<LedgerEvent>)
      requires Valid()
      modifies this, levels, ledger
      ensures Valid() && View() == Replay(desk, old(View()), prices, 0) && events == ledger.events
    {
      var tick := 0;
      while tick < |prices|
        invariant 0 <= tick <= |prices| && Valid()
        invariant View() == Replay(desk, old(View()), prices[..tick], 0)
      {
        assert prices[..tick + 1][..tick] == prices[..tick];
        var appended := Step(prices[tick], tick, null);
        tick := tick + 1;
      }
      assert prices[..tick] == prices;
      return ledger.events;
    }

    /** One tick of an accounting run: its own price is sampled unless the last
        crossing of the same tick already sampled that price. */
    method AccountTick(price: real, tick: int, recorder: Recorder)
      requires Valid() && EarlierThan(recorder.samples, tick)
      modifies this, levels, ledger, recorder
      ensures Valid() && View() == HedgeModel.Step(desk, old(View()), price, tick)
      ensures recorder.samples == old(recorder.samples) + TickSamples(desk, old(View()), price, tick)
      ensures EarlierThan(recorder.samples, tick + 1)
    {
      OwnSampleOfTick(desk, View(), price, tick, recorder.samples);
      var appended := Step(price, tick, recorder);
      var own := SnapshotOf(desk.spread, ViewsOf(levels), ledger.View(), price, tick, NoEvent);
      recorder.samples := WithOwnSample(recorder.samples, own);
    }

    /** An accounting run needs a fresh engine and a path. Its result is what the
        model reports for that path. */
    method RunWithAccounting(prices: seq<real>) returns (r: AccountingOutcome)
      requires Valid()
      modifies this, levels, ledger
      ensures Valid()
      ensures r.Refused? <==> old(previousPrice) != NoQuote || |old(ledger.events)| > 0 || |prices| == 0
      ensures r.Refused? ==> View() == old(View())
      ensures r.Result? ==>
        && old(View()) == FreshRun(ZonesOf(levels))
        && r.result == Account(desk, ZonesOf(levels), prices)
        && View() == Replay(desk, FreshRun(ZonesOf(levels)), prices, 0)
    {
      if previousPrice != NoQuote || |ledger.events| > 0 {
        return Refused(EngineNotFresh);
      }
      if |prices| == 0 {
        return Refused(EmptyPath);
      }
      ghost var start := FreshRun(ZonesOf(levels));
      TickLeavesPrice(desk, start, history);
      var recorder := new Recorder();
      var tick := 0;
      while tick < |prices|
        invariant 0 <= tick <= |prices| && Valid() && fresh(recorder)
        invariant View() == Replay(desk, start, prices[..tick], 0)
        invariant recorder.samples == ReplaySamples(desk, start, prices[..tick], 0)
        invariant EarlierThan(recorder.samples, tick)
      {
        ReplayOneMore(desk, start, prices, tick);
        AccountTick(prices[tick], tick, recorder);
        tick := tick + 1;
      }
      assert prices[..tick] == prices;
      SamplesExist(desk, start, prices, 0);
      return Result(ResultOf(desk.spread, ViewsOf(levels), ledger.View(), prices, recorder.samples));
    }
  }

  lemma ReplayOneMore(d: Desk, start: Run, prices: seq<real>, k: nat)
    requires k < |prices|
    ensures Replay(d, start, prices[..k + 1], 0) == HedgeModel.Step(d, Replay(d, start, prices[..k], 0), prices[k], k)
    ensures ReplaySamples(d, start, prices[..k + 1], 0)
            == ReplaySamples(d, start, prices[..k], 0) + TickSamples(d, Replay(d, start, prices[..k], 0), prices[k], k)
  {
    assert prices[..k + 1][..k] == prices[..k];
  }

  lemma TickLeavesPrice(d: Desk, start: Run, history: seq<(real, int)>)
    ensures |history| > 0 ==> ReplayTicks(d, start, history).previous.At?
    ensures |history| == 0 ==> ReplayTicks(d, start, history) == start
  {
    if |history| > 0 {
      var last := |history| - 1;
      assert history == history[..last] + [(history[last].0, history[last].1)];
      OneMoreTick(d, start, history[..last], history[last].0, history[last].1);
    }
  }

  /** Every state a fresh engine can reach is at rest, and its claims are sound. */
  lemma ReachableIsRestingAndOwing(d: Desk, zones: seq<Zone>, history: seq<(real, int)>)
    requires Chained(zones)
    ensures RunRests(ReplayTicks(d, FreshRun(zones), history))
    ensures Owing(d, ReplayTicks(d, FreshRun(zones), history).state)
  {
    var step := (r: Run, x: (real, int), n: int) => HedgeModel.Step(d, r, x.0, x.1);
    var kept := (r: Run) => RunRests(r) && Owing(d, r.state);
    FreshOwing(d, zones);
    forall r, x, n | kept(r) ensures kept(step(r, x, n)) {
      StepRests(d, r, x.0, x.1);
      StepKeepsOwing(d, r, x.0, x.1);
    }
    FoldKeeps(step, FreshRun(zones), history, 0, kept);
  }

  lemma StepKeepsOwing(d: Desk, run: Run, price: real, tick: int)
    requires Owing(d, run.state) && RunRests(run)
    ensures Owing(d, HedgeModel.Step(d, run, price, tick).state)
  {
    if run.previous.At? && run.previous.price != price {
      var dir := Heading(run.previous.price, price);
      RestStands(run.state, dir, run.previous.price);
      SettleKeepsOwing(d, run.state, dir, run.previous.price, run.previous.price, price, tick);
      ArmKeepsOwing(d, Settle(d, run.state, dir, price, tick), price);
    } else {
      ArmKeepsOwing(d, run.state, price);
    }
  }

  lemma {:induction false} SettleKeepsOwing(d: Desk, s: State, dir: Direction, start: real, cursor: real, target: real,
                                            tick: int)
    requires Owing(d, s) && AllStand(s, dir, start, cursor)
    ensures Owing(d, Settle(d, s, dir, target, tick))
    decreases Potential(s, dir)
  {
    NextIsFirst(s.levels, dir, target);
    if Next(s.levels, dir, target).First? {
      var i := Next(s.levels, dir, target).index;
      ExecuteUsesPotential(d, s, i, dir, target, tick);
      FireMovesCursor(d, s, i, dir, start, cursor, target, tick);
      FireKeepsOwing(d, s, i, dir, start, cursor, target, tick);
      SettleKeepsOwing(d, Fire(d, s, i, dir, tick), dir, start, TriggerOf(s.levels[i], dir).price, target, tick);
    }
  }

  /** The ledger is append-only. */
  lemma StepAppends(d: Desk, run: Run, price: real, tick: int)
    ensures run.state.book.events <= HedgeModel.Step(d, run, price, tick).state.book.events
  {
    if run.previous.At? && run.previous.price != price {
      SettleAppends(d, run.state, Heading(run.previous.price, price), price, tick);
    }
  }

  lemma {:induction false} SettleAppends(d: Desk, s: State, dir: Direction, target: real, tick: int)
    ensures s.book.events <= Settle(d, s, dir, target, tick).book.events
    decreases Potential(s, dir)
  {
    if Next(s.levels, dir, target).First? {
      var i := Next(s.levels, dir, target).index;
      ExecuteUsesPotential(d, s, i, dir, target, tick);
      FireAppends(d, s, i, dir, tick);
      SettleAppends(d, Fire(d, s, i, dir, tick), dir, target, tick);
    }
  }
}
