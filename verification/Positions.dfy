/** Where every level stands relative to the price: at rest between ticks, and at
    the cursor in the middle of a segment. No assumption on the grid is needed. */
module Positions {
  import opened VirtualLevels
  import opened HedgeModel
  import opened Segments
  import opened Folds

  /** Ready but never at or above its entry at the end of a tick. */
  predicate Waiting(level: Level) {
    level.state == Ready && !level.armed
  }

  predicate Closed(level: Level) {
    level.state == Paid || level.state == Locked
  }

  /** Only a ready level is armed, and only an active one holds a floor hedge. */
  predicate Tidy(level: Level) {
    && (level.armed ==> level.state == Ready)
    && (level.isFloor ==> level.state == Active)
    && (level.state != Active ==> level.quantity == 0.0)
  }

  /** At rest at a price: a ready level is armed exactly at or above its entry,
      and an active one lies strictly inside its exits. */
  predicate RestsAt(level: Level, price: real) {
    && Tidy(level)
    && match level.state
       case Ready => level.armed <==> price >= level.zone.entry
       case Active => level.zone.tp < price
                      && if level.isFloor then price <= level.zone.entry else price < level.zone.stop
       case Paid => true
       case Locked => true
  }

  /** In a segment that began at `start` and has reached `cursor`. */
  predicate Standing(level: Level, dir: Direction, start: real, cursor: real) {
    && Tidy(level)
    && match level.state
       case Ready => if level.armed then level.zone.entry <= cursor else start < level.zone.entry
       case Active =>
         && level.zone.tp <= cursor && level.zone.tp < start
         && (if level.isFloor
             then cursor <= level.zone.entry && (dir == Up ==> start <= level.zone.entry)
             else cursor <= level.zone.stop && (if dir == Up then start else cursor) < level.zone.stop)
       case Paid => true
       case Locked => true
  }

  predicate AllRest(s: State, price: real) {
    forall i | 0 <= i < |s.levels| :: RestsAt(s.levels[i], price)
  }

  ghost predicate AllStand(s: State, dir: Direction, start: real, cursor: real) {
    && Reached(dir, start, cursor)
    && forall i | 0 <= i < |s.levels| :: Standing(s.levels[i], dir, start, cursor)
  }

  lemma RestStands(s: State, dir: Direction, price: real)
    requires AllRest(s, price)
    ensures AllStand(s, dir, price, price)
  {}

  /** The next trigger lies ahead of the cursor, and firing it moves the cursor there. */
  lemma FireMovesCursor(d: Desk, s: State, i: nat, dir: Direction, start: real, cursor: real, target: real, tick: int)
    requires AllStand(s, dir, start, cursor) && IsNext(s.levels, dir, target, i)
    ensures Reached(dir, cursor, TriggerOf(s.levels[i], dir).price)
    ensures AllStand(Fire(d, s, i, dir, tick), dir, start, TriggerOf(s.levels[i], dir).price)
  {
    var r, price := Fire(d, s, i, dir, tick), TriggerOf(s.levels[i], dir).price;
    FiredStands(d, s, i, dir, start, cursor, target, tick);
    forall j | 0 <= j < |s.levels| ensures Standing(r.levels[j], dir, start, price) {
      if j != i {
        OthersStand(s, i, dir, start, cursor, target, j);
        assert SameStanding(r.levels[j], s.levels[j]);
      }
    }
  }

  /** The other levels stand at the price of the next trigger before it fires. */
  lemma OthersStand(s: State, i: nat, dir: Direction, start: real, cursor: real, target: real, j: nat)
    requires AllStand(s, dir, start, cursor) && IsNext(s.levels, dir, target, i) && j < |s.levels| && j != i
    ensures Standing(s.levels[j], dir, start, TriggerOf(s.levels[i], dir).price)
  {
    assert Pending(s.levels[j], dir, target)
           ==> Reached(dir, TriggerOf(s.levels[i], dir).price, TriggerOf(s.levels[j], dir).price);
  }

  lemma FiredStands(d: Desk, s: State, i: nat, dir: Direction, start: real, cursor: real, target: real, tick: int)
    requires AllStand(s, dir, start, cursor) && IsNext(s.levels, dir, target, i)
    ensures Reached(dir, cursor, TriggerOf(s.levels[i], dir).price)
    ensures Standing(Fire(d, s, i, dir, tick).levels[i], dir, start, TriggerOf(s.levels[i], dir).price)
  {}

  /** Levels that differ only in their recovery figures stand alike. */
  predicate SameStanding(a: Level, b: Level) {
    a.zone == b.zone && a.state == b.state && a.isFloor == b.isFloor && a.armed == b.armed && a.quantity == b.quantity
  }

  /** Whatever happens in a segment, it ends at rest at its last price; on a fall
      the final arming finds nothing left to arm. */
  lemma {:induction false} SettleComesToRest(d: Desk, s: State, dir: Direction, start: real, cursor: real, target: real,
                                             tick: int)
    requires AllStand(s, dir, start, cursor) && Reached(dir, cursor, target)
    ensures var r := Settle(d, s, dir, target, tick);
            && AllRest(Arm(r, target), target)
            && (dir == Down ==> Arm(r, target) == r)
    decreases Potential(s, dir)
  {
    NextIsFirst(s.levels, dir, target);
    match Next(s.levels, dir, target)
    case Nobody =>
      var r := Settle(d, s, dir, target, tick);
      forall i | 0 <= i < |s.levels|
        ensures RestsAt(ArmedAt(s.levels[i], target), target)
        ensures dir == Down ==> ArmedAt(s.levels[i], target) == s.levels[i]
      {
        assert !Pending(s.levels[i], dir, target) && Standing(s.levels[i], dir, start, cursor);
      }
      assert dir == Down ==> Arm(r, target).levels == r.levels;
    case First(i) =>
      ExecuteUsesPotential(d, s, i, dir, target, tick);
      FireMovesCursor(d, s, i, dir, start, cursor, target, tick);
      SettleComesToRest(d, Fire(d, s, i, dir, tick), dir, start, TriggerOf(s.levels[i], dir).price, target, tick);
  }

  lemma ArmRests(s: State, price: real)
    requires forall i | 0 <= i < |s.levels| :: Tidy(s.levels[i]) && Waiting(s.levels[i])
    ensures AllRest(Arm(s, price), price)
  {}

  lemma ArmIdle(s: State, price: real)
    requires AllRest(s, price)
    ensures Arm(s, price) == s
  {
    assert Arm(s, price).levels == s.levels;
  }

  predicate RunRests(run: Run) {
    match run.previous
    case NoQuote => forall i | 0 <= i < |run.state.levels| :: Tidy(run.state.levels[i]) && Waiting(run.state.levels[i])
    case At(price) => AllRest(run.state, price)
  }

  lemma StepRests(d: Desk, run: Run, price: real, tick: int)
    requires RunRests(run)
    ensures RunRests(Step(d, run, price, tick))
  {
    match run.previous
    case NoQuote => ArmRests(run.state, price);
    case At(previous) =>
      if price == previous {
        ArmIdle(run.state, price);
      } else {
        RestStands(run.state, Heading(previous, price), previous);
        SettleComesToRest(d, run.state, Heading(previous, price), previous, previous, price, tick);
      }
  }

  lemma ReplayRests(d: Desk, run: Run, prices: seq<real>, tick: int)
    requires RunRests(run)
    ensures RunRests(Replay(d, run, prices, tick))
  {
    forall r, price, t | RunRests(r) ensures RunRests(Ticks(d)(r, price, t)) {
      StepRests(d, r, price, t);
    }
    FoldKeeps(Ticks(d), run, prices, tick, (r: Run) => RunRests(r));
  }

  // ----- cutting a segment

  function UntimedRun(run: Run): Run {
    run.(state := Untimed(run.state))
  }

  /** `middle` lies between the two prices, ends included. */
  predicate Between(low: real, middle: real, high: real) {
    low <= middle <= high || high <= middle <= low
  }

  lemma UntimedStep(d: Desk, run: Run, price: real, tick: int)
    ensures UntimedRun(Step(d, run, price, tick)) == Step(d, UntimedRun(run), price, 0)
  {
    match run.previous
    case NoQuote => UntimedArm(run.state, price);
    case At(previous) =>
      UntimedArm(Travel(d, run.state, previous, price, tick), price);
      if price != previous {
        UntimedSettle(d, run.state, Heading(previous, price), price, tick);
      }
  }

  lemma StepSplitsUntimed(d: Desk, run: Run, middle: real, price: real)
    requires run.previous.At? && RunRests(run) && Between(run.previous.price, middle, price)
    ensures Step(d, Step(d, run, middle, 0), price, 0) == Step(d, run, price, 0)
  {
    var previous, s := run.previous.price, run.state;
    ArmIdle(s, previous);
    if middle == previous {
    } else if middle == price {
      StepRests(d, run, price, 0);
      ArmIdle(Step(d, run, price, 0).state, price);
    } else {
      var dir := Heading(previous, price);
      SettleSplits(d, s, dir, middle, price, 0);
      var half := Settle(d, s, dir, middle, 0);
      if dir == Down {
        RestStands(s, dir, previous);
        SettleComesToRest(d, s, dir, previous, previous, middle, 0);
      } else {
        RiseCommutesWithArming(d, half, middle, price, 0);
        ArmTwice(Settle(d, half, Up, price, 0), middle, price);
      }
    }
  }

  /** Going to a price in two ticks leaves the same levels, totals and ledger,
      tick numbers aside, as going there in one. */
  lemma StepSplits(d: Desk, run: Run, middle: real, price: real, tick1: int, tick2: int, tick: int)
    requires run.previous.At? && RunRests(run) && Between(run.previous.price, middle, price)
    ensures UntimedRun(Step(d, Step(d, run, middle, tick1), price, tick2)) == UntimedRun(Step(d, run, price, tick))
  {
    UntimedStep(d, run, middle, tick1);
    UntimedStep(d, Step(d, run, middle, tick1), price, tick2);
    UntimedStep(d, run, price, tick);
    StepSplitsUntimed(d, UntimedRun(run), middle, price);
  }
}
