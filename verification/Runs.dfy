/** Whole runs: every invariant holds at every crossing and every tick of every
    path, and what follows for the reported results. */
module Runs {
  import opened VirtualLevels
  import opened Sums
  import opened Folds
  import opened HedgeModel
  import opened Positions
  import opened Claims
  import opened StopBudget
  import opened Accounting

  /** What holds in every reachable state, for every start price and stop rate. */
  ghost predicate Sound(d: Desk, s: State) {
    && Gridded(d, s)
    && Owing(d, s)
    && Conserved(s) && Counted(s)
    && NoneLockedUnderFloor(d, s)
  }

  ghost predicate NoneLockedUnderFloor(d: Desk, s: State) {
    d.policy.BreakevenFloor? ==> forall i | 0 <= i < |s.levels| :: s.levels[i].state != Locked
  }

  /** Levels entering above the first price are the only ones that can still wait. */
  ghost predicate StartedAt(s: State, first: real) {
    forall i | 0 <= i < |s.levels| && Waiting(s.levels[i]) :: first < s.levels[i].zone.entry
  }

  /** A state of a run from the given first price; `funded` when the run started
      where the stop budget is kept. */
  ghost predicate SoundFrom(d: Desk, s: State, first: real, funded: bool) {
    Sound(d, s) && StartedAt(s, first) && (funded ==> Funded(d, s))
  }

  /** Levels that enter above the first price stay apart from the levels below them. */
  ghost predicate Clear(d: Desk, zones: seq<Zone>, first: real) {
    forall i, j | 0 <= i < j < |zones| && first < zones[i].entry :: Apart(d, zones[i], zones[j])
  }

  /** Every stop lies at or below the next higher entry. */
  ghost predicate Separated(zones: seq<Zone>) {
    forall i, j | 0 <= i < j < |zones| && j == i + 1 :: zones[j].stop <= zones[i].entry
  }

  lemma SeparatedIsClear(d: Desk, zones: seq<Zone>, first: real)
    requires Tiles(d.spread, d.rate, zones) && Separated(zones)
    ensures Clear(d, zones, first)
  {
    forall i, j | 0 <= i < j < |zones| ensures zones[j].stop <= zones[i].entry {
      var k := i + 1;
      if k < j { StopsDescend(d.spread, d.rate, zones, k, j); }
    }
  }

  lemma StartAboveIsClear(d: Desk, zones: seq<Zone>, first: real)
    requires Tiles(d.spread, d.rate, zones) && first >= d.spread.shortStrike
    ensures Clear(d, zones, first)
  {
    forall i | 0 <= i < |zones| ensures zones[i].entry <= first {
      ZoneWithinStrikes(d.spread, d.rate, zones, i);
    }
  }

  /** One state comes later than the other in a run. */
  ghost predicate Follows(s: State, r: State) {
    && |s.levels| == |r.levels|
    && forall i | 0 <= i < |s.levels| ::
         && r.levels[i].zone == s.levels[i].zone
         && (Closed(s.levels[i]) ==> r.levels[i].state == s.levels[i].state)
         && (Waiting(r.levels[i]) ==> Waiting(s.levels[i]))
  }

  lemma FireFollows(d: Desk, s: State, i: nat, dir: Direction, tick: int)
    requires i < |s.levels| && TriggerOf(s.levels[i], dir).Trigger?
    ensures Follows(s, Fire(d, s, i, dir, tick))
  {}

  lemma ArmFollows(s: State, price: real)
    ensures Follows(s, Arm(s, price))
  {}

  lemma FollowsChains(a: State, b: State, c: State)
    requires Follows(a, b) && Follows(b, c)
    ensures Follows(a, c)
  {
    forall i | 0 <= i < |a.levels|
      ensures c.levels[i].zone == a.levels[i].zone
      ensures Closed(a.levels[i]) ==> c.levels[i].state == a.levels[i].state
      ensures Waiting(c.levels[i]) ==> Waiting(a.levels[i])
    {
      assert b.levels[i].zone == a.levels[i].zone;
    }
  }

  lemma FireKeepsNoneLocked(d: Desk, s: State, i: nat, dir: Direction, tick: int)
    requires NoneLockedUnderFloor(d, s) && i < |s.levels| && TriggerOf(s.levels[i], dir).Trigger?
    ensures NoneLockedUnderFloor(d, Fire(d, s, i, dir, tick))
  {}

  lemma StartedLater(s: State, r: State, first: real)
    requires StartedAt(s, first) && Follows(s, r)
    ensures StartedAt(r, first)
  {}

  lemma FollowsKeepsZones(s: State, r: State)
    requires Follows(s, r)
    ensures ZonesIn(r.levels) == ZonesIn(s.levels)
  {}

  lemma FireKeepsSound(d: Desk, s: State, i: nat, dir: Direction, start: real, cursor: real, target: real, tick: int,
                       first: real, funded: bool)
    requires SoundFrom(d, s, first, funded) && AllStand(s, dir, start, cursor) && IsNext(s.levels, dir, target, i)
    ensures SoundFrom(d, Fire(d, s, i, dir, tick), first, funded)
  {
    var r := Fire(d, s, i, dir, tick);
    assert Follows(s, r) by { FireFollows(d, s, i, dir, tick); }
    assert ZonesIn(r.levels) == ZonesIn(s.levels) by { FollowsKeepsZones(s, r); }
    assert StartedAt(r, first) by { StartedLater(s, r, first); }
    assert Owing(d, r) by { FireKeepsOwing(d, s, i, dir, start, cursor, target, tick); }
    assert Conserved(r) && Counted(r) by { FireKeepsBooks(d, s, i, dir, tick); }
    assert NoneLockedUnderFloor(d, r) by { FireKeepsNoneLocked(d, s, i, dir, tick); }
    if funded {
      FireKeepsFunded(d, s, i, dir, start, cursor, target, tick);
    }
  }

  lemma ArmKeepsSound(d: Desk, s: State, price: real, first: real, funded: bool)
    requires SoundFrom(d, s, first, funded)
    ensures SoundFrom(d, Arm(s, price), first, funded)
  {
    var r := Arm(s, price);
    assert Follows(s, r) by { ArmFollows(s, price); }
    assert ZonesIn(r.levels) == ZonesIn(s.levels) by { FollowsKeepsZones(s, r); }
    assert StartedAt(r, first) by { StartedLater(s, r, first); }
    assert Owing(d, r) by { ArmKeepsOwing(d, s, price); }
    assert Conserved(r) && Counted(r) by { ArmKeepsBooks(s, price); }
    if funded {
      ArmKeepsFunded(d, s, price);
    }
  }

  lemma {:induction false} SettleKeepsSound(d: Desk, s: State, dir: Direction, start: real, cursor: real, target: real,
                                            tick: int, first: real, funded: bool)
    requires SoundFrom(d, s, first, funded) && AllStand(s, dir, start, cursor) && Reached(dir, cursor, target)
    ensures SoundFrom(d, Settle(d, s, dir, target, tick), first, funded)
    ensures Follows(s, Settle(d, s, dir, target, tick))
    decreases Potential(s, dir)
  {
    NextIsFirst(s.levels, dir, target);
    if Next(s.levels, dir, target).First? {
      var i := Next(s.levels, dir, target).index;
      var r := Fire(d, s, i, dir, tick);
      ExecuteUsesPotential(d, s, i, dir, target, tick);
      FireMovesCursor(d, s, i, dir, start, cursor, target, tick);
      FireKeepsSound(d, s, i, dir, start, cursor, target, tick, first, funded);
      FireFollows(d, s, i, dir, tick);
      SettleKeepsSound(d, r, dir, start, TriggerOf(s.levels[i], dir).price, target, tick, first, funded);
      FollowsChains(s, r, Settle(d, r, dir, target, tick));
    }
  }

  // ----- ticks and paths

  /** The state of a run that has seen its first price. */
  ghost predicate RunSound(d: Desk, run: Run, first: real, funded: bool) {
    run.previous.At? && AllRest(run.state, run.previous.price) && SoundFrom(d, run.state, first, funded)
  }

  lemma FreshFunded(d: Desk, zones: seq<Zone>, first: real)
    requires Tiles(d.spread, d.rate, zones) && Clear(d, zones, first)
    ensures Funded(d, Arm(FreshState(zones), first))
  {
    var s := Arm(FreshState(zones), first);
    SumZero(Reserve, s.levels);
    assert ZonesIn(s.levels) == zones;
    forall i, j | 0 <= i < j < |s.levels| && Waiting(s.levels[i]) ensures Apart(d, s.levels[i].zone, s.levels[j].zone) {
      assert first < zones[i].entry;
    }
  }

  lemma FirstTick(d: Desk, zones: seq<Zone>, first: real, tick: int, funded: bool)
    requires Tiles(d.spread, d.rate, zones) && (funded ==> Clear(d, zones, first))
    ensures RunSound(d, Step(d, FreshRun(zones), first, tick), first, funded)
  {
    var blank := FreshState(zones);
    var s := Arm(blank, first);
    assert ZonesIn(s.levels) == zones;
    assert Owing(d, s) by {
      FreshOwing(d, zones);
      ArmKeepsOwing(d, blank, first);
    }
    assert Conserved(s) && Counted(s) by {
      FreshBooks(zones);
      ArmKeepsBooks(blank, first);
    }
    assert AllRest(s, first) by { ArmRests(blank, first); }
    assert StartedAt(s, first);
    if funded { FreshFunded(d, zones, first); }
  }

  lemma StepKeepsSound(d: Desk, run: Run, price: real, tick: int, first: real, funded: bool)
    requires RunSound(d, run, first, funded)
    ensures RunSound(d, Step(d, run, price, tick), first, funded)
    ensures Follows(run.state, Step(d, run, price, tick).state)
  {
    var previous, s := run.previous.price, run.state;
    StepRests(d, run, price, tick);
    var moved := Travel(d, s, previous, price, tick);
    if price != previous {
      RestStands(s, Heading(previous, price), previous);
      SettleKeepsSound(d, s, Heading(previous, price), previous, previous, price, tick, first, funded);
    }
    ArmKeepsSound(d, moved, price, first, funded);
    ArmFollows(moved, price);
    FollowsChains(s, moved, Arm(moved, price));
  }

  /** Every state a sound run passes is sound. */
  lemma ReplayKeepsSound(d: Desk, run: Run, prices: seq<real>, tick: int, first: real, funded: bool)
    requires RunSound(d, run, first, funded)
    ensures RunSound(d, Replay(d, run, prices, tick), first, funded)
  {
    ghost var kept := (r: Run) => RunSound(d, r, first, funded);
    forall r, price, t | kept(r) ensures kept(Ticks(d)(r, price, t)) {
      StepKeepsSound(d, r, price, t, first, funded);
    }
    FoldKeeps(Ticks(d), run, prices, tick, kept);
  }

  /** A fresh engine is sound at the end of every path. */
  lemma RunEndsSound(d: Desk, zones: seq<Zone>, prices: seq<real>, funded: bool)
    requires Tiles(d.spread, d.rate, zones) && |prices| > 0 && (funded ==> Clear(d, zones, prices[0]))
    ensures RunSound(d, Replay(d, FreshRun(zones), prices, 0), prices[0], funded)
  {
    var start := Step(d, FreshRun(zones), prices[0], 0);
    FirstTick(d, zones, prices[0], 0, funded);
    ReplayKeepsSound(d, start, prices[1..], 1, prices[0], funded);
    ReplayFromSecond(d, FreshRun(zones), prices, 0);
  }

  lemma ReplayFromSecond(d: Desk, run: Run, prices: seq<real>, tick: int)
    requires |prices| > 0
    ensures Replay(d, run, prices, tick) == Replay(d, Step(d, run, prices[0], tick), prices[1..], tick + 1)
  {
    assert prices == [prices[0]] + prices[1..];
    FoldConcat(Ticks(d), run, [prices[0]], prices[1..], tick);
    assert Fold(Ticks(d), run, [prices[0]][..0], tick) == run;
  }

  // ----- invariants of whole runs

  /** Level i can fire from here in some run with the given first price. */
  ghost predicate CanFire(d: Desk, s: State, i: nat, dir: Direction, first: real, funded: bool) {
    && SoundFrom(d, s, first, funded)
    && exists start, cursor, target :: AllStand(s, dir, start, cursor) && IsNext(s.levels, dir, target, i)
  }

  lemma CanFireIsTriggered(d: Desk, s: State, i: nat, dir: Direction, first: real, funded: bool)
    requires CanFire(d, s, i, dir, first, funded)
    ensures i < |s.levels| && TriggerOf(s.levels[i], dir).Trigger? && Owing(d, s) && Gridded(d, s)
  {}

  lemma {:induction false} SettleInvariant(d: Desk, s: State, dir: Direction, start: real, cursor: real, target: real,
                                           tick: int,
                                           first: real, funded: bool, kept: State -> bool)
    requires SoundFrom(d, s, first, funded) && AllStand(s, dir, start, cursor) && kept(s)
    requires forall r, i, k, t | kept(r) && CanFire(d, r, i, k, first, funded) :: kept(Fire(d, r, i, k, t))
    ensures kept(Settle(d, s, dir, target, tick))
    decreases Potential(s, dir)
  {
    NextIsFirst(s.levels, dir, target);
    if Next(s.levels, dir, target).First? {
      var i := Next(s.levels, dir, target).index;
      assert CanFire(d, s, i, dir, first, funded);
      ExecuteUsesPotential(d, s, i, dir, target, tick);
      FireMovesCursor(d, s, i, dir, start, cursor, target, tick);
      FireKeepsSound(d, s, i, dir, start, cursor, target, tick, first, funded);
      SettleInvariant(d, Fire(d, s, i, dir, tick), dir, start, TriggerOf(s.levels[i], dir).price, target, tick, first,
                      funded, kept);
    }
  }

  lemma StepInvariant(d: Desk, run: Run, price: real, tick: int, first: real, funded: bool, kept: State -> bool)
    requires RunSound(d, run, first, funded) && kept(run.state)
    requires forall r, p | kept(r) :: kept(Arm(r, p))
    requires forall r, i, k, t | kept(r) && CanFire(d, r, i, k, first, funded) :: kept(Fire(d, r, i, k, t))
    ensures kept(Step(d, run, price, tick).state)
  {
    var previous, s := run.previous.price, run.state;
    if price != previous {
      RestStands(s, Heading(previous, price), previous);
      SettleInvariant(d, s, Heading(previous, price), previous, previous, price, tick, first, funded, kept);
    }
  }

  /** A property of the fresh engine that arming keeps, and every crossing that can
      happen keeps, holds at the end of every path. */
  lemma RunInvariant(d: Desk, zones: seq<Zone>, prices: seq<real>, funded: bool, kept: State -> bool)
    requires Tiles(d.spread, d.rate, zones) && |prices| > 0 && (funded ==> Clear(d, zones, prices[0]))
    requires kept(FreshState(zones))
    requires forall r, p | kept(r) :: kept(Arm(r, p))
    requires forall r, i, k, t | kept(r) && CanFire(d, r, i, k, prices[0], funded) :: kept(Fire(d, r, i, k, t))
    ensures kept(Replay(d, FreshRun(zones), prices, 0).state)
    ensures RunSound(d, Replay(d, FreshRun(zones), prices, 0), prices[0], funded)
  {
    var first := prices[0];
    var start := Step(d, FreshRun(zones), first, 0);
    FirstTick(d, zones, first, 0, funded);
    assert kept(start.state);
    RunOnInvariant(d, start, prices[1..], 1, first, funded, kept);
    ReplayFromSecond(d, FreshRun(zones), prices, 0);
  }

  /** The same for a run that goes on from any sound state. */
  lemma RunOnInvariant(d: Desk, run: Run, prices: seq<real>, tick: int, first: real, funded: bool, kept: State -> bool)
    requires RunSound(d, run, first, funded) && kept(run.state)
    requires forall r, p | kept(r) :: kept(Arm(r, p))
    requires forall r, i, k, t | kept(r) && CanFire(d, r, i, k, first, funded) :: kept(Fire(d, r, i, k, t))
    ensures kept(Replay(d, run, prices, tick).state)
    ensures RunSound(d, Replay(d, run, prices, tick), first, funded)
  {
    ghost var both := (r: Run) => RunSound(d, r, first, funded) && kept(r.state);
    forall r, price, t | both(r) ensures both(Ticks(d)(r, price, t)) {
      StepKeepsSound(d, r, price, t, first, funded);
      StepInvariant(d, r, price, t, first, funded, kept);
    }
    FoldKeeps(Ticks(d), run, prices, tick, both);
  }
}
