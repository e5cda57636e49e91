/** When can two hedges be open at once? From a given first price exactly when some
    level that enters above it is not apart from a level below; and then the stop
    budget can be overspent although each hedge alone was within it. */
module Overlap {
  import opened CreditSpreads
  import opened Products
  import opened VirtualLevels
  import opened HedgeModel
  import opened Segments
  import opened Positions
  import opened Claims
  import opened StopBudget
  import opened Runs
  import opened PathRefinement

  ghost predicate TwoOpen(s: State) {
    exists i, j | 0 <= i < j < |s.levels| :: s.levels[i].state == Active && s.levels[j].state == Active
  }

  /** No path with this first price ever opens two hedges at once. */
  ghost predicate OneAtATimeFrom(d: Desk, zones: seq<Zone>, first: real) {
    forall prices: seq<real> | |prices| > 0 && prices[0] == first :: !TwoOpen(After(d, zones, prices).state)
  }

  ghost predicate AllApart(d: Desk, zones: seq<Zone>) {
    forall i, j | 0 <= i < j < |zones| :: Apart(d, zones[i], zones[j])
  }

  lemma ClearMeansOneAtATime(d: Desk, zones: seq<Zone>, first: real)
    requires Tiles(d.spread, d.rate, zones) && Clear(d, zones, first)
    ensures OneAtATimeFrom(d, zones, first)
  {
    forall prices: seq<real> | |prices| > 0 && prices[0] == first
      ensures !TwoOpen(After(d, zones, prices).state)
    {
      RunEndsSound(d, zones, prices, true);
    }
  }

  // ----- the converse, by running the engine model on five prices

  lemma SettleNothing(d: Desk, s: State, dir: Direction, target: real, tick: int)
    requires forall k | 0 <= k < |s.levels| :: !Pending(s.levels[k], dir, target)
    ensures Settle(d, s, dir, target, tick) == s
  {}

  lemma SettleOnly(d: Desk, s: State, i: nat, dir: Direction, target: real, tick: int)
    requires i < |s.levels| && Pending(s.levels[i], dir, target)
    requires forall k | 0 <= k < |s.levels| && k != i :: !Pending(s.levels[k], dir, target)
    requires forall k | 0 <= k < |s.levels| :: !Pending(Fire(d, s, i, dir, tick).levels[k], dir, target)
    ensures Settle(d, s, dir, target, tick) == Fire(d, s, i, dir, tick)
  {
    NextIsUnique(s.levels, dir, target, i);
    ExecuteUsesPotential(d, s, i, dir, target, tick);
    SettleNothing(d, Fire(d, s, i, dir, tick), dir, target, tick);
  }

  /** Nobody owes anything and no stop has happened. */
  ghost predicate Calm(zones: seq<Zone>, s: State) {
    && |s.levels| == |zones| && s.book.grossStops == 0.0
    && forall m | 0 <= m < |zones| :: s.levels[m].zone == zones[m] && s.levels[m].debt == 0.0
  }

  /** Levels above w wait, those from w to a have been met and are closed, and those
      from a on are armed. */
  ghost predicate Descended(zones: seq<Zone>, s: State, w: nat, a: nat) {
    && Calm(zones, s) && w <= a
    && (forall m | 0 <= m < |zones| && m < w :: Waiting(s.levels[m]))
    && (forall m | 0 <= m < |zones| && w <= m < a :: Closed(s.levels[m]))
    && (forall m | 0 <= m < |zones| && a <= m :: s.levels[m].state == Ready && s.levels[m].armed)
  }

  lemma NoDebtNoClaim(d: Desk, levels: seq<Level>, i: nat, from: nat)
    requires i < |levels| && forall m | 0 <= m < |levels| :: levels[m].debt == 0.0
    ensures OldestClaim(levels, i, from) == NoClaim
    decreases i + 1 - from
  {
    if from <= i { NoDebtNoClaim(d, levels, i, from + 1); }
  }

  /** The first hedge of a level without debt is as large as the option position. */
  lemma FirstHedge(d: Desk, zones: seq<Zone>, s: State, i: nat)
    requires Tiles(d.spread, d.rate, zones) && i < |zones| && Calm(zones, s)
    ensures ClaimFor(d, s.levels, i) == NoClaim
    ensures EntryQuantity(zones[i], NoClaim) == d.spread.quantity
  {
    NoDebtNoClaim(d, s.levels, i, 0);
    EntryQuantityPositive(zones[i], NoClaim);
    SameFactor(EntryQuantity(zones[i], NoClaim), d.spread.quantity, zones[i].TpDistance());
  }

  /** A price just below the entry of a level, above everything the levels below wait for. */
  function JustBelow(zone: Zone): real {
    (zone.tp + zone.entry) / 2.0
  }

  lemma JustBelowSeparates(zones: seq<Zone>, i: nat, k: nat)
    requires Chained(zones) && i < |zones| && k < |zones|
    ensures zones[i].tp < JustBelow(zones[i]) < zones[i].entry
    ensures k < i ==> zones[k].tp >= zones[i].entry
    ensures k > i ==> zones[k].entry < JustBelow(zones[i])
  {
    if k < i { ZonesDescend(zones, k, i); }
    if i < k { ZonesDescend(zones, i, k); }
  }

  predicate Affordable(d: Desk, zone: Zone) {
    Times(d.spread.quantity, zone.StopDistance()) <= d.spread.premium
  }

  /** What a first entry leaves: a hedge of the option's size, fixed if it is
      affordable, and nothing else changed. */
  ghost predicate Opens(d: Desk, zones: seq<Zone>, s: State, r: State, i: nat) {
    && i < |zones| && Calm(zones, r) && |s.levels| == |zones|
    && r.levels[i].state == Active && r.levels[i].quantity == d.spread.quantity && r.levels[i].claim == NoClaim
    && (r.levels[i].isFloor <==> !Affordable(d, zones[i]))
    && forall m | 0 <= m < |zones| && m != i :: r.levels[m] == s.levels[m]
  }

  lemma EntryOpens(d: Desk, zones: seq<Zone>, s: State, i: nat, tick: int)
    requires Tiles(d.spread, d.rate, zones) && i < |zones| && Calm(zones, s)
    requires d.policy == Unhedged ==> Affordable(d, zones[i])
    ensures Opens(d, zones, s, Open(d, s, i, tick), i)
  {
    FirstHedge(d, zones, s, i);
  }

  /** Dropping just below its entry opens level i and nothing else. */
  lemma DropOpens(d: Desk, zones: seq<Zone>, s: State, i: nat, tick: int)
    requires Tiles(d.spread, d.rate, zones) && i < |zones| && Calm(zones, s)
    requires s.levels[i].state == Ready && s.levels[i].armed
    requires forall m | 0 <= m < i :: Waiting(s.levels[m]) || Closed(s.levels[m])
    requires d.policy == Unhedged ==> Affordable(d, zones[i])
    ensures Opens(d, zones, s, Settle(d, s, Down, JustBelow(zones[i]), tick), i)
  {
    var target := JustBelow(zones[i]);
    EntryOpens(d, zones, s, i, tick);
    forall m | 0 <= m < |zones|
      ensures m == i ==> Pending(s.levels[m], Down, target)
      ensures m != i ==> !Pending(s.levels[m], Down, target)
      ensures !Pending(Fire(d, s, i, Down, tick).levels[m], Down, target)
    {
      JustBelowSeparates(zones, i, m);
    }
    SettleOnly(d, s, i, Down, target, tick);
  }

  /** The first armed level is met first, and its take-profit comes before the
      entry of the level below although the prices are the same. */
  lemma FirstArmedIsNext(d: Desk, zones: seq<Zone>, s: State, w: nat, a: nat, target: real)
    requires Chained(zones) && a < |zones| && Descended(zones, s, w, a) && target <= zones[a].tp
    ensures IsNext(s.levels, Down, target, a)
  {
    forall m | 0 <= m < |zones| && m != a && Pending(s.levels[m], Down, target)
      ensures Sooner(Down, TriggerOf(s.levels[a], Down), TriggerOf(s.levels[m], Down))
    {
      ZonesDescend(zones, a, m);
    }
  }

  lemma OpenIsNext(d: Desk, zones: seq<Zone>, s: State, r: State, w: nat, a: nat, target: real)
    requires Chained(zones) && a < |zones| && Descended(zones, s, w, a) && target <= zones[a].tp
    requires Calm(zones, r) && r.levels[a].state == Active
    requires forall m | 0 <= m < |zones| && m != a :: r.levels[m] == s.levels[m]
    ensures IsNext(r.levels, Down, target, a)
  {
    forall m | 0 <= m < |zones| && m != a && Pending(r.levels[m], Down, target)
      ensures Sooner(Down, TriggerOf(r.levels[a], Down), TriggerOf(r.levels[m], Down))
    {
      ZonesDescend(zones, a, m);
    }
  }

  /** Meeting its entry opens or locks the first armed level. */
  lemma MeetsEntry(d: Desk, zones: seq<Zone>, s: State, w: nat, a: nat, tick: int)
    requires Tiles(d.spread, d.rate, zones) && a < |zones| && Descended(zones, s, w, a)
    ensures var r := Open(d, s, a, tick);
            && Calm(zones, r) && (forall m | 0 <= m < |zones| && m != a :: r.levels[m] == s.levels[m])
            && if r.levels[a].state == Active then r.levels[a].claim == NoClaim else Descended(zones, r, w, a + 1)
  {
    FirstHedge(d, zones, s, a);
  }

  /** Meeting its take-profit closes it. */
  lemma MeetsTp(d: Desk, zones: seq<Zone>, s: State, r: State, w: nat, a: nat, tick: int)
    requires a < |zones| && Descended(zones, s, w, a) && Calm(zones, r)
    requires r.levels[a].state == Active && r.levels[a].claim == NoClaim
    requires forall m | 0 <= m < |zones| && m != a :: r.levels[m] == s.levels[m]
    ensures Descended(zones, TakeProfit(d, r, a, tick), w, a + 1)
  {}

  /** Falling through the whole zone of the first armed level closes it. */
  lemma PassOne(d: Desk, zones: seq<Zone>, s: State, w: nat, a: nat, target: real, tick: int) returns (r: State)
    requires Tiles(d.spread, d.rate, zones) && a < |zones| && Descended(zones, s, w, a) && target <= zones[a].tp
    ensures Descended(zones, r, w, a + 1) && Settle(d, s, Down, target, tick) == Settle(d, r, Down, target, tick)
  {
    FirstArmedIsNext(d, zones, s, w, a, target);
    NextIsUnique(s.levels, Down, target, a);
    ExecuteUsesPotential(d, s, a, Down, target, tick);
    r := Open(d, s, a, tick);
    MeetsEntry(d, zones, s, w, a, tick);
    if r.levels[a].state == Active {
      var open := r;
      OpenIsNext(d, zones, s, open, w, a, target);
      NextIsUnique(open.levels, Down, target, a);
      ExecuteUsesPotential(d, open, a, Down, target, tick);
      r := TakeProfit(d, open, a, tick);
      MeetsTp(d, zones, s, open, w, a, tick);
    }
  }

  /** Falling just below the entry of level b closes the armed levels above it and
      opens it. */
  lemma {:induction false} Descend(d: Desk, zones: seq<Zone>, s: State, w: nat, a: nat, b: nat, tick: int)
    returns (last: State)
    requires Tiles(d.spread, d.rate, zones) && a <= b < |zones| && Descended(zones, s, w, a) && Affordable(d, zones[b])
    ensures Descended(zones, last, w, b)
    ensures Opens(d, zones, last, Settle(d, s, Down, JustBelow(zones[b]), tick), b)
    decreases b - a
  {
    if a == b {
      last := s;
      DropOpens(d, zones, s, b, tick);
    } else {
      JustBelowSeparates(zones, b, a);
      var r := PassOne(d, zones, s, w, a, JustBelow(zones[b]), tick);
      last := Descend(d, zones, r, w, a + 1, b, tick);
    }
  }

  /** The levels that enter above a price are the first w. */
  lemma {:induction false} EnteringAbove(zones: seq<Zone>, price: real, j: nat) returns (w: nat)
    requires Chained(zones) && j < |zones| && zones[j].entry <= price
    ensures w <= j && forall m | 0 <= m < |zones| :: price < zones[m].entry <==> m < w
  {
    if j > 0 && zones[j - 1].entry <= price {
      w := EnteringAbove(zones, price, j - 1);
    } else {
      w := j;
      forall m | 0 <= m < |zones| ensures price < zones[m].entry <==> m < w {
        if m < j - 1 { ZonesDescend(zones, m, j - 1); }
        if j < m { ZonesDescend(zones, j, m); }
      }
    }
  }

  // ----- the five prices

  /** The first price, raised to the lower entry if it lies below. */
  function Raised(zones: seq<Zone>, first: real, j: nat): real
    requires j < |zones|
  {
    if first < zones[j].entry then zones[j].entry else first
  }

  lemma RaisedStart(d: Desk, zones: seq<Zone>, first: real, j: nat)
    requires Chained(zones) && j < |zones|
    ensures After(d, zones, [first, Raised(zones, first, j)])
            == Run(At(Raised(zones, first, j)), Arm(FreshState(zones), Raised(zones, first, j)))
  {
    var s, x := FreshState(zones), Raised(zones, first, j);
    assert After(d, zones, []) == FreshRun(zones);
    AfterMore(d, zones, [], first);
    AfterMore(d, zones, [first], x);
    assert [] + [first] == [first] && [first] + [x] == [first, x];
    SettleNothing(d, Arm(s, first), Up, x, 1);
    ArmTwice(s, first, x);
  }

  /** Down to just below the lower entry: the lower level is open. */
  lemma LowerOpens(d: Desk, zones: seq<Zone>, run: Run, i: nat, j: nat, tick: int)
    requires Tiles(d.spread, d.rate, zones) && i < j < |zones| && Affordable(d, zones[j])
    requires run.previous.At? && run.state == Arm(FreshState(zones), run.previous.price)
    requires zones[j].entry <= run.previous.price < zones[i].entry
    ensures Lower(d, zones, Step(d, run, JustBelow(zones[j]), tick).state, i, j)
  {
    var price, target := run.previous.price, JustBelow(zones[j]);
    var w := EnteringAbove(zones, price, j);
    assert Descended(zones, run.state, w, w);
    JustBelowSeparates(zones, j, j);
    var last := Descend(d, zones, run.state, w, w, j, tick);
    LowerOnly(d, zones, last, Settle(d, run.state, Down, target, tick), w, i, j);
  }

  lemma LowerOnly(d: Desk, zones: seq<Zone>, s: State, r: State, w: nat, i: nat, j: nat)
    requires Chained(zones) && i < w <= j < |zones| && Affordable(d, zones[j])
    requires Descended(zones, s, w, j) && Opens(d, zones, s, r, j)
    ensures Lower(d, zones, Arm(r, JustBelow(zones[j])), i, j)
  {
    var target := JustBelow(zones[j]);
    forall m | 0 <= m < |zones| && m < j ensures ArmedAt(r.levels[m], target) == r.levels[m] {
      JustBelowSeparates(zones, j, m);
    }
  }

  /** The lower level is the only one open, and the upper one with all above it waits. */
  ghost predicate Lower(d: Desk, zones: seq<Zone>, s: State, i: nat, j: nat) {
    && i < j < |zones| && Calm(zones, s)
    && s.levels[j].state == Active && !s.levels[j].isFloor && s.levels[j].quantity == d.spread.quantity
    && (forall m | 0 <= m <= i :: Waiting(s.levels[m]))
    && (forall m | 0 <= m < |zones| && m != j :: s.levels[m].state != Active)
  }

  /** The same with the upper level armed. */
  ghost predicate Poised(d: Desk, zones: seq<Zone>, s: State, i: nat, j: nat) {
    && i < j < |zones| && Calm(zones, s)
    && s.levels[j].state == Active && !s.levels[j].isFloor && s.levels[j].quantity == d.spread.quantity
    && (forall m | 0 <= m < i :: Waiting(s.levels[m])) && s.levels[i].state == Ready && s.levels[i].armed
    && (forall m | 0 <= m < |zones| && m != j :: s.levels[m].state != Active)
  }

  /** Rise to the upper entry without reaching the lower stop. */
  lemma RiseArms(d: Desk, zones: seq<Zone>, run: Run, i: nat, j: nat, tick: int)
    requires Tiles(d.spread, d.rate, zones) && Lower(d, zones, run.state, i, j) && zones[j].stop > zones[i].entry
    requires run.previous == At(JustBelow(zones[j]))
    ensures Poised(d, zones, Step(d, run, zones[i].entry, tick).state, i, j)
  {
    JustBelowSeparates(zones, j, i);
    JustBelowSeparates(zones, j, j);
    SettleNothing(d, run.state, Up, zones[i].entry, tick);
    forall m | 0 <= m < i ensures zones[m].entry > zones[i].entry {
      ZonesDescend(zones, m, i);
    }
  }

  /** Both levels open, no other, and no stop so far. */
  ghost predicate BothOpen(d: Desk, zones: seq<Zone>, s: State, i: nat, j: nat) {
    && i < j < |zones| && |s.levels| == |zones| && s.book.grossStops == 0.0
    && (forall m | m == i || m == j ::
          s.levels[m].zone == zones[m] && s.levels[m].state == Active && s.levels[m].quantity == d.spread.quantity)
    && !s.levels[j].isFloor && (s.levels[i].isFloor <==> !Affordable(d, zones[i]))
    && (forall m | 0 <= m < |zones| && m != i && m != j :: s.levels[m].state != Active)
  }

  /** Then drop just below it: the upper level opens too. */
  lemma UpperOpens(d: Desk, zones: seq<Zone>, run: Run, i: nat, j: nat, tick: int)
    requires Tiles(d.spread, d.rate, zones) && Poised(d, zones, run.state, i, j)
    requires run.previous == At(zones[i].entry) && (d.policy == Unhedged ==> Affordable(d, zones[i]))
    ensures BothOpen(d, zones, Step(d, run, JustBelow(zones[i]), tick).state, i, j)
  {
    JustBelowSeparates(zones, i, i);
    DropOpens(d, zones, run.state, i, tick);
  }

  function FivePrices(zones: seq<Zone>, first: real, i: nat, j: nat): (p: seq<real>)
    requires i < |zones| && j < |zones|
    ensures |p| == 5 && p[0] == first
  {
    [first, Raised(zones, first, j)] + [JustBelow(zones[j])] + [zones[i].entry] + [JustBelow(zones[i])]
  }

  lemma OverlapOpensBoth(d: Desk, zones: seq<Zone>, first: real, i: nat, j: nat)
    requires Tiles(d.spread, d.rate, zones) && i < j < |zones|
    requires !Apart(d, zones[i], zones[j]) && first < zones[i].entry
    ensures BothOpen(d, zones, After(d, zones, FivePrices(zones, first, i, j)).state, i, j)
    ensures After(d, zones, FivePrices(zones, first, i, j)).previous == At(JustBelow(zones[i]))
  {
    var two := [first, Raised(zones, first, j)];
    var three := two + [JustBelow(zones[j])];
    var four := three + [zones[i].entry];
    ZonesDescend(zones, i, j);
    RaisedStart(d, zones, first, j);
    LowerOpens(d, zones, After(d, zones, two), i, j, 2);
    AfterMore(d, zones, two, JustBelow(zones[j]));
    RiseArms(d, zones, After(d, zones, three), i, j, 3);
    AfterMore(d, zones, three, zones[i].entry);
    UpperOpens(d, zones, After(d, zones, four), i, j, 4);
    AfterMore(d, zones, four, JustBelow(zones[i]));
  }

  /** No path from this first price ever opens two hedges at once if and only if the
      start is clear: a condition on the grid and the first price alone. */
  lemma OneAtATimeFromIffClear(d: Desk, zones: seq<Zone>, first: real)
    requires Tiles(d.spread, d.rate, zones)
    ensures OneAtATimeFrom(d, zones, first) <==> Clear(d, zones, first)
  {
    if Clear(d, zones, first) {
      ClearMeansOneAtATime(d, zones, first);
    } else {
      var i, j :| 0 <= i < j < |zones| && first < zones[i].entry && !Apart(d, zones[i], zones[j]);
      OverlapOpensBoth(d, zones, first, i, j);
      assert TwoOpen(After(d, zones, FivePrices(zones, first, i, j)).state);
    }
  }

  /** From no first price does any path open two hedges at once if and only if all
      levels are apart. */
  lemma OneAtATimeIffApart(d: Desk, zones: seq<Zone>)
    requires Tiles(d.spread, d.rate, zones)
    ensures (forall first :: OneAtATimeFrom(d, zones, first)) <==> AllApart(d, zones)
  {
    if AllApart(d, zones) {
      forall first ensures OneAtATimeFrom(d, zones, first) {
        ClearMeansOneAtATime(d, zones, first);
      }
    } else {
      var i, j :| 0 <= i < j < |zones| && !Apart(d, zones[i], zones[j]);
      ZonesDescend(zones, i, j);
      OneAtATimeFromIffClear(d, zones, zones[j].entry);
    }
  }

  // ----- the price of overlapping

  lemma BothStop(d: Desk, zones: seq<Zone>, s: State, i: nat, j: nat, tick: int)
    requires Tiles(d.spread, d.rate, zones) && BothOpen(d, zones, s, i, j) && !s.levels[i].isFloor
    ensures Settle(d, s, Up, zones[i].stop, tick).book.grossStops
            == StopLossOf(zones[j], d.spread.quantity) + StopLossOf(zones[i], d.spread.quantity)
  {
    StopsDescend(d.spread, d.rate, zones, i, j);
    var target := zones[i].stop;
    assert IsNext(s.levels, Up, target, j);
    NextIsUnique(s.levels, Up, target, j);
    ExecuteUsesPotential(d, s, j, Up, target, tick);
    var r := Fire(d, s, j, Up, tick);
    SettleOnly(d, r, i, Up, target, tick);
  }

  /** Two levels that overlap, each affordable alone but not together, let some
      path from any first price below the upper entry lose more on stops than the
      premium. */
  lemma OverlapOverspends(d: Desk, zones: seq<Zone>, first: real, i: nat, j: nat)
    requires Tiles(d.spread, d.rate, zones) && i < j < |zones|
    requires !Apart(d, zones[i], zones[j]) && first < zones[i].entry
    requires Affordable(d, zones[i])
    requires StopLossOf(zones[i], d.spread.quantity) + StopLossOf(zones[j], d.spread.quantity) > d.spread.premium
    ensures exists prices: seq<real> ::
              |prices| > 0 && prices[0] == first && After(d, zones, prices).state.book.grossStops > d.spread.premium
  {
    var prices := FivePrices(zones, first, i, j) + [zones[i].stop];
    assert prices[0] == first;
    OverlapStopsBoth(d, zones, first, i, j);
    assert After(d, zones, prices).state.book.grossStops > d.spread.premium;
  }

  lemma OverlapStopsBoth(d: Desk, zones: seq<Zone>, first: real, i: nat, j: nat)
    requires Tiles(d.spread, d.rate, zones) && i < j < |zones|
    requires !Apart(d, zones[i], zones[j]) && first < zones[i].entry
    requires Affordable(d, zones[i])
    ensures After(d, zones, FivePrices(zones, first, i, j) + [zones[i].stop]).state.book.grossStops
            == StopLossOf(zones[j], d.spread.quantity) + StopLossOf(zones[i], d.spread.quantity)
  {
    var five := FivePrices(zones, first, i, j);
    OverlapOpensBoth(d, zones, first, i, j);
    AfterMore(d, zones, five, zones[i].stop);
    RiseStops(d, zones, After(d, zones, five), i, j, |five|);
  }

  lemma RiseStops(d: Desk, zones: seq<Zone>, run: Run, i: nat, j: nat, tick: int)
    requires Tiles(d.spread, d.rate, zones) && BothOpen(d, zones, run.state, i, j) && !run.state.levels[i].isFloor
    requires run.previous == At(JustBelow(zones[i]))
    ensures Step(d, run, zones[i].stop, tick).state.book.grossStops
            == StopLossOf(zones[j], d.spread.quantity) + StopLossOf(zones[i], d.spread.quantity)
  {
    JustBelowSeparates(zones, i, i);
    BothStop(d, zones, run.state, i, j, tick);
  }

  /** For instance: strikes 2000 and 1900, two levels, stops five per cent above the
      entries, and the whole width as premium. */
  function OverlappingDesk(): Desk {
    Setup.Desk(Spread(1950.0, 2000.0, 1900.0, 1.0, 100.0), 0.05, FullNextTp, Unhedged, 1)
  }

  function OverlappingZones(): seq<Zone> {
    [Zone(2000.0, 1950.0, 2100.0, 50.0), Zone(1950.0, 1900.0, 2047.5, 50.0)]
  }

  lemma OverlappingDeskOverspends(first: real)
    requires first < 2000.0
    ensures Tiles(OverlappingDesk().spread, OverlappingDesk().rate, OverlappingZones())
    ensures exists prices: seq<real> ::
              && |prices| > 0 && prices[0] == first
              && After(OverlappingDesk(), OverlappingZones(), prices).state.book.grossStops > 100.0
  {
    OverlapOverspends(OverlappingDesk(), OverlappingZones(), first, 0, 1);
  }
}
