/** Virtual hedge levels: the fixed zone of each level, its evolving part, and
    the generator that cuts the loss zone of the spread into levels. */
module VirtualLevels {
  import opened CreditSpreads
  import opened Products

  /** The prices and the budget of a level, fixed when the level is generated. */
  datatype ZonePrices = Zone(entry: real, tp: real, stop: real, budget: real)
  {
    function TpDistance(): real {
      entry - tp
    }

    function StopDistance(): real {
      stop - entry
    }
  }

  type Zone = z: ZonePrices | 0.0 < z.tp < z.entry < z.stop && z.budget > 0.0
    witness Zone(2.0, 1.0, 3.0, 1.0)

  datatype LevelState = Ready | Active | Paid | Locked

  /** The recovery debt an active hedge has reserved: the source level and the
      amount. The dictionary it stands for never holds more than one entry. */
  datatype Claim = NoClaim | Claim(source: nat, amount: real)
  {
    function Amount(): real {
      if Claim? then amount else 0.0
    }
  }

  /** The value of a level object at one moment. */
  datatype Level = Level(
    zone: Zone,
    state: LevelState,
    attempts: nat,
    quantity: real,
    isFloor: bool,
    armed: bool,
    debt: real,
    tpsRemaining: int,
    stopLosses: real,
    tpProfit: real,
    stopHistory: seq<real>,
    claim: Claim)

  function FreshLevel(zone: Zone): Level {
    Level(zone, Ready, 0, 0.0, false, false, 0.0, 0, 0.0, 0.0, [], NoClaim)
  }

  // ----- what the crossings do to one level

  function Opened(level: Level, quantity: real, claim: Claim, isFloor: bool): Level {
    level.(quantity := quantity, isFloor := isFloor, armed := false, claim := claim,
           attempts := level.attempts + 1, state := Active)
  }

  function LockedOut(level: Level): Level {
    level.(state := Locked, armed := false)
  }

  /** A repaid claim lowers the debt of its source; instalments are counted down
      and end with the debt. */
  function Repaid(level: Level, amount: real, instalments: bool): Level {
    var debt := level.debt - amount;
    if instalments
    then level.(debt := debt, tpsRemaining := if debt == 0.0 then 0 else level.tpsRemaining - 1)
    else level.(debt := debt)
  }

  function PaidOut(level: Level, profit: real): Level {
    level.(tpProfit := level.tpProfit + profit, quantity := 0.0, isFloor := false, armed := false,
           claim := NoClaim, state := Paid)
  }

  /** A stop adds its loss to the debt; a level without instalments left gets `count` new ones. */
  function StoppedOut(level: Level, loss: real, instalments: bool, count: int): Level {
    level.(stopLosses := level.stopLosses + loss, stopHistory := level.stopHistory + [loss],
           debt := level.debt + loss,
           tpsRemaining := if instalments && level.tpsRemaining == 0 then count else level.tpsRemaining,
           quantity := 0.0, claim := NoClaim, state := Ready, armed := true)
  }

  function BrokenEven(level: Level): Level {
    level.(quantity := 0.0, isFloor := false, claim := NoClaim, state := Ready, armed := true)
  }

  class HedgeLevel {
    const index: nat
    const zone: Zone
    var state: LevelState
    var attempts: nat
    var quantity: real
    var isFloor: bool
    var armed: bool
    var debt: real
    var tpsRemaining: int
    var stopLosses: real
    var tpProfit: real
    var stopHistory: seq<real>
    var claim: Claim

    constructor (index: nat, zone: Zone)
      ensures this.index == index && this.zone == zone && View() == FreshLevel(zone)
    {
      this.index, this.zone := index, zone;
      state, attempts, quantity, isFloor, armed := Ready, 0, 0.0, false, false;
      debt, tpsRemaining, stopLosses, tpProfit := 0.0, 0, 0.0, 0.0;
      stopHistory, claim := [], NoClaim;
    }

    function View(): Level
      reads this
    {
      Level(zone, state, attempts, quantity, isFloor, armed, debt, tpsRemaining,
            stopLosses, tpProfit, stopHistory, claim)
    }

    method Activate(quantity: real, claim: Claim, isFloor: bool)
      modifies this
      ensures View() == Opened(old(View()), quantity, claim, isFloor)
      ensures state == Active && attempts == old(attempts) + 1 && !armed
      ensures this.quantity == quantity && this.claim == claim && this.isFloor == isFloor
      ensures debt == old(debt) && tpsRemaining == old(tpsRemaining) && stopHistory == old(stopHistory)
    {
      this.quantity := quantity;
      this.isFloor := isFloor;
      this.armed := false;
      this.claim := claim;
      this.attempts := this.attempts + 1;
      this.state := Active;
    }

    method LockOut()
      modifies this
      ensures View() == LockedOut(old(View()))
      ensures state == Locked && !armed && attempts == old(attempts) && quantity == old(quantity) && debt == old(debt)
    {
      state := Locked;
      armed := false;
    }

    method Repay(amount: real, instalments: bool)
      modifies this
      ensures View() == Repaid(old(View()), amount, instalments)
      ensures debt == old(debt) - amount && state == old(state) && quantity == old(quantity) && claim == old(claim)
      ensures !instalments ==> tpsRemaining == old(tpsRemaining)
      ensures instalments ==> tpsRemaining == if old(debt) == amount then 0 else old(tpsRemaining) - 1
    {
      debt := debt - amount;
      if instalments {
        tpsRemaining := tpsRemaining - 1;
        if debt == 0.0 {
          tpsRemaining := 0;
        }
      }
    }

    method PayOut(profit: real)
      modifies this
      ensures View() == PaidOut(old(View()), profit)
      ensures state == Paid && tpProfit == old(tpProfit) + profit && quantity == 0.0 && claim == NoClaim
      ensures !armed && !isFloor && debt == old(debt) && tpsRemaining == old(tpsRemaining)
    {
      tpProfit := tpProfit + profit;
      quantity := 0.0;
      isFloor := false;
      armed := false;
      claim := NoClaim;
      state := Paid;
    }

    method StopOut(loss: real, instalments: bool, count: int)
      modifies this
      ensures View() == StoppedOut(old(View()), loss, instalments, count)
      ensures state == Ready && armed && quantity == 0.0 && claim == NoClaim && attempts == old(attempts)
      ensures debt == old(debt) + loss && stopLosses == old(stopLosses) + loss
      ensures stopHistory == old(stopHistory) + [loss]
      ensures tpsRemaining == if instalments && old(tpsRemaining) == 0 then count else old(tpsRemaining)
    {
      stopLosses := stopLosses + loss;
      stopHistory := stopHistory + [loss];
      debt := debt + loss;
      if instalments && tpsRemaining == 0 {
        tpsRemaining := count;
      }
      quantity := 0.0;
      claim := NoClaim;
      state := Ready;
      armed := true;
    }

    method BreakEven()
      modifies this
      ensures View() == BrokenEven(old(View()))
      ensures state == Ready && armed && quantity == 0.0 && claim == NoClaim && !isFloor
      ensures debt == old(debt) && tpsRemaining == old(tpsRemaining) && attempts == old(attempts)
    {
      quantity := 0.0;
      isFloor := false;
      claim := NoClaim;
      state := Ready;
      armed := true;
    }
  }

  /** Each zone ends where the next one begins. */
  ghost predicate Chained(zones: seq<Zone>) {
    forall i, j | 0 <= i < j < |zones| && j == i + 1 :: zones[i].tp == zones[j].entry
  }

  /** The zones tile the loss zone from the short strike down to the long strike
      without gap or overlap, carry its whole loss as budgets, and stop each
      hedge the same fraction above its entry. */
  ghost predicate Tiles(spread: CreditSpread, rate: real, zones: seq<Zone>) {
    && |zones| >= 1 && rate > 0.0
    && zones[0].entry == spread.shortStrike
    && zones[|zones| - 1].tp == spread.longStrike
    && Chained(zones)
    && (forall i | 0 <= i < |zones| :: zones[i].budget == Times(spread.quantity, zones[i].TpDistance()))
    && (forall i | 0 <= i < |zones| :: zones[i].stop == Times(zones[i].entry, 1.0 + rate))
  }

  /** Entries fall from level to level, and a level below another one enters no
      higher than the take-profit of the other. */
  lemma {:induction false} ZonesDescend(zones: seq<Zone>, i: nat, j: nat)
    requires Chained(zones) && i < j < |zones|
    ensures zones[j].entry <= zones[i].tp
    decreases j - i
  {
    if i + 1 < j {
      ZonesDescend(zones, i, j - 1);
      assert zones[j - 1].tp == zones[j].entry;
    }
  }

  /** The same order for stops: a lower level stops below a higher one. */
  lemma StopsDescend(spread: CreditSpread, rate: real, zones: seq<Zone>, i: nat, j: nat)
    requires Tiles(spread, rate, zones) && i < j < |zones|
    ensures zones[j].stop < zones[i].stop
  {
    ZonesDescend(zones, i, j);
    TimesGrows(zones[j].entry, zones[i].entry, 1.0 + rate);
  }

  /** Every price of every zone lies within the strikes. */
  lemma ZoneWithinStrikes(spread: CreditSpread, rate: real, zones: seq<Zone>, i: nat)
    requires Tiles(spread, rate, zones) && i < |zones|
    ensures spread.longStrike <= zones[i].tp < zones[i].entry <= spread.shortStrike
  {
    if i > 0 { ZonesDescend(zones, 0, i); }
    if i < |zones| - 1 { ZonesDescend(zones, i, |zones| - 1); }
  }

  datatype Generated = Levels(levels: seq<HedgeLevel>) | Rejected

  /** Boundary `index` of `count` equal steps from the short to the long strike. */
  function Boundary(spread: CreditSpread, count: int, index: int): real
    requires count > 0
  {
    spread.shortStrike - spread.Width() * index as real / count as real
  }

  lemma BoundariesFall(spread: CreditSpread, count: int, index: int)
    requires count > 0
    ensures Boundary(spread, count, 0) == spread.shortStrike
    ensures Boundary(spread, count, count) == spread.longStrike
    ensures Boundary(spread, count, index + 1) == Boundary(spread, count, index) - spread.Width() / count as real
    ensures spread.Width() / count as real > 0.0
  {
    var w, n := spread.Width(), count as real;
    StepOf(w, n, index as real);
    assert w * n / n == w;
    PositiveQuotient(w, n);
  }

  lemma StepOf(w: real, n: real, k: real)
    requires n > 0.0
    ensures w * (k + 1.0) / n == w * k / n + w / n
  {
    assert w * (k + 1.0) == w * k + w;
    DivAdd(w * k, w, n);
  }

  lemma DivAdd(a: real, b: real, n: real)
    requires n > 0.0
    ensures (a + b) / n == a / n + b / n
  {}

  /** The zones of level values. */
  ghost function ZonesIn(levels: seq<Level>): (zones: seq<Zone>)
    ensures |zones| == |levels|
    ensures forall i | 0 <= i < |levels| :: zones[i] == levels[i].zone
  {
    seq(|levels|, i requires 0 <= i < |levels| => levels[i].zone)
  }

  /** The zones of level objects: they are constant, so no heap is read. */
  ghost function ZonesOf(levels: seq<HedgeLevel>): (zones: seq<Zone>)
    ensures |zones| == |levels|
    ensures forall i | 0 <= i < |levels| :: zones[i] == levels[i].zone
  {
    seq(|levels|, i requires 0 <= i < |levels| => levels[i].zone)
  }

  function ViewsOf(levels: seq<HedgeLevel>): (views: seq<Level>)
    reads levels
    ensures |views| == |levels|
    ensures forall i | 0 <= i < |levels| :: views[i] == levels[i].View()
  {
    seq(|levels|, i requires 0 <= i < |levels| reads levels => levels[i].View())
  }

  /** Levels are numbered in order and are pairwise different objects. */
  ghost predicate Numbered(levels: seq<HedgeLevel>) {
    forall i | 0 <= i < |levels| :: levels[i].index == i
  }

  lemma TimesAbove(a: real, rate: real)
    requires a > 0.0 && rate > 0.0
    ensures Times(a, 1.0 + rate) > a
  {
    assert Times(a, 1.0 + rate) == a + a * rate;
  }

  function ZoneBetween(spread: CreditSpread, rate: real, entry: real, tp: real): (z: Zone)
    requires entry > tp > 0.0 && rate > 0.0
    ensures z.budget == Times(spread.quantity, z.TpDistance()) && z.stop == Times(z.entry, 1.0 + rate)
    ensures z.entry == entry && z.tp == tp
  {
    TimesPositive(spread.quantity, entry - tp);
    TimesAbove(entry, rate);
    Zone(entry, tp, Times(entry, 1.0 + rate), Times(spread.quantity, entry - tp))
  }

  /** The prices fall by one and the same positive amount from each to the next. */
  ghost predicate EvenlyFalling(prices: seq<real>) {
    forall i, j | 0 <= i < j < |prices| && j == i + 1 ::
      prices[i] > prices[j] && prices[i] - prices[j] == prices[0] - prices[1]
  }

  function Boundaries(spread: CreditSpread, count: int): (prices: seq<real>)
    requires count > 0
    ensures |prices| == count + 1 && EvenlyFalling(prices)
    ensures prices[0] == spread.shortStrike && prices[count] == spread.longStrike
  {
    var prices := seq(count, index => Boundary(spread, count, index)) + [spread.longStrike];
    BoundaryGrid(spread, count, prices);
    prices
  }

  lemma BoundaryGrid(spread: CreditSpread, count: int, prices: seq<real>)
    requires count > 0
    requires prices == seq(count, index => Boundary(spread, count, index)) + [spread.longStrike]
    ensures EvenlyFalling(prices) && prices[0] == spread.shortStrike
  {
    BoundariesFall(spread, count, 0);
    forall i, j | 0 <= i < j < |prices| && j == i + 1
      ensures prices[i] - prices[j] == spread.Width() / count as real > 0.0
    {
      BoundariesFall(spread, count, i);
    }
  }

  lemma {:induction false} EvenlyFallingStaysAbove(prices: seq<real>, i: nat)
    requires EvenlyFalling(prices) && i < |prices|
    ensures prices[i] >= prices[|prices| - 1]
    decreases |prices| - i
  {
    if i < |prices| - 1 { EvenlyFallingStaysAbove(prices, i + 1); }
  }

  function TiledZones(spread: CreditSpread, rate: real, count: int): (zones: seq<Zone>)
    requires count > 0 && rate > 0.0
    ensures |zones| == count && Tiles(spread, rate, zones)
    ensures forall i | 0 <= i < count :: zones[i].TpDistance() == zones[0].TpDistance()
    ensures forall i | 0 <= i < count :: ZoneAt(spread, rate, count, i) == zones[i]
  {
    var zones := seq(count, i requires 0 <= i < count => ZoneAt(spread, rate, count, i));
    zones
  }

  function ZoneAt(spread: CreditSpread, rate: real, count: int, index: nat): Zone
    requires index < count && rate > 0.0
  {
    var prices := Boundaries(spread, count);
    EvenlyFallingStaysAbove(prices, index);
    EvenlyFallingStaysAbove(prices, index + 1);
    ZoneBetween(spread, rate, prices[index], prices[index + 1])
  }

  method GenerateVirtualLevels(spread: CreditSpread, levelCount: int, stopRate: real) returns (r: Generated)
    ensures r.Rejected? <==> levelCount <= 0 || stopRate <= 0.0
    ensures r.Levels? ==>
      && |r.levels| == levelCount && Numbered(r.levels)
      && ZonesOf(r.levels) == TiledZones(spread, stopRate, levelCount)
      && (forall i | 0 <= i < levelCount ::
            fresh(r.levels[i]) && r.levels[i].View() == FreshLevel(r.levels[i].zone))
  {
    if levelCount <= 0 {
      return Rejected;
    }
    if stopRate <= 0.0 {
      return Rejected;
    }
    var boundaries := Boundaries(spread, levelCount);
    var levels: seq<HedgeLevel> := [];
    var index := 0;
    while index < levelCount
      invariant 0 <= index <= levelCount && |levels| == index && Numbered(levels)
      invariant forall i | 0 <= i < index ::
        && fresh(levels[i]) && levels[i].View() == FreshLevel(levels[i].zone)
        && levels[i].zone == ZoneAt(spread, stopRate, levelCount, i)
    {
      EvenlyFallingStaysAbove(boundaries, index);
      EvenlyFallingStaysAbove(boundaries, index + 1);
      var zone := ZoneBetween(spread, stopRate, boundaries[index], boundaries[index + 1]);
      var level := new HedgeLevel(index, zone);
      levels := levels + [level];
      index := index + 1;
    }
    return Levels(levels);
  }
}
