/** How far the hedges cover the option: the loss of the spread splits over the
    zones, each level covers the loss of its own zone, and what is left uncovered
    is at most the budgets of the levels that are locked or never armed. */
module FloorTheorem {
  import opened CreditSpreads
  import opened Products
  import opened VirtualLevels
  import opened Ledgers
  import opened Sums
  import opened HedgeModel
  import opened Positions
  import opened Claims
  import opened StopBudget
  import opened Accounting

  function Clamp(x: real, width: real): real {
    if x < 0.0 then 0.0 else if x > width then width else x
  }

  /** The option loss that falls into the zone of a level at a price. */
  function ZoneLossAt(quantity: real, price: real): Level -> real {
    (level: Level) => Times(quantity, Clamp(level.zone.entry - price, level.zone.TpDistance()))
  }

  lemma {:induction false} ZoneLossesOfPrefix(d: Desk, levels: seq<Level>, count: nat, price: real)
    requires Tiles(d.spread, d.rate, ZonesIn(levels)) && 1 <= count <= |levels|
    ensures Sum(ZoneLossAt(d.spread.quantity, price), levels[..count])
            == Times(d.spread.quantity, NonNegative(d.spread.shortStrike - price)
                                        - NonNegative(levels[count - 1].zone.tp - price))
    decreases count
  {
    var last := count - 1;
    var q := d.spread.quantity;
    var zone := levels[last].zone;
    assert levels[..count][..last] == levels[..last];
    assert Clamp(zone.entry - price, zone.TpDistance())
           == NonNegative(zone.entry - price) - NonNegative(zone.tp - price);
    assert ZonesIn(levels)[last] == zone && ZonesIn(levels)[0] == levels[0].zone;
    if last > 0 {
      ZoneLossesOfPrefix(d, levels, last, price);
      assert ZonesIn(levels)[last - 1] == levels[last - 1].zone;
      TimesAdds(q, NonNegative(d.spread.shortStrike - price) - NonNegative(zone.entry - price),
                NonNegative(zone.entry - price) - NonNegative(zone.tp - price));
    }
  }

  /** The zone losses add up to the whole loss of the spread at every price. */
  lemma ZoneLossesTile(d: Desk, s: State, price: real)
    requires Gridded(d, s)
    ensures d.spread.ExpiryPnl(price) == d.spread.premium - Sum(ZoneLossAt(d.spread.quantity, price), s.levels)
  {
    var n := |s.levels|;
    assert ZonesIn(s.levels)[n - 1] == s.levels[n - 1].zone;
    ZoneLossesOfPrefix(d, s.levels, n, price);
    assert s.levels[..n] == s.levels;
    ExpiryPnlByDepth(d.spread, price);
  }

  /** What a level adds to the premium at a price, before debt. */
  function CoverAt(quantity: real, price: real): Level -> real {
    (level: Level) => PaidBudget(level) + OpenPnlAt(price)(level) - ZoneLossAt(quantity, price)(level)
  }

  /** Combined P&L is the premium plus the cover of every level less all debt. */
  lemma CombinedByCover(d: Desk, s: State, price: real)
    requires Gridded(d, s) && Conserved(s)
    ensures Combined(d.spread, s.levels, s.book, price)
            == d.spread.premium + Sum(CoverAt(d.spread.quantity, price), s.levels) - Sum(DebtOf, s.levels)
  {
    var q := d.spread.quantity;
    ZoneLossesTile(d, s, price);
    var hedged := (level: Level) => PaidBudget(level) + OpenPnlAt(price)(level);
    SumSplits(hedged, PaidBudget, OpenPnlAt(price), s.levels);
    SumSplits(hedged, CoverAt(q, price), ZoneLossAt(q, price), s.levels);
  }

  /** A level whose zone no hedge will cover: locked, or never armed. */
  function Uncovered(level: Level): real {
    if level.state == Locked || Waiting(level) then level.zone.budget else 0.0
  }

  /** The level is on the side of its prices where a hedge or no hedge is needed. */
  predicate InPlace(level: Level, price: real) {
    match level.state
    case Ready => level.armed ==> level.zone.entry <= price
    case Active => level.zone.tp <= price && price <= (if level.isFloor then level.zone.entry else level.zone.stop)
    case Paid => true
    case Locked => true
  }

  ghost predicate AllInPlace(s: State, price: real) {
    forall i | 0 <= i < |s.levels| :: InPlace(s.levels[i], price)
  }

  lemma StandingInPlace(s: State, dir: Direction, start: real, cursor: real)
    requires AllStand(s, dir, start, cursor)
    ensures AllInPlace(s, cursor)
  {
    forall i | 0 <= i < |s.levels| ensures InPlace(s.levels[i], cursor) {
      assert Standing(s.levels[i], dir, start, cursor);
    }
  }

  lemma RestingInPlace(s: State, price: real)
    requires AllRest(s, price)
    ensures AllInPlace(s, price)
  {
    forall i | 0 <= i < |s.levels| ensures InPlace(s.levels[i], price) {
      assert RestsAt(s.levels[i], price);
    }
  }

  /** The loss of a zone lies between nothing and its budget, and is nothing at
      or above its entry. */
  lemma ZoneLossBounds(quantity: real, level: Level, price: real)
    requires quantity > 0.0 && level.zone.budget == Times(quantity, level.zone.TpDistance())
    ensures 0.0 <= ZoneLossAt(quantity, price)(level) <= level.zone.budget
    ensures level.zone.entry <= price ==> ZoneLossAt(quantity, price)(level) == 0.0
    ensures level.zone.tp <= price <= level.zone.entry ==>
              ZoneLossAt(quantity, price)(level) == Times(quantity, level.zone.entry - price)
  {
    var x := Clamp(level.zone.entry - price, level.zone.TpDistance());
    TimesLe(x, level.zone.TpDistance(), quantity);
    TimesLe(0.0, x, quantity);
    TimesZero(quantity);
  }

  lemma ActiveCover(q: real, level: Level, price: real)
    requires q > 0.0 && level.zone.budget == Times(q, level.zone.TpDistance())
    requires level.state == Active && level.quantity >= q && InPlace(level, price)
    ensures -Reserve(level) <= CoverAt(q, price)(level)
  {
    ZoneLossBounds(q, level, price);
    if price <= level.zone.entry {
      TimesLe(q, level.quantity, level.zone.entry - price);
      TimesLe(0.0, level.zone.StopDistance(), level.quantity);
      TimesZero(level.quantity);
    } else {
      TimesLe(price - level.zone.entry, level.zone.StopDistance(), level.quantity);
      TimesNegates(level.quantity, price - level.zone.entry);
    }
  }

  lemma CoverOfLevel(d: Desk, s: State, i: nat, price: real)
    requires Gridded(d, s) && Owing(d, s) && i < |s.levels| && InPlace(s.levels[i], price)
    ensures -Uncovered(s.levels[i]) - Reserve(s.levels[i]) <= CoverAt(d.spread.quantity, price)(s.levels[i])
  {
    assert ZonesIn(s.levels)[i] == s.levels[i].zone;
    if s.levels[i].state == Active {
      ActiveCoversOption(d, s, i);
      ActiveCover(d.spread.quantity, s.levels[i], price);
    } else {
      ZoneLossBounds(d.spread.quantity, s.levels[i], price);
    }
  }

  /** The floor: with realized stop losses and the open hedge inside the premium
      budget, combined P&L never falls below minus the uncovered budgets. */
  lemma FloorHolds(d: Desk, s: State, price: real)
    requires Gridded(d, s) && Owing(d, s) && Conserved(s) && Funded(d, s) && AllInPlace(s, price)
    ensures Combined(d.spread, s.levels, s.book, price) >= -Sum(Uncovered, s.levels)
  {
    var q := d.spread.quantity;
    CombinedByCover(d, s, price);
    var low := (level: Level) => -Uncovered(level) - Reserve(level);
    forall level | level in s.levels ensures low(level) <= CoverAt(q, price)(level) {
      var i :| 0 <= i < |s.levels| && s.levels[i] == level;
      CoverOfLevel(d, s, i, price);
    }
    SumMonotone(low, CoverAt(q, price), s.levels);
    var both := (level: Level) => Uncovered(level) + Reserve(level);
    SumSplits(both, Uncovered, Reserve, s.levels);
    var zero := (level: Level) => 0.0;
    SumSplits(zero, low, both, s.levels);
    SumZero(zero, s.levels);
    DebtWithinStops(s);
  }
}
