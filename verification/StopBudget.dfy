/** The premium stop budget: at most one hedge is open at a time, and realized
    stop losses plus the loss the open hedge may still realize never exceed the
    premium. Needs that levels which still wait for their first arming stay apart
    from the levels below them. */
module StopBudget {
  import opened Products
  import opened VirtualLevels
  import opened Sums
  import opened HedgeModel
  import opened Positions
  import opened Claims

  /** A lower hedge cannot be open when the upper level opens one: it is stopped
      at or below the upper entry, or one of the two can never afford a fixed
      hedge. (A floor hedge leaves at its own entry, below the upper one.) */
  predicate Apart(d: Desk, upper: Zone, lower: Zone) {
    || lower.stop <= upper.entry
    || Times(d.spread.quantity, lower.StopDistance()) > d.spread.premium
    || (d.policy == Unhedged && Times(d.spread.quantity, upper.StopDistance()) > d.spread.premium)
  }

  /** Every level that still waits stays apart from the levels below it. */
  ghost predicate WaitingClear(d: Desk, levels: seq<Level>) {
    forall i, j | 0 <= i < j < |levels| && Waiting(levels[i]) :: Apart(d, levels[i].zone, levels[j].zone)
  }

  /** Above an active level every level is closed, or ready and apart from it. */
  ghost predicate ActiveAlone(d: Desk, levels: seq<Level>) {
    forall i, j | 0 <= i < j < |levels| && levels[j].state == Active ::
      Closed(levels[i]) || (levels[i].state == Ready && Apart(d, levels[i].zone, levels[j].zone))
  }

  lemma AtMostOneActive(d: Desk, levels: seq<Level>, i: nat, j: nat)
    requires ActiveAlone(d, levels) && i < |levels| && j < |levels|
    requires levels[i].state == Active && levels[j].state == Active
    ensures i == j
  {}

  /** The loss a level may still realize by being stopped. */
  function Reserve(level: Level): real {
    if level.state == Active && !level.isFloor then StopLossOf(level.zone, level.quantity) else 0.0
  }

  function Committed(s: State): real {
    s.book.grossStops + Sum(Reserve, s.levels)
  }

  ghost predicate Funded(d: Desk, s: State) {
    && Gridded(d, s) && WaitingClear(d, s.levels) && ActiveAlone(d, s.levels)
    && s.book.grossStops >= 0.0 && Committed(s) <= d.spread.premium
  }

  ghost predicate Gridded(d: Desk, s: State) {
    Tiles(d.spread, d.rate, ZonesIn(s.levels))
  }

  /** A hedge sized for its zone and a claim is at least as large as the option position. */
  lemma HedgeCoversOption(d: Desk, zone: Zone, claim: Claim)
    requires zone.budget == Times(d.spread.quantity, zone.TpDistance()) && claim.Amount() >= 0.0
    ensures EntryQuantity(zone, claim) >= d.spread.quantity
  {
    EntryQuantityPositive(zone, claim);
    if EntryQuantity(zone, claim) < d.spread.quantity {
      TimesGrows(EntryQuantity(zone, claim), d.spread.quantity, zone.TpDistance());
      assert false;
    }
  }

  /** Every open hedge is at least as large as the option position. */
  lemma ActiveCoversOption(d: Desk, s: State, i: nat)
    requires Gridded(d, s) && Owing(d, s) && i < |s.levels| && s.levels[i].state == Active
    ensures s.levels[i].quantity >= d.spread.quantity
  {
    assert ClaimOk(d, s.levels, i);
    assert ZonesIn(s.levels)[i] == s.levels[i].zone;
    HedgeCoversOption(d, s.levels[i].zone, s.levels[i].claim);
  }

  /** An open fixed hedge was affordable, so even the smallest hedge of its level is. */
  lemma FixedIsAffordable(d: Desk, s: State, j: nat)
    requires Owing(d, s) && Funded(d, s) && j < |s.levels| && s.levels[j].state == Active && !s.levels[j].isFloor
    ensures Times(d.spread.quantity, s.levels[j].zone.StopDistance()) <= d.spread.premium
  {
    forall level | level in s.levels ensures Reserve(level) >= 0.0 {
      var k :| 0 <= k < |s.levels| && s.levels[k] == level;
      if level.state == Active { ReserveNonnegative(d, s, k); }
    }
    SumBoundsEach(Reserve, s.levels, j);
    ActiveCoversOption(d, s, j);
    TimesLe(d.spread.quantity, s.levels[j].quantity, s.levels[j].zone.StopDistance());
  }

  /** When a level opens a hedge, fixed or floor, no other hedge is open. */
  lemma EntryFindsNothingOpen(d: Desk, s: State, i: nat, start: real, cursor: real, target: real, tick: int, j: nat)
    requires Owing(d, s) && Funded(d, s)
    requires AllStand(s, Down, start, cursor) && IsNext(s.levels, Down, target, i)
    requires s.levels[i].state == Ready && j < |s.levels|
    requires Open(d, s, i, tick).levels[i].state == Active
    ensures s.levels[j].state != Active
  {
    if j < i {
      EntryFindsNothingOpenAbove(s, i, start, cursor, target, j);
    } else if i < j && s.levels[j].state == Active {
      ZonesDescend(ZonesIn(s.levels), i, j);
      FireMovesCursor(d, s, i, Down, start, cursor, target, tick);
      OpenedIsAffordable(d, s, i, start, cursor, target, tick);
      if !s.levels[j].isFloor { FixedIsAffordable(d, s, j); }
    }
  }

  /** A level that opens a hedge without the floor policy can afford its smallest one. */
  lemma OpenedIsAffordable(d: Desk, s: State, i: nat, start: real, cursor: real, target: real, tick: int)
    requires Owing(d, s) && Funded(d, s)
    requires AllStand(s, Down, start, cursor) && IsNext(s.levels, Down, target, i)
    requires s.levels[i].state == Ready && Open(d, s, i, tick).levels[i].state == Active
    ensures d.policy == Unhedged ==> Times(d.spread.quantity, s.levels[i].zone.StopDistance()) <= d.spread.premium
  {
    var claim := ClaimFor(d, s.levels, i);
    assert ZonesIn(s.levels)[i] == s.levels[i].zone;
    EntryClaimIsOwed(d, s, i, start, cursor, target);
    HedgeCoversOption(d, s.levels[i].zone, claim);
    TimesLe(d.spread.quantity, EntryQuantity(s.levels[i].zone, claim), s.levels[i].zone.StopDistance());
  }

  lemma ReserveUpdate(levels: seq<Level>, i: nat, level: Level)
    requires i < |levels|
    ensures Sum(Reserve, levels[i := level]) == Sum(Reserve, levels) - Reserve(levels[i]) + Reserve(level)
  {
    SumUpdate(Reserve, levels, i, level);
  }

  lemma RepayKeepsReserves(d: Desk, levels: seq<Level>, claim: Claim)
    ensures Sum(Reserve, RepayClaim(d, levels, claim)) == Sum(Reserve, levels)
  {
    if claim.Claim? && claim.source < |levels| {
      ReserveUpdate(levels, claim.source, Repaid(levels[claim.source], claim.amount, d.mode.Distributed?));
    }
  }

  /** How each crossing moves the committed budget. */
  lemma FireMovesCommitment(d: Desk, s: State, i: nat, dir: Direction, tick: int)
    requires i < |s.levels| && TriggerOf(s.levels[i], dir).Trigger? && Tidy(s.levels[i])
    ensures var r := Fire(d, s, i, dir, tick);
            Committed(r) == Committed(s) + Reserve(r.levels[i])
                            - (if TriggerOf(s.levels[i], dir).crossing == Tp then Reserve(s.levels[i]) else 0.0)
  {
    var r := Fire(d, s, i, dir, tick);
    if TriggerOf(s.levels[i], dir).crossing == Tp {
      var levels := RepayClaim(d, s.levels, s.levels[i].claim);
      RepayKeepsReserves(d, s.levels, s.levels[i].claim);
      ReserveUpdate(levels, i, r.levels[i]);
    } else {
      ReserveUpdate(s.levels, i, r.levels[i]);
    }
  }

  lemma EntryFindsNoReserve(d: Desk, s: State, i: nat, start: real, cursor: real, target: real, tick: int)
    requires Owing(d, s) && Funded(d, s)
    requires AllStand(s, Down, start, cursor) && IsNext(s.levels, Down, target, i)
    requires s.levels[i].state == Ready && Open(d, s, i, tick).levels[i].state == Active
    ensures Sum(Reserve, s.levels) == 0.0
  {
    forall level | level in s.levels ensures Reserve(level) == 0.0 {
      var j :| 0 <= j < |s.levels| && s.levels[j] == level;
      EntryFindsNothingOpen(d, s, i, start, cursor, target, tick, j);
    }
    SumZero(Reserve, s.levels);
  }

  lemma EntryKeepsFunded(d: Desk, s: State, i: nat, start: real, cursor: real, target: real, tick: int)
    requires Owing(d, s) && Funded(d, s)
    requires AllStand(s, Down, start, cursor) && IsNext(s.levels, Down, target, i) && s.levels[i].state == Ready
    ensures Funded(d, Open(d, s, i, tick))
  {
    EntryKeepsCommitment(d, s, i, start, cursor, target, tick);
    EntryKeepsAlone(d, s, i, start, cursor, target, tick);
    assert ZonesIn(Open(d, s, i, tick).levels) == ZonesIn(s.levels);
  }

  lemma EntryKeepsCommitment(d: Desk, s: State, i: nat, start: real, cursor: real, target: real, tick: int)
    requires Owing(d, s) && Funded(d, s)
    requires AllStand(s, Down, start, cursor) && IsNext(s.levels, Down, target, i) && s.levels[i].state == Ready
    ensures var r := Open(d, s, i, tick); r.book.grossStops >= 0.0 && Committed(r) <= d.spread.premium
  {
    FireMovesCommitment(d, s, i, Down, tick);
    if Open(d, s, i, tick).levels[i].state == Active {
      EntryFindsNoReserve(d, s, i, start, cursor, target, tick);
    }
  }

  lemma ExitKeepsClear(d: Desk, s: State, i: nat, dir: Direction, tick: int)
    requires Owing(d, s) && Funded(d, s) && i < |s.levels| && Tidy(s.levels[i]) && s.levels[i].state == Active
    ensures WaitingClear(d, Fire(d, s, i, dir, tick).levels)
  {
    FireKeepsZones(d, s, i, dir, tick);
  }

  lemma ExitKeepsAlone(d: Desk, s: State, i: nat, dir: Direction, tick: int)
    requires Owing(d, s) && Funded(d, s) && i < |s.levels| && Tidy(s.levels[i]) && s.levels[i].state == Active
    ensures ActiveAlone(d, Fire(d, s, i, dir, tick).levels)
  {
    var r := Fire(d, s, i, dir, tick);
    ExitOpensNothing(d, s, i, dir, tick);
    forall j | 0 <= j < |s.levels| && s.levels[j].state == Active ensures j == i {
      AtMostOneActive(d, s.levels, i, j);
    }
    assert forall j | 0 <= j < |r.levels| :: r.levels[j].state != Active;
  }

  lemma ExitOpensNothing(d: Desk, s: State, i: nat, dir: Direction, tick: int)
    requires i < |s.levels| && s.levels[i].state == Active
    ensures var r := Fire(d, s, i, dir, tick);
            && r.levels[i].state != Active
            && forall j | 0 <= j < |r.levels| && r.levels[j].state == Active :: s.levels[j].state == Active
  {}

  lemma ExitKeepsFunded(d: Desk, s: State, i: nat, dir: Direction, tick: int)
    requires Owing(d, s) && Funded(d, s) && i < |s.levels| && Tidy(s.levels[i]) && s.levels[i].state == Active
    ensures Funded(d, Fire(d, s, i, dir, tick))
  {
    FireMovesCommitment(d, s, i, dir, tick);
    ReserveNonnegative(d, s, i);
    FireKeepsZones(d, s, i, dir, tick);
    ExitKeepsClear(d, s, i, dir, tick);
    ExitKeepsAlone(d, s, i, dir, tick);
  }

  lemma FireKeepsFunded(d: Desk, s: State, i: nat, dir: Direction, start: real, cursor: real, target: real, tick: int)
    requires Owing(d, s) && Funded(d, s)
    requires AllStand(s, dir, start, cursor) && IsNext(s.levels, dir, target, i)
    ensures Funded(d, Fire(d, s, i, dir, tick))
  {
    assert Standing(s.levels[i], dir, start, cursor);
    if s.levels[i].state == Active {
      ExitKeepsFunded(d, s, i, dir, tick);
    } else {
      EntryKeepsFunded(d, s, i, start, cursor, target, tick);
    }
  }

  lemma ReserveNonnegative(d: Desk, s: State, i: nat)
    requires Owing(d, s) && i < |s.levels| && s.levels[i].state == Active
    ensures StopLossOf(s.levels[i].zone, s.levels[i].quantity) > 0.0
  {
    assert ClaimOk(d, s.levels, i);
    EntryQuantityPositive(s.levels[i].zone, s.levels[i].claim);
  }

  lemma OpenTouchesOne(d: Desk, s: State, i: nat, tick: int)
    requires i < |s.levels| && s.levels[i].state == Ready
    ensures var r := Open(d, s, i, tick);
            && |r.levels| == |s.levels|
            && (forall j | 0 <= j < |s.levels| && j != i :: r.levels[j] == s.levels[j])
            && r.levels[i].zone == s.levels[i].zone && (r.levels[i].state == Active || r.levels[i].state == Locked)
  {}

  lemma EntryKeepsAlone(d: Desk, s: State, i: nat, start: real, cursor: real, target: real, tick: int)
    requires Owing(d, s) && Funded(d, s)
    requires AllStand(s, Down, start, cursor) && IsNext(s.levels, Down, target, i) && s.levels[i].state == Ready
    ensures WaitingClear(d, Open(d, s, i, tick).levels) && ActiveAlone(d, Open(d, s, i, tick).levels)
  {
    var r := Open(d, s, i, tick);
    OpenTouchesOne(d, s, i, tick);
    forall j, k | 0 <= j < k < |r.levels| && r.levels[k].state == Active
      ensures Closed(r.levels[j]) || (r.levels[j].state == Ready && Apart(d, r.levels[j].zone, r.levels[k].zone))
    {
      if k == i {
        EntryFindsNothingOpenAbove(s, i, start, cursor, target, j);
      } else if r.levels[i].state == Active {
        EntryFindsNothingOpen(d, s, i, start, cursor, target, tick, k);
      }
    }
  }

  lemma ArmKeepsFunded(d: Desk, s: State, price: real)
    requires Funded(d, s)
    ensures Funded(d, Arm(s, price))
  {
    SumAlike(Reserve, s.levels, Arm(s, price).levels);
    ArmKeepsAlone(d, s, price);
    assert ZonesIn(Arm(s, price).levels) == ZonesIn(s.levels);
  }

  lemma ArmKeepsAlone(d: Desk, s: State, price: real)
    requires WaitingClear(d, s.levels) && ActiveAlone(d, s.levels)
    ensures WaitingClear(d, Arm(s, price).levels) && ActiveAlone(d, Arm(s, price).levels)
  {}
}
