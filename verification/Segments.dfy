/** Cutting a price segment into pieces changes nothing but tick numbers. */
module Segments {
  import opened Products
  import opened VirtualLevels
  import opened Ledgers
  import opened HedgeModel

  // ----- one direction, two targets

  /** What fires first on the way to a nearer target fires first on the way to a farther one. */
  lemma NextSurvivesFartherTarget(levels: seq<Level>, dir: Direction, near: real, far: real)
    requires Reached(dir, near, far)
    requires Next(levels, dir, near).First?
    ensures Next(levels, dir, far) == Next(levels, dir, near)
  {
    var i := Next(levels, dir, near).index;
    NextIsFirst(levels, dir, near);
    forall j | 0 <= j < |levels| && j != i && Pending(levels[j], dir, far)
      ensures || Sooner(dir, TriggerOf(levels[i], dir), TriggerOf(levels[j], dir))
              || (i < j && !Sooner(dir, TriggerOf(levels[j], dir), TriggerOf(levels[i], dir)))
    {
      if !Pending(levels[j], dir, near) {
        assert Sooner(dir, TriggerOf(levels[i], dir), TriggerOf(levels[j], dir));
      }
    }
    NextIsUnique(levels, dir, far, i);
  }

  lemma {:induction false} SettleSplits(d: Desk, s: State, dir: Direction, near: real, far: real, tick: int)
    requires Reached(dir, near, far)
    ensures Settle(d, Settle(d, s, dir, near, tick), dir, far, tick) == Settle(d, s, dir, far, tick)
    decreases Potential(s, dir)
  {
    if Next(s.levels, dir, near).First? {
      var i := Next(s.levels, dir, near).index;
      NextSurvivesFartherTarget(s.levels, dir, near, far);
      ExecuteUsesPotential(d, s, i, dir, near, tick);
      SettleSplits(d, Fire(d, s, i, dir, tick), dir, near, far, tick);
    }
  }

  // ----- tick numbers

  function UntimedEvent(e: LedgerEvent): LedgerEvent {
    e.(tick := 0)
  }

  function UntimedBook(book: Book): Book {
    book.(events := seq(|book.events|, k requires 0 <= k < |book.events| => UntimedEvent(book.events[k])))
  }

  /** A state with the tick number of every ledger event erased. */
  function Untimed(s: State): State {
    s.(book := UntimedBook(s.book))
  }

  lemma UntimedAppend(book: Book, tick: int, kind: EventKind, i: nat, level: Level, price: real, quantity: real,
                      realizedPnl: real, projected: real, zonePart: real, recoveryPart: real, claim: Claim)
    ensures UntimedBook(book.Append(tick, kind, i, level, price, quantity, realizedPnl, projected, zonePart,
                                    recoveryPart, claim))
            == UntimedBook(book).Append(0, kind, i, level, price, quantity, realizedPnl, projected, zonePart,
                                        recoveryPart, claim)
  {
    var after := book.Append(tick, kind, i, level, price, quantity, realizedPnl, projected, zonePart, recoveryPart,
                             claim);
    assert UntimedBook(after).events == UntimedBook(book).events + [UntimedEvent(after.events[|book.events|])];
  }

  lemma UntimedRecordOpen(book: Book, tick: int, kind: EventKind, i: nat, level: Level, quantity: real, projected: real)
    ensures UntimedBook(book.RecordOpen(tick, kind, i, level, quantity, projected))
            == UntimedBook(book).RecordOpen(0, kind, i, level, quantity, projected)
  {
    var counted := book.(entries := book.entries + 1,
                         reentries := if level.attempts > 1 then book.reentries + 1 else book.reentries,
                         maximumQuantity := if quantity > book.maximumQuantity then quantity else book.maximumQuantity);
    UntimedAppend(counted, tick, kind, i, level, level.zone.entry, quantity, 0.0, projected, 0.0, 0.0, NoClaim);
  }

  lemma UntimedOpen(d: Desk, s: State, i: nat, tick: int)
    requires i < |s.levels|
    ensures Untimed(Open(d, s, i, tick)) == Open(d, Untimed(s), i, 0)
  {
    var level := s.levels[i];
    var claim := ClaimFor(d, s.levels, i);
    var quantity := EntryQuantity(level.zone, claim);
    var projected := StopLossOf(level.zone, quantity);
    UntimedRecordOpen(s.book, tick, EntryEvent, i, Opened(level, quantity, claim, false), quantity, projected);
    UntimedRecordOpen(s.book.(floorEntries := s.book.floorEntries + 1), tick, FloorEntryEvent, i,
                      Opened(level, quantity, claim, true), quantity, projected);
    UntimedAppend(s.book, tick, LockedEvent, i, LockedOut(level), level.zone.entry, quantity, 0.0, projected, 0.0, 0.0,
                  NoClaim);
  }

  lemma UntimedClosing(d: Desk, s: State, i: nat, tick: int)
    requires i < |s.levels|
    ensures Untimed(TakeProfit(d, s, i, tick)) == TakeProfit(d, Untimed(s), i, 0)
    ensures Untimed(StopOut(d, s, i, tick)) == StopOut(d, Untimed(s), i, 0)
    ensures Untimed(BreakEven(d, s, i, tick)) == BreakEven(d, Untimed(s), i, 0)
  {
    var level, book := s.levels[i], s.book;
    var profit := Times(level.quantity, level.zone.TpDistance());
    var paid := PaidOut(RepayClaim(d, s.levels, level.claim)[i], profit);
    UntimedAppend(book.(tps := book.tps + 1, grossTps := book.grossTps + profit, realized := book.realized + profit),
                  tick, TpEvent, i, paid, paid.zone.tp, level.quantity, profit, 0.0,
                  paid.zone.budget, level.claim.Amount(), level.claim);
    var loss := StopLossOf(level.zone, level.quantity);
    var stopped := StoppedOut(level, loss, d.mode.Distributed?, d.tpCount);
    UntimedAppend(book.(stops := book.stops + 1, grossStops := book.grossStops + loss,
                        realized := book.realized - loss),
                  tick, StopEvent, i, stopped, level.zone.stop, level.quantity, -loss, 0.0, 0.0, 0.0, NoClaim);
    UntimedAppend(book.(breakevens := book.breakevens + 1), tick, BreakevenEvent, i, BrokenEven(level),
                  level.zone.entry, level.quantity, 0.0, 0.0, 0.0, 0.0, NoClaim);
  }

  lemma UntimedFire(d: Desk, s: State, i: nat, dir: Direction, tick: int)
    requires i < |s.levels| && TriggerOf(s.levels[i], dir).Trigger?
    ensures Untimed(Fire(d, s, i, dir, tick)) == Fire(d, Untimed(s), i, dir, 0)
  {
    UntimedOpen(d, s, i, tick);
    UntimedClosing(d, s, i, tick);
  }

  lemma {:induction false} UntimedSettle(d: Desk, s: State, dir: Direction, target: real, tick: int)
    ensures Untimed(Settle(d, s, dir, target, tick)) == Settle(d, Untimed(s), dir, target, 0)
    decreases Potential(s, dir)
  {
    if Next(s.levels, dir, target).First? {
      var i := Next(s.levels, dir, target).index;
      ExecuteUsesPotential(d, s, i, dir, target, tick);
      UntimedFire(d, s, i, dir, tick);
      UntimedSettle(d, Fire(d, s, i, dir, tick), dir, target, tick);
    }
  }

  // ----- arming

  lemma ArmTwice(s: State, low: real, high: real)
    requires low <= high
    ensures Arm(Arm(s, low), high) == Arm(s, high)
  {
    assert Arm(Arm(s, low), high).levels == Arm(s, high).levels;
  }

  lemma UntimedArm(s: State, price: real)
    ensures Untimed(Arm(s, price)) == Arm(Untimed(s), price)
  {
    assert Untimed(Arm(s, price)).levels == Arm(Untimed(s), price).levels;
  }

  /** Arming levels in the middle of a rise does not change what fires in it. */
  lemma NextIgnoresArming(levels: seq<Level>, armed: seq<Level>, target: real, price: real)
    requires |levels| == |armed|
    requires forall i | 0 <= i < |levels| :: armed[i] == ArmedAt(levels[i], price)
    ensures Next(armed, Up, target) == Next(levels, Up, target)
  {
    NextIsFirst(levels, Up, target);
    NextIsFirst(armed, Up, target);
    if Next(levels, Up, target).First? {
      var i := Next(levels, Up, target).index;
      assert IsNext(armed, Up, target, i);
      NextIsUnique(armed, Up, target, i);
    }
  }

  lemma FireCommutesWithArming(d: Desk, s: State, i: nat, price: real, tick: int)
    requires i < |s.levels| && TriggerOf(s.levels[i], Up).Trigger?
    ensures Fire(d, Arm(s, price), i, Up, tick) == Arm(Fire(d, s, i, Up, tick), price)
  {
    assert Fire(d, Arm(s, price), i, Up, tick).levels == Arm(Fire(d, s, i, Up, tick), price).levels;
  }

  lemma {:induction false} RiseCommutesWithArming(d: Desk, s: State, price: real, target: real, tick: int)
    ensures Settle(d, Arm(s, price), Up, target, tick) == Arm(Settle(d, s, Up, target, tick), price)
    decreases Potential(s, Up)
  {
    NextIgnoresArming(s.levels, Arm(s, price).levels, target, price);
    if Next(s.levels, Up, target).First? {
      var i := Next(s.levels, Up, target).index;
      ExecuteUsesPotential(d, s, i, Up, target, tick);
      FireCommutesWithArming(d, s, i, price, tick);
      RiseCommutesWithArming(d, Fire(d, s, i, Up, tick), price, target, tick);
    }
  }
}
