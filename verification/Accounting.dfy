/** Conservation of P&L and debt, and the combined P&L of option and hedges. */
module Accounting {
  import opened CreditSpreads
  import opened Products
  import opened VirtualLevels
  import opened Ledgers
  import opened Sums
  import opened HedgeModel
  import opened Claims

  function PaidBudget(level: Level): real {
    if level.state == Paid then level.zone.budget else 0.0
  }

  function StopLosses(level: Level): real {
    level.stopLosses
  }

  function TpProfit(level: Level): real {
    level.tpProfit
  }

  function EventPnl(e: LedgerEvent): real {
    e.realizedPnl
  }

  function InState(state: LevelState): Level -> int {
    (level: Level) => if level.state == state then 1 else 0
  }

  /** Realized P&L four ways: gross take-profits less gross stops, what the
      events report, what the levels report, and the budgets of the paid levels
      less the debt that is still owed. */
  predicate Conserved(s: State) {
    && s.book.realized == s.book.grossTps - s.book.grossStops
    && s.book.realized == Sum(EventPnl, s.book.events)
    && s.book.grossStops == Sum(StopLosses, s.levels)
    && s.book.grossTps == Sum(TpProfit, s.levels)
    && s.book.realized == Sum(PaidBudget, s.levels) - Sum(DebtOf, s.levels)
    && s.book.grossTps >= Sum(PaidBudget, s.levels)
  }

  /** Every event of the ledger is accounted for by the counters and the states of the levels. */
  predicate Counted(s: State) {
    && s.book.tps == Count(InState(Paid), s.levels)
    && s.book.entries == s.book.stops + s.book.breakevens + Count(InState(Paid), s.levels)
       + Count(InState(Active), s.levels)
    && |s.book.events| == s.book.entries + s.book.stops + s.book.breakevens + s.book.tps
       + Count(InState(Locked), s.levels)
  }

  lemma UpdateSums(levels: seq<Level>, i: nat, level: Level)
    requires i < |levels|
    ensures Sum(StopLosses, levels[i := level]) == Sum(StopLosses, levels) - levels[i].stopLosses + level.stopLosses
    ensures Sum(TpProfit, levels[i := level]) == Sum(TpProfit, levels) - levels[i].tpProfit + level.tpProfit
    ensures Sum(PaidBudget, levels[i := level]) == Sum(PaidBudget, levels) - PaidBudget(levels[i]) + PaidBudget(level)
    ensures Sum(DebtOf, levels[i := level]) == Sum(DebtOf, levels) - levels[i].debt + level.debt
  {
    SumUpdate(StopLosses, levels, i, level);
    SumUpdate(TpProfit, levels, i, level);
    SumUpdate(PaidBudget, levels, i, level);
    SumUpdate(DebtOf, levels, i, level);
  }

  lemma UpdateCounts(levels: seq<Level>, i: nat, level: Level)
    requires i < |levels|
    ensures Count(InState(Paid), levels[i := level])
            == Count(InState(Paid), levels) - InState(Paid)(levels[i]) + InState(Paid)(level)
    ensures Count(InState(Active), levels[i := level])
            == Count(InState(Active), levels) - InState(Active)(levels[i]) + InState(Active)(level)
    ensures Count(InState(Locked), levels[i := level])
            == Count(InState(Locked), levels) - InState(Locked)(levels[i]) + InState(Locked)(level)
  {
    CountUpdate(InState(Paid), levels, i, level);
    CountUpdate(InState(Active), levels, i, level);
    CountUpdate(InState(Locked), levels, i, level);
  }

  /** An event without P&L on a level whose money figures do not change. */
  lemma NeutralKeepsConserved(s: State, r: State, i: nat, level: Level, e: LedgerEvent)
    requires Conserved(s) && i < |s.levels|
    requires r.levels == s.levels[i := level] && r.book.events == s.book.events + [e] && e.realizedPnl == 0.0
    requires r.book.realized == s.book.realized && r.book.grossTps == s.book.grossTps
    requires r.book.grossStops == s.book.grossStops
    requires level.stopLosses == s.levels[i].stopLosses
    requires level.tpProfit == s.levels[i].tpProfit && level.debt == s.levels[i].debt
    requires PaidBudget(level) == PaidBudget(s.levels[i])
    ensures Conserved(r)
  {
    SumAppend(EventPnl, s.book.events, e);
    UpdateSums(s.levels, i, level);
  }

  lemma EntryKeepsConserved(s: State, i: nat, tick: int, quantity: real, claim: Claim, projected: real)
    requires Conserved(s) && i < |s.levels| && s.levels[i].state == Ready
    ensures Conserved(OpenFixed(s, i, tick, quantity, claim, projected))
    ensures Conserved(OpenFloor(s, i, tick, quantity, claim, projected))
    ensures Conserved(LockOut(s, i, tick, quantity, projected))
  {
    var n := |s.book.events|;
    var a, b := OpenFixed(s, i, tick, quantity, claim, projected), OpenFloor(s, i, tick, quantity, claim, projected);
    var c := LockOut(s, i, tick, quantity, projected);
    NeutralKeepsConserved(s, a, i, Opened(s.levels[i], quantity, claim, false), a.book.events[n]);
    NeutralKeepsConserved(s, b, i, Opened(s.levels[i], quantity, claim, true), b.book.events[n]);
    NeutralKeepsConserved(s, c, i, LockedOut(s.levels[i]), c.book.events[n]);
  }

  lemma OpenKeepsConserved(d: Desk, s: State, i: nat, tick: int)
    requires Conserved(s) && i < |s.levels| && s.levels[i].state == Ready
    ensures Conserved(Open(d, s, i, tick))
  {
    var claim := ClaimFor(d, s.levels, i);
    var quantity := EntryQuantity(s.levels[i].zone, claim);
    EntryKeepsConserved(s, i, tick, quantity, claim, StopLossOf(s.levels[i].zone, quantity));
  }

  lemma OpenKeepsBooks(d: Desk, s: State, i: nat, tick: int)
    requires Conserved(s) && Counted(s) && i < |s.levels| && s.levels[i].state == Ready
    ensures Conserved(Open(d, s, i, tick)) && Counted(Open(d, s, i, tick))
  {
    OpenKeepsConserved(d, s, i, tick);
    OpenKeepsCounted(d, s, i, tick);
  }

  lemma OpenKeepsCounted(d: Desk, s: State, i: nat, tick: int)
    requires Counted(s) && i < |s.levels| && s.levels[i].state == Ready
    ensures Counted(Open(d, s, i, tick))
  {
    var r := Open(d, s, i, tick);
    assert r.levels == s.levels[i := r.levels[i]];
    UpdateCounts(s.levels, i, r.levels[i]);
  }

  lemma RepaymentSums(d: Desk, levels: seq<Level>, claim: Claim)
    requires claim.Claim? ==> claim.source < |levels|
    ensures var r := RepayClaim(d, levels, claim);
            && Sum(DebtOf, r) == Sum(DebtOf, levels) - claim.Amount()
            && Sum(StopLosses, r) == Sum(StopLosses, levels)
            && Sum(TpProfit, r) == Sum(TpProfit, levels)
            && Sum(PaidBudget, r) == Sum(PaidBudget, levels)
            && Count(InState(Paid), r) == Count(InState(Paid), levels)
            && Count(InState(Active), r) == Count(InState(Active), levels)
            && Count(InState(Locked), r) == Count(InState(Locked), levels)
  {
    if claim.Claim? {
      UpdateSums(levels, claim.source, Repaid(levels[claim.source], claim.amount, d.mode.Distributed?));
      UpdateCounts(levels, claim.source, Repaid(levels[claim.source], claim.amount, d.mode.Distributed?));
    }
  }

  lemma TakeProfitCounts(d: Desk, s: State, i: nat, tick: int)
    requires Counted(s) && Owing(d, s) && i < |s.levels| && s.levels[i].state == Active
    ensures Counted(TakeProfit(d, s, i, tick))
  {
    var r, claim := TakeProfit(d, s, i, tick), s.levels[i].claim;
    var levels := RepayClaim(d, s.levels, claim);
    assert ClaimOk(d, s.levels, i);
    RepaymentSums(d, s.levels, claim);
    assert r.levels == levels[i := r.levels[i]];
    UpdateCounts(levels, i, r.levels[i]);
  }

  lemma TakeProfitConserves(d: Desk, s: State, i: nat, tick: int)
    requires Conserved(s) && Owing(d, s) && i < |s.levels| && s.levels[i].state == Active
    ensures Conserved(TakeProfit(d, s, i, tick))
  {
    var r := TakeProfit(d, s, i, tick);
    var claim := s.levels[i].claim;
    var profit := Times(s.levels[i].quantity, s.levels[i].zone.TpDistance());
    assert ClaimOk(d, s.levels, i);
    assert profit == s.levels[i].zone.budget + claim.Amount() by {
      EntryQuantityPositive(s.levels[i].zone, claim);
    }
    SumAppend(EventPnl, s.book.events, r.book.events[|s.book.events|]);
    assert r.book.events == s.book.events + [r.book.events[|s.book.events|]];
    var levels := RepayClaim(d, s.levels, claim);
    RepaymentSums(d, s.levels, claim);
    assert r.levels == levels[i := r.levels[i]];
    UpdateSums(levels, i, r.levels[i]);
  }

  lemma StopKeepsBooks(d: Desk, s: State, i: nat, tick: int)
    requires Conserved(s) && Counted(s) && i < |s.levels| && s.levels[i].state == Active
    ensures Conserved(StopOut(d, s, i, tick)) && Counted(StopOut(d, s, i, tick))
  {
    var r := StopOut(d, s, i, tick);
    SumAppend(EventPnl, s.book.events, r.book.events[|s.book.events|]);
    assert r.book.events == s.book.events + [r.book.events[|s.book.events|]];
    assert r.levels == s.levels[i := r.levels[i]];
    UpdateSums(s.levels, i, r.levels[i]);
    UpdateCounts(s.levels, i, r.levels[i]);
  }

  lemma BreakEvenKeepsBooks(d: Desk, s: State, i: nat, tick: int)
    requires Conserved(s) && Counted(s) && i < |s.levels| && s.levels[i].state == Active
    ensures Conserved(BreakEven(d, s, i, tick)) && Counted(BreakEven(d, s, i, tick))
  {
    var r := BreakEven(d, s, i, tick);
    SumAppend(EventPnl, s.book.events, r.book.events[|s.book.events|]);
    assert r.book.events == s.book.events + [r.book.events[|s.book.events|]];
    assert r.levels == s.levels[i := r.levels[i]];
    UpdateSums(s.levels, i, r.levels[i]);
    UpdateCounts(s.levels, i, r.levels[i]);
  }

  lemma FireKeepsBooks(d: Desk, s: State, i: nat, dir: Direction, tick: int)
    requires Conserved(s) && Counted(s) && Owing(d, s)
    requires i < |s.levels| && TriggerOf(s.levels[i], dir).Trigger?
    ensures Conserved(Fire(d, s, i, dir, tick)) && Counted(Fire(d, s, i, dir, tick))
  {
    match TriggerOf(s.levels[i], dir).crossing
    case Entry => OpenKeepsBooks(d, s, i, tick);
    case Tp =>
      TakeProfitConserves(d, s, i, tick);
      TakeProfitCounts(d, s, i, tick);
    case Stop => StopKeepsBooks(d, s, i, tick);
    case Breakeven => BreakEvenKeepsBooks(d, s, i, tick);
  }

  lemma {:induction false} SumsAgree(a: seq<Level>, b: seq<Level>)
    requires |a| == |b| && forall i | 0 <= i < |a| :: a[i].(armed := false) == b[i].(armed := false)
    ensures Sum(StopLosses, a) == Sum(StopLosses, b) && Sum(TpProfit, a) == Sum(TpProfit, b)
    ensures Sum(PaidBudget, a) == Sum(PaidBudget, b) && Sum(DebtOf, a) == Sum(DebtOf, b)
    ensures Count(InState(Paid), a) == Count(InState(Paid), b)
    ensures Count(InState(Active), a) == Count(InState(Active), b)
    ensures Count(InState(Locked), a) == Count(InState(Locked), b)
    ensures forall price :: Sum(OpenPnlAt(price), a) == Sum(OpenPnlAt(price), b)
  {
    if |a| > 0 {
      var last := |a| - 1;
      SumsAgree(a[..last], b[..last]);
      assert a[last].(armed := false) == b[last].(armed := false);
    }
  }

  lemma ArmKeepsBooks(s: State, price: real)
    requires Conserved(s) && Counted(s)
    ensures Conserved(Arm(s, price)) && Counted(Arm(s, price))
  {
    SumsAgree(s.levels, Arm(s, price).levels);
  }

  lemma FreshBooks(zones: seq<Zone>)
    ensures Conserved(FreshState(zones)) && Counted(FreshState(zones))
  {
    var levels := FreshState(zones).levels;
    SumZero(StopLosses, levels);
    SumZero(TpProfit, levels);
    SumZero(PaidBudget, levels);
    SumZero(DebtOf, levels);
    CountBounds(InState(Paid), levels, 0, 0);
    CountBounds(InState(Active), levels, 0, 0);
    CountBounds(InState(Locked), levels, 0, 0);
  }

  /** Debt never exceeds the stop losses that caused it. */
  lemma DebtWithinStops(s: State)
    requires Conserved(s)
    ensures Sum(DebtOf, s.levels) <= s.book.grossStops
  {}

  // ----- combined P&L at a crossing

  lemma OpenPnlUpdate(levels: seq<Level>, i: nat, level: Level, price: real)
    requires i < |levels|
    ensures Sum(OpenPnlAt(price), levels[i := level])
            == Sum(OpenPnlAt(price), levels) - OpenPnlAt(price)(levels[i]) + OpenPnlAt(price)(level)
  {
    SumUpdate(OpenPnlAt(price), levels, i, level);
  }

  /** One level changes from `was` to `now` and realizes some P&L; if its own open
      P&L falls by as much, the combined P&L stays. */
  lemma SwapKeepsCombined(spread: CreditSpread, levels: seq<Level>, book: Book, i: nat, now: Level, after: Book,
                          price: real)
    requires i < |levels|
    requires after.realized - book.realized == OpenPnlAt(price)(levels[i]) - OpenPnlAt(price)(now)
    ensures Combined(spread, levels[i := now], after, price) == Combined(spread, levels, book, price)
  {
    OpenPnlUpdate(levels, i, now, price);
  }

  /** A crossing that executes at its trigger price moves P&L between open and
      realized but leaves the combined P&L as it was. */
  lemma FireKeepsCombined(d: Desk, s: State, i: nat, dir: Direction, tick: int)
    requires i < |s.levels| && TriggerOf(s.levels[i], dir).Trigger?
    ensures var r := Fire(d, s, i, dir, tick);
            var price := TriggerOf(s.levels[i], dir).price;
            Combined(d.spread, r.levels, r.book, price) == Combined(d.spread, s.levels, s.book, price)
  {
    var r := Fire(d, s, i, dir, tick);
    var t := TriggerOf(s.levels[i], dir);
    var level := s.levels[i];
    if t.crossing == Tp {
      var levels := RepayClaim(d, s.levels, level.claim);
      if level.claim.Claim? && level.claim.source < |s.levels| {
        SwapKeepsCombined(d.spread, s.levels, s.book, level.claim.source, levels[level.claim.source], s.book, t.price);
      }
      assert r.levels == levels[i := r.levels[i]];
      SwapKeepsCombined(d.spread, levels, s.book, i, r.levels[i], r.book, t.price);
    } else {
      assert OpenPnlAt(t.price)(level) - OpenPnlAt(t.price)(r.levels[i]) == r.book.realized - s.book.realized by {
        TimesZero(r.levels[i].quantity);
        TimesZero(level.quantity);
        TimesNegates(level.quantity, level.zone.StopDistance());
      }
      assert r.levels == s.levels[i := r.levels[i]];
      SwapKeepsCombined(d.spread, s.levels, s.book, i, r.levels[i], r.book, t.price);
    }
  }

  lemma ArmKeepsCombined(d: Desk, s: State, armedAt: real, price: real)
    ensures Combined(d.spread, Arm(s, armedAt).levels, s.book, price) == Combined(d.spread, s.levels, s.book, price)
    ensures Sum(DebtOf, Arm(s, armedAt).levels) == Sum(DebtOf, s.levels)
  {
    SumsAgree(s.levels, Arm(s, armedAt).levels);
  }
}
