/** Recovery debt: which claims active hedges hold on which levels, why two
    hedges never claim the same debt, and why no debt becomes negative. Holds
    for every start price and every stop rate. */
module Claims {
  import opened Products
  import opened VirtualLevels
  import opened HedgeModel
  import opened Positions

  lemma FireKeepsZones(d: Desk, s: State, i: nat, dir: Direction, tick: int)
    requires i < |s.levels| && TriggerOf(s.levels[i], dir).Trigger?
    ensures ZonesIn(Fire(d, s, i, dir, tick).levels) == ZonesIn(s.levels)
  {}

  /** Levels that still wait for their first arming sit above all others and owe nothing. */
  ghost predicate WaitingOnTop(levels: seq<Level>) {
    forall i, j | 0 <= j <= i < |levels| && Waiting(levels[i]) :: Waiting(levels[j]) && levels[j].debt == 0.0
  }

  predicate DebtOk(d: Desk, level: Level) {
    && level.debt >= 0.0 && level.tpsRemaining >= 0
    && (d.mode.Distributed? ==> (level.debt > 0.0 <==> level.tpsRemaining > 0))
    && (d.mode.FullNextTp? ==> level.tpsRemaining == 0 && (level.state == Paid ==> level.debt == 0.0))
  }

  ghost predicate AllDebtsOk(d: Desk, levels: seq<Level>) {
    forall i | 0 <= i < |levels| :: DebtOk(d, levels[i])
  }

  /** What an active hedge has claimed is still owed in full by its source, every
      level from the source down to the hedge is closed, and the hedge is sized
      for its own zone plus the claim. */
  ghost predicate ClaimOk(d: Desk, levels: seq<Level>, j: nat)
    requires j < |levels|
  {
    var claim := levels[j].claim;
    && (claim.Claim? ==>
          && claim.source <= j && 0.0 < claim.amount <= levels[claim.source].debt
          && (d.mode.Distributed? ==>
                levels[claim.source].tpsRemaining > 0 && claim.amount == Instalment(levels[claim.source]))
          && (forall i | claim.source <= i < j :: Closed(levels[i])))
    && (d.mode.FullNextTp? ==>
          if claim.Claim? then claim.source == j && claim.amount == levels[j].debt else levels[j].debt == 0.0)
    && levels[j].quantity == EntryQuantity(levels[j].zone, claim)
  }

  ghost predicate AllClaimsOk(d: Desk, levels: seq<Level>) {
    forall j | 0 <= j < |levels| && levels[j].state == Active :: ClaimOk(d, levels, j)
  }

  ghost predicate Owing(d: Desk, s: State) {
    && Chained(ZonesIn(s.levels))
    && WaitingOnTop(s.levels)
    && AllDebtsOk(d, s.levels)
    && AllClaimsOk(d, s.levels)
  }

  /** No debt is claimed twice: two active hedges never share a source. */
  lemma NoSharedSource(d: Desk, s: State, j: nat, k: nat)
    requires Owing(d, s) && j < k < |s.levels|
    requires s.levels[j].state == Active && s.levels[k].state == Active
    requires s.levels[j].claim.Claim? && s.levels[k].claim.Claim?
    ensures s.levels[j].claim.source != s.levels[k].claim.source
  {
    assert ClaimOk(d, s.levels, j) && ClaimOk(d, s.levels, k);
  }

  /** When a level is the next to enter, every level above it is closed or still
      waits for its first arming. */
  lemma EntryFindsNothingOpenAbove(s: State, i: nat, start: real, cursor: real, target: real, j: nat)
    requires Chained(ZonesIn(s.levels)) && AllStand(s, Down, start, cursor) && IsNext(s.levels, Down, target, i)
    requires s.levels[i].state == Ready && j < i
    ensures Closed(s.levels[j]) || Waiting(s.levels[j])
  {
    ZonesDescend(ZonesIn(s.levels), j, i);
    assert Standing(s.levels[j], Down, start, cursor);
    if s.levels[j].state == Active || s.levels[j].armed {
      assert Pending(s.levels[j], Down, target);
    }
  }

  /** The level can be asked for an instalment. */
  predicate Indebted(level: Level) {
    level.debt > 0.0 && level.tpsRemaining > 0
  }

  /** An instalment is asked of the first indebted level and is its debt divided by
      the instalments it has left. */
  lemma {:induction false} OldestClaimIsFirst(levels: seq<Level>, target: nat, from: nat)
    requires target < |levels|
    ensures match OldestClaim(levels, target, from)
            case NoClaim => forall j | from <= j <= target :: !Indebted(levels[j])
            case Claim(source, amount) =>
              && from <= source <= target && Indebted(levels[source])
              && (forall j | from <= j < source :: !Indebted(levels[j]))
              && amount == levels[source].debt / levels[source].tpsRemaining as real
    decreases target + 1 - from
  {
    if from <= target {
      if Indebted(levels[from]) {
        InstalmentBounds(levels[from]);
      } else {
        OldestClaimIsFirst(levels, target, from + 1);
      }
    }
  }

  /** An instalment is a positive part of the debt, and the whole of it exactly
      when it is the last one. */
  lemma InstalmentBounds(source: Level)
    requires source.debt > 0.0 && source.tpsRemaining > 0
    ensures Instalment(source) == source.debt / source.tpsRemaining as real
    ensures 0.0 < Instalment(source) <= source.debt
    ensures Instalment(source) == source.debt <==> source.tpsRemaining == 1
  {
    var n := source.tpsRemaining as real;
    var part := source.debt / n;
    assert part * n == source.debt;
    if source.tpsRemaining > 1 {
      TimesGrows(1.0, n, part) by { PositiveQuotient(source.debt, n); }
    }
  }

  lemma EntryQuantityPositive(zone: Zone, claim: Claim)
    requires claim.Amount() >= 0.0
    ensures EntryQuantity(zone, claim) > 0.0
    ensures Times(EntryQuantity(zone, claim), zone.TpDistance()) == zone.budget + claim.Amount()
    ensures StopLossOf(zone, EntryQuantity(zone, claim)) > 0.0
  {
    PositiveQuotient(zone.budget + claim.Amount(), zone.TpDistance());
    TimesPositive(EntryQuantity(zone, claim), zone.StopDistance());
  }

  /** The claim a level makes on entering is owed, and everything from its source
      down to the level is closed. */
  lemma EntryClaimIsOwed(d: Desk, s: State, i: nat, start: real, cursor: real, target: real)
    requires Owing(d, s) && AllStand(s, Down, start, cursor) && IsNext(s.levels, Down, target, i)
    requires s.levels[i].state == Ready
    ensures var claim := ClaimFor(d, s.levels, i);
            && (claim.Claim? ==>
                  && claim.source <= i && 0.0 < claim.amount <= s.levels[claim.source].debt
                  && (d.mode.Distributed? ==>
                        s.levels[claim.source].tpsRemaining > 0 && claim.amount == Instalment(s.levels[claim.source]))
                  && (forall k | claim.source <= k < i :: Closed(s.levels[k])))
            && (d.mode.FullNextTp? ==>
                  if claim.Claim? then claim.source == i && claim.amount == s.levels[i].debt
                  else s.levels[i].debt == 0.0)
  {
    var claim := ClaimFor(d, s.levels, i);
    assert DebtOk(d, s.levels[i]);
    if d.mode.Distributed? {
      OldestClaimIsFirst(s.levels, i, 0);
      if claim.Claim? { InstalmentBounds(s.levels[claim.source]); }
    }
    if claim.Claim? {
      forall k | claim.source <= k < i ensures Closed(s.levels[k]) {
        EntryFindsNothingOpenAbove(s, i, start, cursor, target, k);
      }
    }
  }

  /** Entering changes neither debts nor the waiting levels. */
  lemma OpenKeepsDebts(d: Desk, s: State, i: nat, tick: int)
    requires i < |s.levels| && AllDebtsOk(d, s.levels) && WaitingOnTop(s.levels)
    requires s.levels[i].state == Ready && s.levels[i].armed
    ensures AllDebtsOk(d, Open(d, s, i, tick).levels) && WaitingOnTop(Open(d, s, i, tick).levels)
  {
    var r := Open(d, s, i, tick);
    assert r.levels[i].debt == s.levels[i].debt && r.levels[i].tpsRemaining == s.levels[i].tpsRemaining;
    assert r.levels[i].state == Active || r.levels[i].state == Locked;
    assert r.levels == s.levels[i := r.levels[i]];
    assert DebtOk(d, s.levels[i]);
  }

  lemma OpenKeepsOwing(d: Desk, s: State, i: nat, start: real, cursor: real, target: real, tick: int)
    requires Owing(d, s) && AllStand(s, Down, start, cursor) && IsNext(s.levels, Down, target, i)
    requires s.levels[i].state == Ready
    ensures Owing(d, Open(d, s, i, tick))
  {
    assert ZonesIn(Open(d, s, i, tick).levels) == ZonesIn(s.levels);
    OpenKeepsDebts(d, s, i, tick);
    OpenKeepsClaims(d, s, i, start, cursor, target, tick);
  }

  lemma OpenKeepsClaims(d: Desk, s: State, i: nat, start: real, cursor: real, target: real, tick: int)
    requires Owing(d, s) && AllStand(s, Down, start, cursor) && IsNext(s.levels, Down, target, i)
    requires s.levels[i].state == Ready
    ensures AllClaimsOk(d, Open(d, s, i, tick).levels)
  {
    var r := Open(d, s, i, tick);
    forall j | 0 <= j < |r.levels| && r.levels[j].state == Active ensures ClaimOk(d, r.levels, j) {
      if j == i {
        OpenedClaimOk(d, s, i, start, cursor, target, tick);
      } else {
        OpenKeepsClaim(d, s, i, tick, j);
      }
    }
  }

  lemma OpenedClaimOk(d: Desk, s: State, i: nat, start: real, cursor: real, target: real, tick: int)
    requires Owing(d, s) && AllStand(s, Down, start, cursor) && IsNext(s.levels, Down, target, i)
    requires s.levels[i].state == Ready && Open(d, s, i, tick).levels[i].state == Active
    ensures ClaimOk(d, Open(d, s, i, tick).levels, i)
  {
    EntryClaimIsOwed(d, s, i, start, cursor, target);
  }

  lemma OpenKeepsClaim(d: Desk, s: State, i: nat, tick: int, j: nat)
    requires Owing(d, s) && i < |s.levels| && s.levels[i].state == Ready
    requires j < |s.levels| && j != i && s.levels[j].state == Active
    ensures ClaimOk(d, Open(d, s, i, tick).levels, j)
  {
    assert ClaimOk(d, s.levels, j);
  }

  lemma RepaidDebtOk(d: Desk, source: Level, amount: real)
    requires DebtOk(d, source) && 0.0 < amount <= source.debt
    requires d.mode.Distributed? ==> source.tpsRemaining > 0 && amount == Instalment(source)
    requires d.mode.FullNextTp? ==> amount == source.debt
    ensures DebtOk(d, Repaid(source, amount, d.mode.Distributed?))
  {
    if d.mode.Distributed? { InstalmentBounds(source); }
  }

  lemma TakeProfitKeepsDebts(d: Desk, s: State, i: nat, tick: int)
    requires Owing(d, s) && i < |s.levels| && s.levels[i].state == Active
    ensures AllDebtsOk(d, TakeProfit(d, s, i, tick).levels)
  {
    var r, claim := TakeProfit(d, s, i, tick), s.levels[i].claim;
    assert ClaimOk(d, s.levels, i);
    if claim.Claim? {
      assert DebtOk(d, s.levels[claim.source]);
      RepaidDebtOk(d, s.levels[claim.source], claim.amount);
    }
    forall j | 0 <= j < |r.levels| ensures DebtOk(d, r.levels[j]) {
      assert DebtOk(d, s.levels[j]);
    }
  }

  lemma TakeProfitKeepsOwing(d: Desk, s: State, i: nat, tick: int)
    requires Owing(d, s) && i < |s.levels| && s.levels[i].state == Active
    ensures Owing(d, TakeProfit(d, s, i, tick))
  {
    var r := TakeProfit(d, s, i, tick);
    var claim := s.levels[i].claim;
    assert ZonesIn(r.levels) == ZonesIn(s.levels);
    TakeProfitKeepsDebts(d, s, i, tick);
    forall j | 0 <= j < |r.levels| && r.levels[j].state == Active ensures ClaimOk(d, r.levels, j) {
      assert ClaimOk(d, s.levels, j);
      if claim.Claim? && s.levels[j].claim.Claim? {
        if j < i { NoSharedSource(d, s, j, i); } else { NoSharedSource(d, s, i, j); }
      }
    }
  }

  lemma StopKeepsOwing(d: Desk, s: State, i: nat, tick: int)
    requires Owing(d, s) && i < |s.levels| && s.levels[i].state == Active
    ensures Owing(d, StopOut(d, s, i, tick))
  {
    var r := StopOut(d, s, i, tick);
    assert ZonesIn(r.levels) == ZonesIn(s.levels);
    assert ClaimOk(d, s.levels, i) && DebtOk(d, s.levels[i]);
    EntryQuantityPositive(s.levels[i].zone, s.levels[i].claim);
    forall j | 0 <= j < |r.levels| && r.levels[j].state == Active ensures ClaimOk(d, r.levels, j) {
      assert ClaimOk(d, s.levels, j);
    }
  }

  lemma BreakEvenKeepsOwing(d: Desk, s: State, i: nat, tick: int)
    requires Owing(d, s) && i < |s.levels| && s.levels[i].state == Active
    ensures Owing(d, BreakEven(d, s, i, tick))
  {
    var r := BreakEven(d, s, i, tick);
    assert ZonesIn(r.levels) == ZonesIn(s.levels);
    assert DebtOk(d, s.levels[i]);
    forall j | 0 <= j < |r.levels| && r.levels[j].state == Active ensures ClaimOk(d, r.levels, j) {
      assert ClaimOk(d, s.levels, j);
    }
  }

  lemma FireKeepsOwing(d: Desk, s: State, i: nat, dir: Direction, start: real, cursor: real, target: real, tick: int)
    requires Owing(d, s) && AllStand(s, dir, start, cursor) && IsNext(s.levels, dir, target, i)
    ensures Owing(d, Fire(d, s, i, dir, tick))
  {
    match TriggerOf(s.levels[i], dir).crossing
    case Entry => OpenKeepsOwing(d, s, i, start, cursor, target, tick);
    case Tp => TakeProfitKeepsOwing(d, s, i, tick);
    case Stop => StopKeepsOwing(d, s, i, tick);
    case Breakeven => BreakEvenKeepsOwing(d, s, i, tick);
  }

  lemma ArmKeepsOwing(d: Desk, s: State, price: real)
    requires Owing(d, s)
    ensures Owing(d, Arm(s, price))
  {
    var r := Arm(s, price);
    assert ZonesIn(r.levels) == ZonesIn(s.levels);
    forall i, j | 0 <= j <= i < |r.levels| && Waiting(r.levels[i])
      ensures Waiting(r.levels[j]) && r.levels[j].debt == 0.0
    {
      assert Waiting(s.levels[i]);
      if j < i { ZonesDescend(ZonesIn(s.levels), j, i); }
    }
    forall i | 0 <= i < |r.levels| ensures DebtOk(d, r.levels[i]) {
      assert DebtOk(d, s.levels[i]);
    }
    forall j | 0 <= j < |r.levels| && r.levels[j].state == Active ensures ClaimOk(d, r.levels, j) {
      assert ClaimOk(d, s.levels, j);
    }
  }

  lemma FreshOwing(d: Desk, zones: seq<Zone>)
    requires Chained(zones)
    ensures Owing(d, FreshState(zones))
  {
    assert ZonesIn(FreshState(zones).levels) == zones;
  }
}
