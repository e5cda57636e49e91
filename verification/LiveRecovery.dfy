/** Live recovery: the debt of one level as confirmed by exchange fills, and the
    plan that sizes the next entry so that its take-profit pays all of it. */
module LiveRecovery {
  import opened Products
  import opened VirtualLevels
  import opened InstrumentRules
  import opened LiveRisk
  import opened RejectionReasons

  // ----- the debt of a level

  datatype DebtState = Debt(projected: real, confirmed: real, allotted: real, remaining: real)
  {
    /** What the program's constructor demands. */
    predicate Valid() {
      && projected >= 0.0 && confirmed >= 0.0 && allotted >= 0.0 && remaining >= 0.0
      && confirmed == allotted + remaining
    }
  }

  datatype Outcome = Ok(debt: DebtState) | Error(message: string)

  function NoDebt(projected: real): DebtState {
    Debt(projected, 0.0, 0.0, 0.0)
  }

  /** Every reducer builds its result through the validating constructor. */
  function Checked(s: DebtState): Outcome {
    if s.Valid() then Ok(s) else Error("confirmed debt must equal allocated plus remaining debt")
  }

  function AddConfirmedStopDebt(s: DebtState, actual: real): Outcome {
    if actual < 0.0 then Error("actual stop debt cannot be negative")
    else Checked(s.(confirmed := s.confirmed + actual, remaining := s.remaining + actual))
  }

  function AllocateConfirmedDebt(s: DebtState): Outcome {
    if s.allotted != 0.0 then Error("recovery debt is already allocated to an active hedge")
    else Checked(s.(allotted := s.remaining, remaining := 0.0))
  }

  function PaidBy(s: DebtState, realized: real, zoneBudget: real): real {
    var profit := Positive(realized - zoneBudget);
    if profit < s.allotted then profit else s.allotted
  }

  function SettleRecoveryTakeProfit(s: DebtState, realized: real, zoneBudget: real): Outcome {
    if s.allotted == 0.0 then Error("recovery TP requires explicitly allocated debt")
    else if zoneBudget < 0.0 then Error("zone budget cannot be negative")
    else
      var paid := PaidBy(s, realized, zoneBudget);
      Checked(s.(confirmed := s.confirmed - paid, allotted := 0.0, remaining := s.remaining + (s.allotted - paid)))
  }

  function ReleaseAllocatedDebt(s: DebtState): Outcome {
    if s.allotted == 0.0 then Ok(s)
    else Checked(s.(allotted := 0.0, remaining := s.remaining + s.allotted))
  }

  datatype DebtOp = AddStop(actual: real) | Allocate | SettleTp(realized: real, zoneBudget: real) | Release

  /** A refused operation leaves the debt as it was. */
  function Apply(s: DebtState, op: DebtOp): Outcome {
    match op
    case AddStop(actual) => AddConfirmedStopDebt(s, actual)
    case Allocate => AllocateConfirmedDebt(s)
    case SettleTp(realized, zoneBudget) => SettleRecoveryTakeProfit(s, realized, zoneBudget)
    case Release => ReleaseAllocatedDebt(s)
  }

  /** The debt together with all that was ever added to it and repaid. */
  datatype DebtBook = DebtBook(debt: DebtState, added: real, repaid: real)

  function Book(b: DebtBook, op: DebtOp): DebtBook {
    match Apply(b.debt, op)
    case Error(_) => b
    case Ok(after) =>
      DebtBook(after,
               if op.AddStop? then b.added + op.actual else b.added,
               if op.SettleTp? then b.repaid + RecoveryShare(op.realized, op.zoneBudget, b.debt.allotted) else b.repaid)
  }

  /** What of a take-profit goes to an allotted debt: nothing before the zone budget
      is earned, then everything, until the debt is paid. */
  function RecoveryShare(realized: real, zoneBudget: real, allotted: real): real {
    if realized <= zoneBudget then 0.0
    else if realized <= zoneBudget + allotted then realized - zoneBudget
    else allotted
  }

  /** The reducers never reach an invalid state, and the guard is the only reason
      to refuse. */
  lemma ReducersStayValid(s: DebtState, op: DebtOp)
    requires s.Valid()
    ensures match op
            case AddStop(actual) => Apply(s, op).Ok? <==> actual >= 0.0
            case Allocate => Apply(s, op).Ok? <==> s.allotted == 0.0
            case SettleTp(_, zoneBudget) => Apply(s, op).Ok? <==> s.allotted != 0.0 && zoneBudget >= 0.0
            case Release => Apply(s, op).Ok?
    ensures Apply(s, op).Ok? ==> Apply(s, op).debt.Valid()
  {}

  /** A take-profit earns the zone budget first and pays debt with the rest; what is
      left of the allotted debt is owed without being allotted. */
  lemma TakeProfitPaysAfterTheZone(s: DebtState, realized: real, zoneBudget: real)
    requires s.Valid() && s.allotted > 0.0 && zoneBudget >= 0.0
    ensures var r := SettleRecoveryTakeProfit(s, realized, zoneBudget);
            && r.Ok? && r.debt.allotted == 0.0 && r.debt.remaining == r.debt.confirmed
            && r.debt.projected == s.projected
            && (realized <= zoneBudget ==> r.debt.confirmed == s.confirmed)
            && (zoneBudget <= realized <= zoneBudget + s.allotted ==>
                  r.debt.confirmed == s.confirmed - (realized - zoneBudget))
            && (zoneBudget + s.allotted <= realized ==> r.debt.confirmed == s.confirmed - s.allotted)
  {}

  predicate Balanced(b: DebtBook) {
    && b.debt.Valid() && b.repaid >= 0.0
    && b.debt.confirmed == b.added - b.repaid
  }

  lemma BookStaysBalanced(b: DebtBook, op: DebtOp)
    requires Balanced(b)
    ensures Balanced(Book(b, op))
  {
    ReducersStayValid(b.debt, op);
  }

  /** The books after a sequence of operations on a level that owes nothing. */
  function BookAll(ops: seq<DebtOp>): DebtBook {
    if |ops| == 0 then DebtBook(NoDebt(0.0), 0.0, 0.0) else Book(BookAll(ops[..|ops| - 1]), ops[|ops| - 1])
  }

  /** Over any sequence of operations what is owed is what was added less what was
      repaid, it never becomes negative, and it is allocated or remaining. */
  lemma {:induction false} DebtIsConserved(ops: seq<DebtOp>)
    ensures Balanced(BookAll(ops))
  {
    if |ops| > 0 {
      var last := |ops| - 1;
      DebtIsConserved(ops[..last]);
      BookStaysBalanced(BookAll(ops[..last]), ops[last]);
    }
  }

  /** Releasing undoes allocating. */
  lemma ReleaseUndoesAllocate(s: DebtState)
    requires s.Valid() && s.allotted == 0.0
    ensures AllocateConfirmedDebt(s).Ok? && ReleaseAllocatedDebt(AllocateConfirmedDebt(s).debt) == Ok(s)
  {}

  // ----- the plan

  datatype EntryPlan =
    | Plan(approved: bool, rawQuantity: real, entry: real, quantity: Limit, expectedTakeProfit: real,
           allocatedDebt: real, reasons: seq<Reason>)
    | Refused(message: string)

  function RawQuantity(zone: Zone, confirmed: real): real {
    (zone.budget + confirmed) / zone.TpDistance()
  }

  function ValidatedEntry(zone: Zone, confirmed: real, i: Instrument): Validation {
    NormalizeAndValidateOrder(i, Sell, CeilToStep(RawQuantity(zone, confirmed), i.qtyStep), zone.entry, Passive)
  }

  function QuantizedEntry(zone: Zone, confirmed: real, i: Instrument, limits: RiskLimits): QuantizedRisk
    requires confirmed >= 0.0
  {
    RecalculateQuantizedRisk(ValidatedEntry(zone, confirmed, i), i, Sell, zone.tp, zone.stop, confirmed,
                             limits.perpNotional, limits.projectedStopLoss)
  }

  function PlanEntry(zone: Zone, debt: DebtState, i: Instrument, risk: RiskState, limits: RiskLimits): EntryPlan
    requires debt.Valid()
  {
    if debt.allotted != 0.0 then Refused("cannot plan while recovery debt is already allocated")
    else if risk.recoveryDebt < debt.confirmed then Refused("risk state underreports the level recovery debt")
    else if i.category != Linear || i.symbol != EthUsdt then Refused("recovery requires ETHUSDT linear")
    else
      var q := QuantizedEntry(zone, debt.confirmed, i, limits);
      var first := q.errors + When(q.tpProfit < zone.budget + debt.confirmed, CoverageRejection);
      var proposal := Proposal(q.quantity, q.entry, q.notional, q.projectedStopLoss, true);
      var reasons := if |first| == 0 then Reasons(proposal, risk, limits) else first;
      var approved := |reasons| == 0;
      Plan(approved, RawQuantity(zone, debt.confirmed), q.entry, if approved then Limit(q.quantity) else NoLimit,
           q.tpProfit, if approved then debt.confirmed else 0.0, reasons)
  }

  /** A plan is refused outright on exactly four conditions; otherwise it is approved
      exactly when the rounded hedge is accepted, covers budget and debt, and the
      risk engine lets it through, and only then claims the debt. */
  lemma PlanIsExact(zone: Zone, debt: DebtState, i: Instrument, risk: RiskState, limits: RiskLimits)
    requires debt.Valid()
    ensures var plan, q := PlanEntry(zone, debt, i, risk, limits), QuantizedEntry(zone, debt.confirmed, i, limits);
            && (plan.Refused? <==>
                  || debt.allotted != 0.0 || risk.recoveryDebt < debt.confirmed
                  || i.category != Linear || i.symbol != EthUsdt)
            && (plan.Plan? ==>
                  && plan.rawQuantity == RawQuantity(zone, debt.confirmed)
                  && plan.entry == q.entry && plan.expectedTakeProfit == q.tpProfit
                  && plan.quantity == (if plan.approved then Limit(q.quantity) else NoLimit)
                  && plan.allocatedDebt == (if plan.approved then debt.confirmed else 0.0)
                  && (plan.approved <==>
                        && q.Accepted() && q.tpProfit >= zone.budget + debt.confirmed && Healthy(risk, limits)
                        && q.projectedStopLoss <= limits.projectedStopLoss
                        && risk.perpQuantity + q.quantity <= limits.perpQuantity
                        && risk.perpNotional + q.notional <= limits.perpNotional
                        && risk.activeLevels < limits.activeLevels))
  {
    var q := QuantizedEntry(zone, debt.confirmed, i, limits);
    ApprovedIffWithinAll(Proposal(q.quantity, q.entry, q.notional, q.projectedStopLoss, true), risk, limits);
  }

  /** The order of a plan: the least quantity on the grid that at the unrounded prices
      pays zone budget and debt, entry and stop rounded up, take-profit down, and the
      amounts of the rounded prices. */
  lemma PlannedOrderIsExact(zone: Zone, confirmed: real, i: Instrument, limits: RiskLimits)
    requires confirmed >= 0.0
    ensures var q, raw := QuantizedEntry(zone, confirmed, i, limits), RawQuantity(zone, confirmed);
            && Times(raw, zone.TpDistance()) == zone.budget + confirmed
            && OnGrid(q.quantity, i.qtyStep) && 0.0 < raw <= q.quantity < raw + i.qtyStep
            && OnGrid(q.entry, i.tickSize) && zone.entry <= q.entry < zone.entry + i.tickSize
            && OnGrid(q.tp, i.tickSize) && zone.tp - i.tickSize < q.tp <= zone.tp
            && OnGrid(q.stop, i.tickSize) && zone.stop <= q.stop < zone.stop + i.tickSize
            && q.tpProfit == Times(Times(q.entry - q.tp, i.multiplier), q.quantity)
            && q.notional == Times(Times(q.entry, q.quantity), i.multiplier)
            && (q.stop >= q.entry ==> q.projectedStopLoss == Times(Times(q.stop - q.entry, i.multiplier), q.quantity))
  {
    var raw := RawQuantity(zone, confirmed);
    var up := CeilToStep(raw, i.qtyStep);
    RawIsPositive(zone, confirmed);
    StepRounding(raw, i.qtyStep);
    RoundingIsOnGrid(raw, i.qtyStep);
    GridIsFixed(-((-(raw / i.qtyStep)).Floor), i.qtyStep);
    assert FloorToStep(up, i.qtyStep) == up;
    PriceIsRoundedAway(zone.entry, i.tickSize, Sell, Passive);
    AmountsAreExact(ValidatedEntry(zone, confirmed, i), i, Sell, zone.tp, zone.stop, confirmed, limits.perpNotional,
                    limits.projectedStopLoss);
  }

  lemma RawIsPositive(zone: Zone, confirmed: real)
    requires confirmed >= 0.0
    ensures RawQuantity(zone, confirmed) > 0.0
    ensures Times(RawQuantity(zone, confirmed), zone.TpDistance()) == zone.budget + confirmed
  {
    QuotientBack(zone.budget + confirmed, zone.TpDistance());
    if RawQuantity(zone, confirmed) <= 0.0 {
      TimesLe(RawQuantity(zone, confirmed), 0.0, zone.TpDistance());
      assert false;
    }
  }

  lemma ProductGrows(a: real, b: real, c: real, d: real)
    requires 0.0 <= a <= b && 0.0 <= c <= d
    ensures Times(a, c) <= Times(b, d)
  {}

  /** With a contract multiplier of at least one the planned take-profit always
      covers the zone budget and the whole confirmed debt. */
  lemma PlanCovers(zone: Zone, confirmed: real, i: Instrument, limits: RiskLimits)
    requires confirmed >= 0.0 && i.multiplier >= 1.0
    ensures QuantizedEntry(zone, confirmed, i, limits).tpProfit >= zone.budget + confirmed
  {
    var q := QuantizedEntry(zone, confirmed, i, limits);
    var raw, distance := RawQuantity(zone, confirmed), q.entry - q.tp;
    PlannedOrderIsExact(zone, confirmed, i, limits);
    RawIsPositive(zone, confirmed);
    ProductGrows(zone.TpDistance(), distance, 1.0, i.multiplier);
    assert Times(zone.TpDistance(), 1.0) == zone.TpDistance();
    ProductGrows(zone.TpDistance(), Times(distance, i.multiplier), raw, q.quantity);
    assert Times(zone.TpDistance(), raw) == Times(raw, zone.TpDistance());
  }

  predicate CoversAt(i: Instrument, zone: Zone, confirmed: real, limits: RiskLimits)
    requires confirmed >= 0.0
  {
    QuantizedEntry(zone, confirmed, i, limits).tpProfit >= zone.budget + confirmed
  }

  ghost predicate AlwaysCovers(i: Instrument) {
    forall zone: Zone, confirmed: real, limits | confirmed >= 0.0 :: CoversAt(i, zone, confirmed, limits)
  }

  /** A level whose prices and quantity need no rounding at all. */
  function ExactZone(i: Instrument): Zone {
    TimesPositive(i.tickSize, i.qtyStep);
    Zone(Times(2.0, i.tickSize), Times(1.0, i.tickSize), Times(3.0, i.tickSize), Times(i.tickSize, i.qtyStep))
  }

  lemma ExactZoneIsNotRounded(i: Instrument, limits: RiskLimits)
    ensures var q := QuantizedEntry(ExactZone(i), 0.0, i, limits);
            && q.quantity == i.qtyStep && q.entry - q.tp == i.tickSize
            && q.tpProfit == Times(Times(i.tickSize, i.multiplier), i.qtyStep)
  {
    var zone := ExactZone(i);
    assert zone.TpDistance() == i.tickSize;
    QuotientBack(Times(i.tickSize, i.qtyStep), i.tickSize);
    SameFactor(RawQuantity(zone, 0.0), i.qtyStep, i.tickSize);
    assert Times(1 as real, i.qtyStep) == i.qtyStep;
    GridIsFixed(1, i.qtyStep);
    GridIsFixed(2, i.tickSize);
    GridIsFixed(1, i.tickSize);
  }

  /** The coverage rejection can never fire on an instrument exactly when its
      contract multiplier is at least one. */
  lemma CoverageIffMultiplier(i: Instrument, limits: RiskLimits)
    ensures AlwaysCovers(i) <==> i.multiplier >= 1.0
  {
    if i.multiplier >= 1.0 {
      forall zone: Zone, confirmed: real, l | confirmed >= 0.0 ensures CoversAt(i, zone, confirmed, l) {
        PlanCovers(zone, confirmed, i, l);
      }
    } else {
      ExactZoneIsNotRounded(i, limits);
      TimesGrows(i.multiplier, 1.0, i.tickSize);
      assert Times(i.multiplier, i.tickSize) == Times(i.tickSize, i.multiplier);
      TimesGrows(Times(i.tickSize, i.multiplier), i.tickSize, i.qtyStep);
      assert !CoversAt(i, ExactZone(i), 0.0, limits);
    }
  }

  /** From plan to settlement: an approved plan claims the whole debt, and a
      take-profit that realizes at least what was planned leaves none of it. */
  lemma PlannedRecoveryClearsDebt(zone: Zone, debt: DebtState, i: Instrument, risk: RiskState, limits: RiskLimits,
                                  realized: real)
    requires debt.Valid() && debt.confirmed > 0.0
    requires PlanEntry(zone, debt, i, risk, limits).Plan? && PlanEntry(zone, debt, i, risk, limits).approved
    requires realized >= PlanEntry(zone, debt, i, risk, limits).expectedTakeProfit
    ensures var plan := PlanEntry(zone, debt, i, risk, limits);
            var held := AllocateConfirmedDebt(debt);
            && held.Ok? && held.debt.allotted == plan.allocatedDebt == debt.confirmed
            && var settled := SettleRecoveryTakeProfit(held.debt, realized, zone.budget);
               settled == Ok(Debt(debt.projected, 0.0, 0.0, 0.0))
  {
    var q := QuantizedEntry(zone, debt.confirmed, i, limits);
    var first := q.errors + When(q.tpProfit < zone.budget + debt.confirmed, CoverageRejection);
    assert |first| == 0;
    assert |When(q.tpProfit < zone.budget + debt.confirmed, CoverageRejection)| == 0;
  }

  /** On an instrument with multiplier at least one a plan is refused for rounding
      or risk reasons only, never for coverage. */
  lemma CoverageNeverRejects(zone: Zone, debt: DebtState, i: Instrument, risk: RiskState, limits: RiskLimits)
    requires debt.Valid() && i.multiplier >= 1.0 && PlanEntry(zone, debt, i, risk, limits).Plan?
    ensures var q := QuantizedEntry(zone, debt.confirmed, i, limits);
            PlanEntry(zone, debt, i, risk, limits).reasons
            == if q.Accepted()
               then Reasons(Proposal(q.quantity, q.entry, q.notional, q.projectedStopLoss, true), risk, limits)
               else q.errors
  {
    PlanCovers(zone, debt.confirmed, i, limits);
    var q := QuantizedEntry(zone, debt.confirmed, i, limits);
    assert q.errors + [] == q.errors;
  }
}
