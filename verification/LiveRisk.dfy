/** The finite-limit risk gate for live trade proposals. */
module LiveRisk {
  import opened RejectionReasons

  datatype TradeProposal = Proposal(quantity: real, price: real, notional: real, projectedStopLoss: real,
                                    opensNewLevel: bool)

  datatype RiskFigures = RiskFigures(
    perpQuantity: real,
    perpNotional: real,
    marginUsage: real,
    liquidationDistance: real,
    recoveryDebt: real,
    cycleLoss: real,
    dailyLoss: real,
    entriesForLevel: nat,
    activeLevels: nat,
    orderRequests: nat,
    reconciliationFailures: nat,
    marketDataFresh: bool,
    reconciled: bool)

  /** What the program's constructor demands: no figure is negative. */
  type RiskState = r: RiskFigures
    | r.perpQuantity >= 0.0 && r.perpNotional >= 0.0 && r.marginUsage >= 0.0 && r.liquidationDistance >= 0.0
      && r.recoveryDebt >= 0.0 && r.cycleLoss >= 0.0 && r.dailyLoss >= 0.0
    witness RiskFigures(0.0, 0.0, 0.0, 0.0, 0.0, 0.0, 0.0, 0, 0, 0, 0, true, true)

  datatype LimitFigures = RiskLimits(
    perpQuantity: real,
    perpNotional: real,
    marginUsage: real,
    liquidationDistance: real,
    recoveryDebt: real,
    projectedStopLoss: real,
    cycleLoss: real,
    dailyLoss: real,
    entriesPerLevel: nat,
    activeLevels: nat,
    orderRequests: nat,
    reconciliationFailures: nat)

  /** What the program's constructor demands: every limit is positive. */
  type RiskLimits = l: LimitFigures
    | l.perpQuantity > 0.0 && l.perpNotional > 0.0 && l.marginUsage > 0.0 && l.liquidationDistance > 0.0
      && l.recoveryDebt > 0.0 && l.projectedStopLoss > 0.0 && l.cycleLoss > 0.0 && l.dailyLoss > 0.0
      && l.entriesPerLevel > 0 && l.activeLevels > 0 && l.orderRequests > 0 && l.reconciliationFailures > 0
    witness LimitFigures.RiskLimits(1.0, 1.0, 1.0, 1.0, 1.0, 1.0, 1.0, 1.0, 1, 1, 1, 1)

  /** All reasons against a proposal, in the order of the checks. */
  function Reasons(p: TradeProposal, s: RiskState, l: RiskLimits): seq<Reason> {
    ExposureReasons(p, s, l) + LossReasons(p, s, l) + StateReasons(p, s, l)
  }

  /** What the position would come to. */
  function ExposureReasons(p: TradeProposal, s: RiskState, l: RiskLimits): seq<Reason> {
    When(s.perpQuantity + p.quantity > l.perpQuantity, MaximumQuantity)
    + When(s.perpNotional + p.notional > l.perpNotional, MaximumNotional)
    + When(s.marginUsage > l.marginUsage, MaximumMarginUsage)
    + When(s.liquidationDistance < l.liquidationDistance, MinimumLiquidationDistance)
  }

  /** What is owed or lost, or could be. */
  function LossReasons(p: TradeProposal, s: RiskState, l: RiskLimits): seq<Reason> {
    When(s.recoveryDebt > l.recoveryDebt, MaximumRecoveryDebt)
    + When(p.projectedStopLoss > l.projectedStopLoss, MaximumStopLoss)
    + When(s.cycleLoss > l.cycleLoss, MaximumCycleLoss)
    + When(s.dailyLoss > l.dailyLoss, MaximumDailyLoss)
  }

  /** The counts so far, the feed and the reconciliation. */
  function StateReasons(p: TradeProposal, s: RiskState, l: RiskLimits): seq<Reason> {
    When(s.entriesForLevel >= l.entriesPerLevel, MaximumEntriesForLevel)
    + When(p.opensNewLevel && s.activeLevels >= l.activeLevels, MaximumActiveLevels)
    + When(s.orderRequests >= l.orderRequests, MaximumOrderRate)
    + When(s.reconciliationFailures >= l.reconciliationFailures, MaximumReconciliationFailures)
    + When(!s.marketDataFresh, MarketDataStale)
    + When(!s.reconciled, NotReconciled)
  }

  /** The conditions the reasons stand for. */
  predicate ExposureBreach(reason: Reason, p: TradeProposal, s: RiskState, l: RiskLimits) {
    || (reason == MaximumQuantity && s.perpQuantity + p.quantity > l.perpQuantity)
    || (reason == MaximumNotional && s.perpNotional + p.notional > l.perpNotional)
    || (reason == MaximumMarginUsage && s.marginUsage > l.marginUsage)
    || (reason == MinimumLiquidationDistance && s.liquidationDistance < l.liquidationDistance)
  }

  predicate LossBreach(reason: Reason, p: TradeProposal, s: RiskState, l: RiskLimits) {
    || (reason == MaximumRecoveryDebt && s.recoveryDebt > l.recoveryDebt)
    || (reason == MaximumStopLoss && p.projectedStopLoss > l.projectedStopLoss)
    || (reason == MaximumCycleLoss && s.cycleLoss > l.cycleLoss)
    || (reason == MaximumDailyLoss && s.dailyLoss > l.dailyLoss)
  }

  predicate StateBreach(reason: Reason, p: TradeProposal, s: RiskState, l: RiskLimits) {
    || (reason == MaximumEntriesForLevel && s.entriesForLevel >= l.entriesPerLevel)
    || (reason == MaximumActiveLevels && p.opensNewLevel && s.activeLevels >= l.activeLevels)
    || (reason == MaximumOrderRate && s.orderRequests >= l.orderRequests)
    || (reason == MaximumReconciliationFailures && s.reconciliationFailures >= l.reconciliationFailures)
    || (reason == MarketDataStale && !s.marketDataFresh)
    || (reason == NotReconciled && !s.reconciled)
  }

  lemma ExposureReasonIn(p: TradeProposal, s: RiskState, l: RiskLimits, reason: Reason)
    ensures reason in ExposureReasons(p, s, l) <==> ExposureBreach(reason, p, s, l)
  {}

  lemma LossReasonIn(p: TradeProposal, s: RiskState, l: RiskLimits, reason: Reason)
    ensures reason in LossReasons(p, s, l) <==> LossBreach(reason, p, s, l)
  {}

  lemma StateReasonIn(p: TradeProposal, s: RiskState, l: RiskLimits, reason: Reason)
    ensures reason in StateReasons(p, s, l) <==> StateBreach(reason, p, s, l)
  {}

  /** A reason is given exactly when its condition holds; other reasons never are. */
  lemma ReasonsAreTheBreaches(p: TradeProposal, s: RiskState, l: RiskLimits, reason: Reason)
    ensures reason in Reasons(p, s, l)
            <==> ExposureBreach(reason, p, s, l) || LossBreach(reason, p, s, l) || StateBreach(reason, p, s, l)
  {
    InThree(ExposureReasons(p, s, l), LossReasons(p, s, l), StateReasons(p, s, l), reason);
    ExposureReasonIn(p, s, l, reason);
    LossReasonIn(p, s, l, reason);
    StateReasonIn(p, s, l, reason);
  }

  /** The state itself, whatever is proposed, lets an entry through. */
  predicate Healthy(s: RiskFigures, l: RiskLimits) {
    && s.marginUsage <= l.marginUsage && s.liquidationDistance >= l.liquidationDistance
    && s.recoveryDebt <= l.recoveryDebt && s.cycleLoss <= l.cycleLoss && s.dailyLoss <= l.dailyLoss
    && s.entriesForLevel < l.entriesPerLevel && s.orderRequests < l.orderRequests
    && s.reconciliationFailures < l.reconciliationFailures && s.marketDataFresh && s.reconciled
  }

  /** A proposal is approved exactly when all fourteen conditions hold. */
  lemma ApprovedIffWithinAll(p: TradeProposal, s: RiskState, l: RiskLimits)
    ensures Approves(p, s, l) <==>
              && Healthy(s, l) && p.projectedStopLoss <= l.projectedStopLoss
              && s.perpQuantity + p.quantity <= l.perpQuantity && s.perpNotional + p.notional <= l.perpNotional
              && (p.opensNewLevel ==> s.activeLevels < l.activeLevels)
  {
  }

  predicate Approves(p: TradeProposal, s: RiskState, l: RiskLimits) {
    |Reasons(p, s, l)| == 0
  }

  /** The totals a proposal would lead to stay within the limits. */
  predicate WithinLimits(s: RiskState, l: RiskLimits) {
    && s.perpQuantity <= l.perpQuantity && s.perpNotional <= l.perpNotional
    && s.activeLevels <= l.activeLevels && s.orderRequests <= l.orderRequests
  }

  /** The risk state after one more approved entry. */
  function AfterEntry(s: RiskState, quantity: real, notional: real): RiskState
    requires quantity >= 0.0 && notional >= 0.0
  {
    s.(perpQuantity := s.perpQuantity + quantity, perpNotional := s.perpNotional + notional,
       activeLevels := s.activeLevels + 1, orderRequests := s.orderRequests + 1)
  }

  /** An approved entry leaves the totals within the limits. */
  lemma ApprovalKeepsLimits(p: TradeProposal, s: RiskState, l: RiskLimits)
    requires Approves(p, s, l) && p.opensNewLevel && p.quantity >= 0.0 && p.notional >= 0.0
    ensures WithinLimits(AfterEntry(s, p.quantity, p.notional), l)
  {
    assert |When(s.perpQuantity + p.quantity > l.perpQuantity, MaximumQuantity)| == 0;
    assert |When(s.perpNotional + p.notional > l.perpNotional, MaximumNotional)| == 0;
    assert |When(p.opensNewLevel && s.activeLevels >= l.activeLevels, MaximumActiveLevels)| == 0;
    assert |When(s.orderRequests >= l.orderRequests, MaximumOrderRate)| == 0;
  }
}
