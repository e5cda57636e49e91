/** The reasons for which an order, a plan or a price event is turned down. */
module RejectionReasons {
  datatype Reason =
    // order validation
    | InstrumentNotTrading
    | QuantityBelowMinimum
    | QuantityAboveMaximum
    | PriceBelowMinimum
    | PriceAboveMaximum
    | NotionalBelowMinimum
    | QuantityRounded
    | PriceRounded
    // amounts after rounding
    | TakeProfitNotProfitable
    | StopNotAdverse
    | RecoveryProfitIsZero
    | NotionalAboveLimit
    | StopLossAboveLimit
    | CoverageRejection
    // the risk engine
    | MaximumQuantity
    | MaximumNotional
    | MaximumMarginUsage
    | MinimumLiquidationDistance
    | MaximumRecoveryDebt
    | MaximumStopLoss
    | MaximumCycleLoss
    | MaximumDailyLoss
    | MaximumEntriesForLevel
    | MaximumActiveLevels
    | MaximumOrderRate
    | MaximumReconciliationFailures
    | MarketDataStale
    | NotReconciled
    // triggers
    | WrongSymbol
    | WrongSource
    | StaleGeneration
    | ChangedGeneration
    | LevelNotReady
    | SpreadClosed
    | AlreadySubmitted
    | GateClosed
    | FeedUnhealthy(text: string)

  function When(condition: bool, reason: Reason): seq<Reason> {
    if condition then [reason] else []
  }

  lemma InThree(a: seq<Reason>, b: seq<Reason>, c: seq<Reason>, reason: Reason)
    ensures reason in a + b + c <==> reason in a || reason in b || reason in c
  {}
}
