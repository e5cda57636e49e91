/** The two services that watch the same price feed: the shadow service, which
    only records what it would do, and the live coordinator, which submits
    entries. Here as functions; the services themselves are classes proved
    against them. */
module TriggerModel {
  import opened Products
  import opened VirtualLevels
  import opened InstrumentRules
  import opened LiveRisk
  import opened RejectionReasons

  datatype PriceSource = LastTrade | MarkPrice | IndexPrice

  datatype TriggerEvent = TriggerEvent(symbol: Symbol, source: PriceSource, price: real, generation: nat)

  datatype Health = Health(tradingAllowed: bool, reasons: seq<Reason>)

  /** What both services share: instrument, limits, desired quantity, and whether
      the option spread is open. */
  datatype Setup = Desk(instrument: Instrument, limits: RiskLimits, quantity: real, spreadOpen: bool)

  /** Both constructors demand the linear ETHUSDT instrument. The coordinator takes
      the matched quantity of the spread, which may be zero. */
  type Desk = d: Setup | d.instrument.symbol == EthUsdt && d.instrument.category == Linear && d.quantity >= 0.0
    witness Setup.Desk(Spec.Instrument(EthUsdt, Linear, Trading, 1.0, NoLimit, NoLimit, 1.0, 1.0, 1.0, NoLimit, 1.0),
                       LimitFigures.RiskLimits(1.0, 1.0, 1.0, 1.0, 1.0, 1.0, 1.0, 1.0, 1, 1, 1, 1), 0.0, true)

  /** Levels are listed from the highest entry down, as both constructors demand. */
  predicate HighestFirst(levels: seq<Level>) {
    forall j, k | 0 <= j < k < |levels| :: levels[j].zone.entry >= levels[k].zone.entry
  }

  /** One call: the event, the feed health, the risk state, the entry gate, and
      which submissions the entry service completes. */
  datatype Observation = Observation(event: TriggerEvent, health: Health, risk: RiskState, gateOpen: bool,
                                     completes: nat -> bool)

  /** The feed segment being followed: its connection generation and last price. */
  datatype Link = Unlinked | Linked(generation: nat, previous: real)

  // ----- arming and crossing

  /** Levels at or below the price that are not done yet become armed. */
  function Rearmed(levels: seq<Level>, armed: set<nat>, done: set<nat>, price: real): set<nat> {
    armed + set i: nat | i < |levels| && price >= levels[i].zone.entry && i !in done
  }

  /** The armed set at the start of a feed segment. */
  function Restarted(levels: seq<Level>, done: set<nat>, price: real): set<nat> {
    set i: nat | i < |levels| && price >= levels[i].zone.entry && i !in done
  }

  predicate Crosses(level: Level, previous: real, current: real) {
    previous > level.zone.entry && current <= level.zone.entry
  }

  /** The armed levels crossed from `previous` to `current`, highest entry first. */
  function Crossed(levels: seq<Level>, armed: set<nat>, previous: real, current: real): (r: seq<nat>)
    ensures forall k | 0 <= k < |r| :: r[k] < |levels| && r[k] in armed && Crosses(levels[r[k]], previous, current)
    ensures forall i: nat | i < |levels| && i in armed && Crosses(levels[i], previous, current) :: i in r
    ensures forall j, k | 0 <= j < k < |r| :: r[j] < r[k]
  {
    if |levels| == 0 then []
    else
      var last: nat := |levels| - 1;
      var rest := Crossed(levels[..last], armed, previous, current);
      if last in armed && Crosses(levels[last], previous, current) then rest + [last] else rest
  }

  // ----- the order a level would place

  function EntryOrder(d: Desk, level: Level, debt: real): (q: QuantizedRisk)
    requires debt >= 0.0
    ensures q.quantity >= 0.0 && q.entry > 0.0 && q.notional >= 0.0 && Times(q.quantity, q.entry) >= 0.0
  {
    OrderIsNotNegative(d, level);
    var v := NormalizeAndValidateOrder(d.instrument, Sell, d.quantity, level.zone.entry, Passive);
    RecalculateQuantizedRisk(v, d.instrument, Sell, level.zone.tp, level.zone.stop, debt,
                             d.limits.perpNotional, d.limits.projectedStopLoss)
  }

  lemma OrderIsNotNegative(d: Desk, level: Level)
    ensures var v := NormalizeAndValidateOrder(d.instrument, Sell, d.quantity, level.zone.entry, Passive);
            && v.quantity >= 0.0 && v.price > 0.0
            && Times(Times(v.price, v.quantity), d.instrument.multiplier) >= 0.0 && Times(v.quantity, v.price) >= 0.0
  {
    var v := NormalizeAndValidateOrder(d.instrument, Sell, d.quantity, level.zone.entry, Passive);
    StepRounding(level.zone.entry, d.instrument.tickSize);
    FloorIsNotNegative(d.quantity, d.instrument.qtyStep);
    TimesLe(0.0, v.quantity, v.price);
    TimesLe(0.0, Times(v.price, v.quantity), d.instrument.multiplier);
    TimesZero(v.price);
  }

  function EntryProposal(q: QuantizedRisk): TradeProposal {
    Proposal(q.quantity, q.entry, q.notional, q.projectedStopLoss, true)
  }

  // ----- the shadow service

  datatype Intent = Intent(sequence: nat, level: nat, quantity: real, approved: bool, reasons: seq<Reason>,
                           entry: real, tp: real, stop: real, expectedTpPnl: real, projectedStopLoss: real)

  datatype Shadow = Shadow(link: Link, armed: set<nat>, decided: set<nat>, sequence: nat)

  datatype ShadowResult = ShadowResult(intents: seq<Intent>, reasons: seq<Reason>)

  function ShadowReasons(d: Desk, level: Level, risk: RiskState): seq<Reason>
  {
    var q := EntryOrder(d, level, risk.recoveryDebt);
    if level.state != Ready then [LevelNotReady]
    else if !d.spreadOpen then [SpreadClosed]
    else if !q.Accepted() then q.errors
    else Reasons(EntryProposal(q), risk, d.limits)
  }

  function Evaluate(d: Desk, level: Level, i: nat, sequence: nat, risk: RiskState): Intent
  {
    var q := EntryOrder(d, level, risk.recoveryDebt);
    var reasons := ShadowReasons(d, level, risk);
    Intent(sequence, i, q.quantity, |reasons| == 0, reasons, q.entry, q.tp, q.stop, q.tpProfit, q.projectedStopLoss)
  }

  /** The shadow adds the notional as quantity times entry price, without the
      contract multiplier. */
  function ShadowRiskAfter(risk: RiskState, intent: Intent): RiskState
    requires intent.approved ==> intent.quantity >= 0.0 && Times(intent.quantity, intent.entry) >= 0.0
  {
    if intent.approved then AfterEntry(risk, intent.quantity, Times(intent.quantity, intent.entry)) else risk
  }

  /** One crossed level decided: the state and risk after it, and the intent. */
  function ShadowOne(d: Desk, level: Level, i: nat, s: Shadow, risk: RiskState): (Shadow, Intent, RiskState) {
    var intent := Evaluate(d, level, i, s.sequence + 1, risk);
    (s.(armed := s.armed - {i}, sequence := s.sequence + 1,
        decided := if intent.approved then s.decided + {i} else s.decided),
     intent, ShadowRiskAfter(risk, intent))
  }

  function ShadowDecide(d: Desk, levels: seq<Level>, crossed: seq<nat>, s: Shadow, risk: RiskState)
    : (Shadow, seq<Intent>)
    requires forall k | 0 <= k < |crossed| :: crossed[k] < |levels|
  {
    if |crossed| == 0 then (s, [])
    else
      var one := ShadowOne(d, levels[crossed[0]], crossed[0], s, risk);
      var rest := ShadowDecide(d, levels, crossed[1..], one.0, one.2);
      (rest.0, [one.1] + rest.1)
  }

  /** A price within the segment being followed: arm, find the crossed levels, decide. */
  function ShadowProcess(d: Desk, levels: seq<Level>, s: Shadow, o: Observation): (Shadow, seq<Intent>)
    requires s.link.Linked?
  {
    var price := o.event.price;
    var armed := Rearmed(levels, s.armed, s.decided, price);
    ShadowDecide(d, levels, Crossed(levels, armed, s.link.previous, price),
                 s.(link := Linked(s.link.generation, price), armed := armed), o.risk)
  }

  function ShadowStep(d: Desk, levels: seq<Level>, s: Shadow, o: Observation): (Shadow, ShadowResult)
  {
    var e := o.event;
    var restarted := s.(link := Linked(e.generation, e.price), armed := Restarted(levels, s.decided, e.price));
    if e.symbol != d.instrument.symbol then (s, ShadowResult([], [WrongSymbol]))
    else if e.source != LastTrade then (s, ShadowResult([], [WrongSource]))
    else if !o.health.tradingAllowed then (s, ShadowResult([], o.health.reasons))
    else if s.link.Unlinked? then (restarted, ShadowResult([], []))
    else if e.generation < s.link.generation then (s, ShadowResult([], [StaleGeneration]))
    else if e.generation > s.link.generation then (restarted, ShadowResult([], [ChangedGeneration]))
    else
      var decided := ShadowProcess(d, levels, s, o);
      (decided.0, ShadowResult(decided.1, []))
  }

  // ----- the live coordinator

  datatype Submission = Submission(level: nat, quantity: real, orderId: string)
  datatype Block = Block(level: nat, reasons: seq<Reason>)

  datatype Live = Live(link: Link, armed: set<nat>, attempts: map<nat, nat>, submitted: map<nat, string>)

  /** `raised` when a submission did not complete: the call ends there, and the
      entries are what had been submitted before it. */
  datatype LiveResult = LiveResult(entries: seq<Submission>, blocked: seq<Block>, reasons: seq<Reason>, raised: bool)

  type OrderIds = (nat, nat) -> string

  function Attempt(s: Live, i: nat): nat {
    if i in s.attempts then s.attempts[i] + 1 else 1
  }

  /** Why a crossed level is not submitted; empty when it is. */
  function LiveReasons(d: Desk, level: Level, i: nat, s: Live, gateOpen: bool, risk: RiskState): seq<Reason> {
    var q := EntryOrder(d, level, 0.0);
    if !gateOpen then [GateClosed]
    else if i in s.submitted then [AlreadySubmitted]
    else if level.state != Ready then [LevelNotReady]
    else if !d.spreadOpen then [SpreadClosed]
    else if !q.Accepted() then q.errors
    else Reasons(EntryProposal(q), risk, d.limits)
  }

  /** What one crossed level comes to. */
  datatype Verdict = Blocked(reasons: seq<Reason>) | Raised | Submitted(entry: Submission)

  /** One crossed level handled: the state and risk after it, and the verdict.
      A level whose submission does not complete stays marked as submitted. */
  function LiveOne(d: Desk, ids: OrderIds, level: Level, i: nat, s: Live, o: Observation, risk: RiskState)
    : (Live,
                   Verdict, RiskState) {
    var q := EntryOrder(d, level, 0.0);
    var disarmed := s.(armed := s.armed - {i});
    var reasons := LiveReasons(d, level, i, disarmed, o.gateOpen, risk);
    if |reasons| > 0 then (disarmed, Blocked(reasons), risk)
    else
      var attempt := Attempt(s, i);
      var after := disarmed.(attempts := s.attempts[i := attempt], submitted := s.submitted[i := ids(i, attempt)]);
      if !o.completes(i) then (after, Raised, risk)
      else (after, Submitted(Submission(i, q.quantity, ids(i, attempt))), AfterEntry(risk, q.quantity, q.notional))
  }

  function Prepend(i: nat, verdict: Verdict, rest: LiveResult): LiveResult {
    match verdict
    case Blocked(reasons) => rest.(blocked := [Block(i, reasons)] + rest.blocked)
    case Submitted(entry) => rest.(entries := [entry] + rest.entries)
    case Raised => rest
  }

  function LiveDecide(d: Desk, ids: OrderIds, levels: seq<Level>, crossed: seq<nat>, s: Live, o: Observation,
                      risk: RiskState): (Live, LiveResult)
    requires forall k | 0 <= k < |crossed| :: crossed[k] < |levels|
  {
    if |crossed| == 0 then (s, LiveResult([], [], [], false))
    else
      var one := LiveOne(d, ids, levels[crossed[0]], crossed[0], s, o, risk);
      if one.1.Raised? then (one.0, LiveResult([], [], [], true))
      else
        var rest := LiveDecide(d, ids, levels, crossed[1..], one.0, o, one.2);
        (rest.0, Prepend(crossed[0], one.1, rest.1))
  }

  function LiveProcess(d: Desk, ids: OrderIds, levels: seq<Level>, s: Live, o: Observation): (Live, LiveResult)
    requires s.link.Linked?
  {
    var price := o.event.price;
    var armed := Rearmed(levels, s.armed, s.submitted.Keys, price);
    LiveDecide(d, ids, levels, Crossed(levels, armed, s.link.previous, price),
               s.(link := Linked(s.link.generation, price), armed := armed), o, o.risk)
  }

  function LiveStep(d: Desk, ids: OrderIds, levels: seq<Level>, s: Live, o: Observation): (Live, LiveResult) {
    var e := o.event;
    var restarted := s.(link := Linked(e.generation, e.price), armed := Restarted(levels, s.submitted.Keys, e.price));
    if e.symbol != d.instrument.symbol then (s, LiveResult([], [], [WrongSymbol], false))
    else if e.source != LastTrade then (s, LiveResult([], [], [WrongSource], false))
    else if !o.health.tradingAllowed then (s, LiveResult([], [], o.health.reasons, false))
    else if s.link.Unlinked? then (restarted, LiveResult([], [], [], false))
    else if e.generation < s.link.generation then (s, LiveResult([], [], [StaleGeneration], false))
    else if e.generation > s.link.generation then (restarted, LiveResult([], [], [ChangedGeneration], false))
    else LiveProcess(d, ids, levels, s, o)
  }

  const FRESH_SHADOW := Shadow(Unlinked, {}, {}, 0)
  const FRESH_LIVE := Live(Unlinked, {}, map[], map[])
}
