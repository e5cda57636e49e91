/** The shadow decides exactly what the live coordinator submits, and what the
    coordinator submits respects the limits. */
module ShadowFidelity {
  import opened Products
  import opened VirtualLevels
  import opened InstrumentRules
  import opened LiveRisk
  import opened TriggerModel

  /** The two services have seen the same feed and settled the same levels. */
  ghost predicate Matched(s: Shadow, l: Live) {
    && s.link == l.link && s.armed == l.armed && s.decided == l.submitted.Keys
    && s.armed !! s.decided
  }

  /** The conditions under which the shadow stands for the live service. */
  predicate Faithful(d: Desk, o: Observation, levels: seq<Level>) {
    && d.instrument.multiplier == 1.0 && d.spreadOpen && o.gateOpen
    && forall i: nat | i < |levels| :: o.completes(i)
  }

  datatype Decision = Decision(level: nat, quantity: real)

  function ApprovedIntents(intents: seq<Intent>): seq<Decision> {
    if |intents| == 0 then []
    else (if intents[0].approved then [Decision(intents[0].level, intents[0].quantity)] else [])
         + ApprovedIntents(intents[1..])
  }

  function Submissions(entries: seq<Submission>): seq<Decision> {
    if |entries| == 0 then [] else [Decision(entries[0].level, entries[0].quantity)] + Submissions(entries[1..])
  }

  /** On a level that is not settled yet both services come to the same answer. */
  lemma SameVerdict(d: Desk, level: Level, i: nat, l: Live, risk: RiskState)
    requires d.spreadOpen && d.instrument.multiplier == 1.0 && i !in l.submitted
    ensures |ShadowReasons(d, level, risk)| == 0 <==> |LiveReasons(d, level, i, l, true, risk)| == 0
    ensures EntryOrder(d, level, risk.recoveryDebt).quantity == EntryOrder(d, level, 0.0).quantity
    ensures Times(EntryOrder(d, level, 0.0).quantity, EntryOrder(d, level, 0.0).entry)
            == EntryOrder(d, level, 0.0).notional
    ensures EntryOrder(d, level, risk.recoveryDebt).entry == EntryOrder(d, level, 0.0).entry
  {
    var v := NormalizeAndValidateOrder(d.instrument, Sell, d.quantity, level.zone.entry, Passive);
    DebtDoesNotDecide(v, d.instrument, Sell, level.zone.tp, level.zone.stop, risk.recoveryDebt,
                      d.limits.perpNotional, d.limits.projectedStopLoss);
    var q := EntryOrder(d, level, 0.0);
    assert Times(Times(q.entry, q.quantity), 1.0) == Times(q.quantity, q.entry);
  }

  function IntentDecision(intent: Intent): seq<Decision> {
    if intent.approved then [Decision(intent.level, intent.quantity)] else []
  }

  function VerdictDecision(verdict: Verdict): seq<Decision> {
    if verdict.Submitted? then [Decision(verdict.entry.level, verdict.entry.quantity)] else []
  }

  /** One crossed level: the same decision, the same risk after it, still matched. */
  lemma OneAgrees(d: Desk, ids: OrderIds, level: Level, i: nat, s: Shadow, l: Live, o: Observation, risk: RiskState)
    requires d.instrument.multiplier == 1.0 && d.spreadOpen && o.gateOpen && o.completes(i)
    requires Matched(s, l) && i in s.armed
    ensures var a := ShadowOne(d, level, i, s, risk);
            var b := LiveOne(d, ids, level, i, l, o, risk);
            && Matched(a.0, b.0) && a.0.armed == s.armed - {i} && !b.1.Raised?
            && IntentDecision(a.1) == VerdictDecision(b.1) && a.2 == b.2
  {
    SameVerdict(d, level, i, l.(armed := l.armed - {i}), risk);
  }

  lemma {:induction false} DecisionsAgree(d: Desk, ids: OrderIds, levels: seq<Level>, crossed: seq<nat>, s: Shadow,
                                          l: Live, o: Observation, risk: RiskState)
    requires Faithful(d, o, levels) && Matched(s, l)
    requires forall k | 0 <= k < |crossed| :: crossed[k] < |levels| && crossed[k] in s.armed
    requires forall j, k | 0 <= j < k < |crossed| :: crossed[j] < crossed[k]
    ensures var a := ShadowDecide(d, levels, crossed, s, risk);
            var b := LiveDecide(d, ids, levels, crossed, l, o, risk);
            && Matched(a.0, b.0) && !b.1.raised
            && ApprovedIntents(a.1) == Submissions(b.1.entries)
  {
    if |crossed| > 0 {
      var i, tail := crossed[0], crossed[1..];
      OneAgrees(d, ids, levels[i], i, s, l, o, risk);
      var a := ShadowOne(d, levels[i], i, s, risk);
      var b := LiveOne(d, ids, levels[i], i, l, o, risk);
      forall k | 0 <= k < |tail| ensures tail[k] < |levels| && tail[k] in a.0.armed {
        assert tail[k] == crossed[k + 1];
      }
      DecisionsAgree(d, ids, levels, tail, a.0, b.0, o, a.2);
      IntentsGrow(a.1, ShadowDecide(d, levels, tail, a.0, a.2).1);
      EntriesGrow(i, b.1, LiveDecide(d, ids, levels, tail, b.0, o, b.2).1);
    }
  }

  lemma IntentsGrow(first: Intent, rest: seq<Intent>)
    ensures ApprovedIntents([first] + rest) == IntentDecision(first) + ApprovedIntents(rest)
  {
    assert ([first] + rest)[1..] == rest;
  }

  lemma EntriesGrow(i: nat, verdict: Verdict, rest: LiveResult)
    requires !verdict.Raised?
    ensures Submissions(Prepend(i, verdict, rest).entries) == VerdictDecision(verdict) + Submissions(rest.entries)
  {
    if verdict.Submitted? { assert ([verdict.entry] + rest.entries)[1..] == rest.entries; }
  }

  lemma ArmingKeepsMatched(levels: seq<Level>, s: Shadow, l: Live, link: Link, price: real)
    requires Matched(s, l)
    ensures Matched(s.(link := link, armed := Restarted(levels, s.decided, price)),
                    l.(link := link, armed := Restarted(levels, l.submitted.Keys, price)))
    ensures Matched(s.(link := link, armed := Rearmed(levels, s.armed, s.decided, price)),
                    l.(link := link, armed := Rearmed(levels, l.armed, l.submitted.Keys, price)))
  {}

  lemma TriggersAgree(d: Desk, ids: OrderIds, levels: seq<Level>, s: Shadow, l: Live, o: Observation)
    requires Faithful(d, o, levels) && Matched(s, l)
    requires s.link.Linked? && o.event.generation == s.link.generation && o.event.symbol == d.instrument.symbol
    requires o.event.source == LastTrade && o.health.tradingAllowed
    ensures var a := ShadowStep(d, levels, s, o);
            var b := LiveStep(d, ids, levels, l, o);
            && Matched(a.0, b.0) && !b.1.raised
            && ApprovedIntents(a.1.intents) == Submissions(b.1.entries)
            && a.1.reasons == []
  {
    var price, link := o.event.price, Linked(s.link.generation, o.event.price);
    var armed := Rearmed(levels, s.armed, s.decided, price);
    ArmingKeepsMatched(levels, s, l, link, price);
    DecisionsAgree(d, ids, levels, Crossed(levels, armed, s.link.previous, price),
                   s.(link := link, armed := armed), l.(link := link, armed := armed), o, o.risk);
  }

  lemma StepsAgree(d: Desk, ids: OrderIds, levels: seq<Level>, s: Shadow, l: Live, o: Observation)
    requires Faithful(d, o, levels) && Matched(s, l)
    ensures var a := ShadowStep(d, levels, s, o);
            var b := LiveStep(d, ids, levels, l, o);
            && Matched(a.0, b.0) && !b.1.raised
            && ApprovedIntents(a.1.intents) == Submissions(b.1.entries)
  {
    var e := o.event;
    if s.link.Linked? && e.generation == s.link.generation && e.symbol == d.instrument.symbol
       && e.source == LastTrade && o.health.tradingAllowed {
      TriggersAgree(d, ids, levels, s, l, o);
    } else {
      ArmingKeepsMatched(levels, s, l, Linked(e.generation, e.price), e.price);
    }
  }

  // ----- whole feeds

  /** One observation and the levels as they stood at that call. */
  datatype Moment = Moment(levels: seq<Level>, observation: Observation)

  /** The levels are the same at every call, whatever their states. */
  ghost predicate Listed(feed: seq<Moment>) {
    forall m, n | m in feed && n in feed :: SameZones(m.levels, n.levels)
  }

  predicate SameZones(a: seq<Level>, b: seq<Level>) {
    |a| == |b| && forall i: nat | i < |a| :: a[i].zone == b[i].zone
  }

  function ShadowRun(d: Desk, feed: seq<Moment>): (Shadow, seq<Decision>)
  {
    if |feed| == 0 then (FRESH_SHADOW, [])
    else
      var last := |feed| - 1;
      var before := ShadowRun(d, feed[..last]);
      var step := ShadowStep(d, feed[last].levels, before.0, feed[last].observation);
      (step.0, before.1 + ApprovedIntents(step.1.intents))
  }

  function LiveRun(d: Desk, ids: OrderIds, feed: seq<Moment>): (Live, seq<Decision>) {
    if |feed| == 0 then (FRESH_LIVE, [])
    else
      var last := |feed| - 1;
      var before := LiveRun(d, ids, feed[..last]);
      var step := LiveStep(d, ids, feed[last].levels, before.0, feed[last].observation);
      (step.0, before.1 + Submissions(step.1.entries))
  }

  /** Over every feed the approved shadow intents are exactly the live
      submissions: same levels, same quantities, same order. */
  lemma {:induction false} ShadowIsFaithful(d: Desk, ids: OrderIds, feed: seq<Moment>)
    requires forall m | m in feed :: Faithful(d, m.observation, m.levels)
    ensures Matched(ShadowRun(d, feed).0, LiveRun(d, ids, feed).0)
    ensures ShadowRun(d, feed).1 == LiveRun(d, ids, feed).1
  {
    if |feed| > 0 {
      var last := |feed| - 1;
      ShadowIsFaithful(d, ids, feed[..last]);
      assert feed[last] in feed;
      StepsAgree(d, ids, feed[last].levels, ShadowRun(d, feed[..last]).0, LiveRun(d, ids, feed[..last]).0,
                 feed[last].observation);
    }
  }
}
