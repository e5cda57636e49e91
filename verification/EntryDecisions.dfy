/** Exactly when the live coordinator submits an entry: at every call of every feed,
    level by level, with the conditions written out. */
module EntryDecisions {
  import opened Sums
  import opened Products
  import opened VirtualLevels
  import opened InstrumentRules
  import opened LiveRisk
  import opened TriggerModel
  import opened ShadowFidelity
  import opened BatchSafety
  import opened RejectionReasons

  // ----- one level

  /** What the coordinator asks of a level that was crossed, on top of the rounding
      rules: an open gate and spread, a ready level, a healthy risk state, and room
      for the order under every limit. */
  predicate Willing(d: Desk, level: Level, gateOpen: bool, risk: RiskFigures) {
    var q := EntryOrder(d, level, 0.0);
    && gateOpen && d.spreadOpen && level.state == Ready && q.Accepted()
    && Healthy(risk, d.limits) && q.projectedStopLoss <= d.limits.projectedStopLoss
    && risk.perpQuantity + q.quantity <= d.limits.perpQuantity
    && risk.perpNotional + q.notional <= d.limits.perpNotional
    && risk.activeLevels < d.limits.activeLevels
  }

  lemma NoReasonIffWilling(d: Desk, level: Level, i: nat, s: Live, gateOpen: bool, risk: RiskState)
    ensures |LiveReasons(d, level, i, s, gateOpen, risk)| == 0
            <==> i !in s.submitted && Willing(d, level, gateOpen, risk)
  {
    ApprovedIffWithinAll(EntryProposal(EntryOrder(d, level, 0.0)), risk, d.limits);
  }

  /** The order a level would place: the desired quantity rounded down, the entry
      rounded up, and the filters and limits it has to meet. */
  lemma EntryOrderIsExact(d: Desk, level: Level, debt: real)
    requires debt >= 0.0
    ensures var q, i := EntryOrder(d, level, debt), d.instrument;
            && OnGrid(q.quantity, i.qtyStep) && q.quantity <= d.quantity < q.quantity + i.qtyStep
            && OnGrid(q.entry, i.tickSize) && level.zone.entry <= q.entry < level.zone.entry + i.tickSize
            && OnGrid(q.tp, i.tickSize) && level.zone.tp - i.tickSize < q.tp <= level.zone.tp
            && OnGrid(q.stop, i.tickSize) && level.zone.stop <= q.stop < level.zone.stop + i.tickSize
            && q.tp < q.entry
            && q.notional == Times(Times(q.entry, q.quantity), i.multiplier)
            && q.tpProfit == Times(Times(q.entry - q.tp, i.multiplier), q.quantity)
            && (q.stop >= q.entry ==> q.projectedStopLoss == Times(Times(q.stop - q.entry, i.multiplier), q.quantity))
            && (q.Accepted() <==>
                  && i.status == Trading && i.minQuantity <= q.quantity <= i.maxQuantity && q.entry < q.stop
                  && (i.minPrice.Limit? ==> q.entry >= i.minPrice.value)
                  && (i.maxPrice.Limit? ==> q.entry <= i.maxPrice.value)
                  && (i.minNotional.Limit? ==>
                        Times(Times(q.quantity, q.entry), i.multiplier) >= i.minNotional.value)
                  && q.notional <= d.limits.perpNotional && q.projectedStopLoss <= d.limits.projectedStopLoss)
  {
    var i, zone := d.instrument, level.zone;
    var v := NormalizeAndValidateOrder(i, Sell, d.quantity, zone.entry, Passive);
    ValidationIsExact(i, Sell, d.quantity, zone.entry, Passive);
    PriceIsRoundedAway(zone.entry, i.tickSize, Sell, Passive);
    AmountsAreExact(v, i, Sell, zone.tp, zone.stop, debt, d.limits.perpNotional, d.limits.projectedStopLoss);
    AcceptanceIsExact(v, i, Sell, zone.tp, zone.stop, debt, d.limits.perpNotional, d.limits.projectedStopLoss);
  }

  // ----- one batch

  function QuantityOf(e: Submission): real {
    e.quantity
  }

  function NotionalOn(d: Desk, levels: seq<Level>): Submission -> real {
    (e: Submission) => if e.level < |levels| then EntryOrder(d, levels[e.level], 0.0).notional else 0.0
  }

  /** The entries are those their levels' orders ask for. */
  ghost predicate AsOrdered(d: Desk, levels: seq<Level>, entries: seq<Submission>) {
    forall k | 0 <= k < |entries| ::
      entries[k].level < |levels| && entries[k].quantity == EntryOrder(d, levels[entries[k].level], 0.0).quantity
  }

  /** The risk figures with these entries placed on top. */
  ghost function RiskWith(d: Desk, levels: seq<Level>, risk: RiskState, entries: seq<Submission>): RiskFigures {
    risk.(perpQuantity := risk.perpQuantity + Sum(QuantityOf, entries),
          perpNotional := risk.perpNotional + Sum(NotionalOn(d, levels), entries),
          activeLevels := risk.activeLevels + |entries|, orderRequests := risk.orderRequests + |entries|)
  }

  /** Each entry adds its quantity and notional, one level and one request. */
  lemma {:induction false} RiskAfterIsSums(d: Desk, levels: seq<Level>, risk: RiskState, entries: seq<Submission>)
    requires AsOrdered(d, levels, entries)
    ensures RiskAfter(d, levels, risk, entries) == RiskWith(d, levels, risk, entries)
    decreases |entries|
  {
    if |entries| > 0 {
      var first, rest := entries[0], entries[1..];
      RiskAfterIsSums(d, levels, AfterOrder(d, levels[first.level], risk), rest);
      assert entries == [first] + rest;
      RiskWithFirst(d, levels, risk, first, rest);
    }
  }

  lemma RiskWithFirst(d: Desk, levels: seq<Level>, risk: RiskState, first: Submission, rest: seq<Submission>)
    requires AsOrdered(d, levels, [first])
    ensures first.level < |levels|
    ensures RiskWith(d, levels, risk, [first] + rest)
            == RiskWith(d, levels, AfterOrder(d, levels[first.level], risk), rest)
  {
    assert [first][0] == first;
    SumFirst(QuantityOf, first, rest);
    SumFirst(NotionalOn(d, levels), first, rest);
  }

  lemma {:induction false} SumFirst<T>(weight: T -> real, first: T, rest: seq<T>)
    ensures Sum(weight, [first] + rest) == weight(first) + Sum(weight, rest)
  {
    if |rest| == 0 {
      assert [first] + rest == [first];
      assert [first][..0] == [];
    } else {
      var last := |rest| - 1;
      SumFirst(weight, first, rest[..last]);
      assert ([first] + rest)[..last + 1] == [first] + rest[..last];
    }
  }

  /** A batch never changes the attempts of levels it does not submit, and asks for
      each entry what its level's order says, under the ID of its next attempt. */
  ghost predicate Numbered(d: Desk, ids: OrderIds, levels: seq<Level>, attempts: map<nat, nat>,
                           entries: seq<Submission>) {
    && AsOrdered(d, levels, entries)
    && forall k | 0 <= k < |entries| ::
         var i := entries[k].level;
         entries[k].orderId == ids(i, if i in attempts then attempts[i] + 1 else 1)
  }

  lemma {:induction false} BatchIsNumbered(d: Desk, ids: OrderIds, levels: seq<Level>, crossed: seq<nat>, s: Live,
                                           o: Observation, risk: RiskState)
    requires forall k | 0 <= k < |crossed| :: crossed[k] < |levels|
    requires forall j, k | 0 <= j < k < |crossed| :: crossed[j] < crossed[k]
    ensures Numbered(d, ids, levels, s.attempts, LiveDecide(d, ids, levels, crossed, s, o, risk).1.entries)
  {
    if |crossed| > 0 {
      var i, tail := crossed[0], crossed[1..];
      var one := LiveOne(d, ids, levels[i], i, s, o, risk);
      if !one.1.Raised? {
        var rest := LiveDecide(d, ids, levels, tail, one.0, o, one.2).1.entries;
        BatchIsNumbered(d, ids, levels, tail, one.0, o, one.2);
        BatchIsOrdered(d, ids, levels, tail, one.0, o, one.2);
        if one.1.Submitted? { FirstIsNumbered(d, ids, levels, s.attempts, one.0.attempts, one.1.entry, rest); }
      }
    }
  }

  lemma FirstIsNumbered(d: Desk, ids: OrderIds, levels: seq<Level>, before: map<nat, nat>, after: map<nat, nat>,
                        first: Submission, rest: seq<Submission>)
    requires Numbered(d, ids, levels, after, rest) && Numbered(d, ids, levels, before, [first])
    requires forall k | 0 <= k < |rest| :: rest[k].level != first.level
    requires forall i | i != first.level :: (i in after <==> i in before) && (i in before ==> after[i] == before[i])
    ensures Numbered(d, ids, levels, before, [first] + rest)
  {
    assert [first][0] == first;
  }

  /** Position m splits the entries at level i, and the entry at m is on level i. */
  predicate SplitsAt(entries: seq<Submission>, i: nat, m: nat) {
    && m <= |entries|
    && (forall k | 0 <= k < m :: entries[k].level < i) && (forall k | m <= k < |entries| :: entries[k].level >= i)
  }

  predicate Takes(entries: seq<Submission>, i: nat, m: nat) {
    m < |entries| && entries[m].level == i
  }

  lemma LaterLevels(crossed: seq<nat>, rest: seq<Submission>)
    requires |crossed| > 0 && forall j, k | 0 <= j < k < |crossed| :: crossed[j] < crossed[k]
    requires forall k | 0 <= k < |rest| :: rest[k].level in crossed[1..]
    ensures forall k | 0 <= k < |rest| :: rest[k].level > crossed[0]
  {
    forall k | 0 <= k < |rest| ensures rest[k].level > crossed[0] {
      var tail := crossed[1..];
      var j :| 0 <= j < |tail| && tail[j] == rest[k].level;
      assert crossed[0] < crossed[j + 1];
    }
  }

  /** What deciding one level comes to. */
  lemma OneDecides(d: Desk, ids: OrderIds, level: Level, i: nat, s: Live, o: Observation, risk: RiskState)
    ensures var one := LiveOne(d, ids, level, i, s, o, risk);
            && (one.1.Submitted? || one.1.Raised? <==> i !in s.submitted && Willing(d, level, o.gateOpen, risk))
            && (one.1.Submitted? ==>
                  && one.1.entry.level == i && one.0.submitted.Keys == s.submitted.Keys + {i}
                  && one.2 == AfterOrder(d, level, risk))
            && (one.1.Blocked? ==> one.0.submitted == s.submitted && one.2 == risk)
  {
    NoReasonIffWilling(d, level, i, s.(armed := s.armed - {i}), o.gateOpen, risk);
  }

  lemma PrependTakes(d: Desk, levels: seq<Level>, risk: RiskState, first: Submission, rest: seq<Submission>, i: nat,
                     n: nat)
    requires OnLevels(levels, rest) && first.level < |levels| && first.level < i && SplitsAt(rest, i, n)
    ensures var entries := [first] + rest;
            && OnLevels(levels, entries) && SplitsAt(entries, i, n + 1)
            && (Takes(entries, i, n + 1) <==> Takes(rest, i, n))
            && RiskAfter(d, levels, risk, entries[..n + 1])
               == RiskAfter(d, levels, AfterOrder(d, levels[first.level], risk), rest[..n])
  {
    PrefixOfMore(first, rest, n);
  }

  lemma PrefixOfMore<T>(first: T, rest: seq<T>, n: nat)
    requires n <= |rest|
    ensures ([first] + rest)[..n + 1] == [first] + rest[..n]
    ensures ([first] + rest)[..n + 1][0] == first && ([first] + rest)[..n + 1][1..] == rest[..n]
  {}

  /** Level i is among the entries exactly if it is new and willing at the risk that the
      entries above it leave. */
  predicate TakesIff(d: Desk, levels: seq<Level>, submitted: set<nat>, gateOpen: bool, risk: RiskState,
                     entries: seq<Submission>, i: nat, m: nat) {
    && i < |levels| && OnLevels(levels, entries) && SplitsAt(entries, i, m)
    && (Takes(entries, i, m) <==>
          i !in submitted && Willing(d, levels[i], gateOpen, RiskAfter(d, levels, risk, entries[..m])))
  }

  lemma FirstTakes(d: Desk, ids: OrderIds, levels: seq<Level>, i: nat, s: Live, o: Observation, risk: RiskState,
                   rest: seq<Submission>)
    requires i < |levels| && OnLevels(levels, rest) && forall k | 0 <= k < |rest| :: rest[k].level > i
    ensures var one := LiveOne(d, ids, levels[i], i, s, o, risk);
            !one.1.Raised? ==>
              TakesIff(d, levels, s.submitted.Keys, o.gateOpen, risk,
                       if one.1.Submitted? then [one.1.entry] + rest else rest, i, 0)
  {
    var one := LiveOne(d, ids, levels[i], i, s, o, risk);
    OneDecides(d, ids, levels[i], i, s, o, risk);
    var entries := if one.1.Submitted? then [one.1.entry] + rest else rest;
    assert entries[..0] == [];
  }

  lemma LaterTakes(d: Desk, ids: OrderIds, levels: seq<Level>, c: nat, s: Live, o: Observation, risk: RiskState,
                   rest: seq<Submission>, i: nat, n: nat)
    requires c < |levels| && c < i
    requires var one := LiveOne(d, ids, levels[c], c, s, o, risk);
             TakesIff(d, levels, one.0.submitted.Keys, o.gateOpen, one.2, rest, i, n)
    ensures var one := LiveOne(d, ids, levels[c], c, s, o, risk);
            && (one.1.Submitted? ==>
                  TakesIff(d, levels, s.submitted.Keys, o.gateOpen, risk, [one.1.entry] + rest, i, n + 1))
            && (one.1.Blocked? ==> TakesIff(d, levels, s.submitted.Keys, o.gateOpen, risk, rest, i, n))
  {
    var one := LiveOne(d, ids, levels[c], c, s, o, risk);
    OneDecides(d, ids, levels[c], c, s, o, risk);
    if one.1.Submitted? { PrependTakes(d, levels, risk, one.1.entry, rest, i, n); }
  }

  /** The level whose submission does not complete and so ends the call. */
  function FailingLevel(d: Desk, ids: OrderIds, levels: seq<Level>, crossed: seq<nat>, s: Live, o: Observation,
                        risk: RiskState): nat
    requires forall k | 0 <= k < |crossed| :: crossed[k] < |levels|
  {
    if |crossed| == 0 then 0
    else
      var one := LiveOne(d, ids, levels[crossed[0]], crossed[0], s, o, risk);
      if one.1.Raised? then crossed[0] else FailingLevel(d, ids, levels, crossed[1..], one.0, o, one.2)
  }

  /** What a call that ends early ends with: a crossed level that is new, willing at the
      risk that all entries leave, and marked as submitted although it was not. */
  predicate FailedAt(d: Desk, levels: seq<Level>, crossed: seq<nat>, s: Live, o: Observation, risk: RiskState,
                     entries: seq<Submission>, after: Live, f: nat) {
    && f < |levels| && f in crossed && f !in s.submitted && f in after.submitted && !o.completes(f)
    && OnLevels(levels, entries) && (forall k | 0 <= k < |entries| :: entries[k].level < f)
    && Willing(d, levels[f], o.gateOpen, RiskAfter(d, levels, risk, entries))
  }

  lemma {:induction false} FailsAtWilling(d: Desk, ids: OrderIds, levels: seq<Level>, crossed: seq<nat>, s: Live,
                                          o: Observation, risk: RiskState)
    requires forall k | 0 <= k < |crossed| :: crossed[k] < |levels|
    requires forall j, k | 0 <= j < k < |crossed| :: crossed[j] < crossed[k]
    requires LiveDecide(d, ids, levels, crossed, s, o, risk).1.raised
    ensures var r := LiveDecide(d, ids, levels, crossed, s, o, risk);
            FailedAt(d, levels, crossed, s, o, risk, r.1.entries, r.0,
                     FailingLevel(d, ids, levels, crossed, s, o, risk))
  {
    var c, tail := crossed[0], crossed[1..];
    var one := LiveOne(d, ids, levels[c], c, s, o, risk);
    OneDecides(d, ids, levels[c], c, s, o, risk);
    if !one.1.Raised? {
      var rest := LiveDecide(d, ids, levels, tail, one.0, o, one.2);
      var f := FailingLevel(d, ids, levels, tail, one.0, o, one.2);
      FailsAtWilling(d, ids, levels, tail, one.0, o, one.2);
      FailsLater(d, ids, levels, crossed, s, o, risk, rest.1.entries, rest.0, f);
    }
  }

  lemma FailsLater(d: Desk, ids: OrderIds, levels: seq<Level>, crossed: seq<nat>, s: Live, o: Observation,
                   risk: RiskState, rest: seq<Submission>, after: Live, f: nat)
    requires |crossed| > 0 && crossed[0] < |levels|
    requires forall j, k | 0 <= j < k < |crossed| :: crossed[j] < crossed[k]
    requires var one := LiveOne(d, ids, levels[crossed[0]], crossed[0], s, o, risk);
             FailedAt(d, levels, crossed[1..], one.0, o, one.2, rest, after, f)
    ensures var one := LiveOne(d, ids, levels[crossed[0]], crossed[0], s, o, risk);
            && (one.1.Submitted? ==> FailedAt(d, levels, crossed, s, o, risk, [one.1.entry] + rest, after, f))
            && (one.1.Blocked? ==> FailedAt(d, levels, crossed, s, o, risk, rest, after, f))
  {
    var c := crossed[0];
    var one := LiveOne(d, ids, levels[c], c, s, o, risk);
    OneDecides(d, ids, levels[c], c, s, o, risk);
    var j :| 0 <= j < |crossed[1..]| && crossed[1..][j] == f;
    assert c < crossed[j + 1] == f;
    if one.1.Submitted? { PrependAll(d, levels, risk, one.1.entry, rest, f); }
  }

  lemma PrependAll(d: Desk, levels: seq<Level>, risk: RiskState, first: Submission, rest: seq<Submission>, f: nat)
    requires OnLevels(levels, rest) && first.level < |levels| && first.level < f
    requires forall k | 0 <= k < |rest| :: rest[k].level < f
    ensures var entries := [first] + rest;
            && OnLevels(levels, entries) && (forall k | 0 <= k < |entries| :: entries[k].level < f)
            && RiskAfter(d, levels, risk, entries)
               == RiskAfter(d, levels, AfterOrder(d, levels[first.level], risk), rest)
  {
    assert ([first] + rest)[1..] == rest;
  }

  /** A crossed level above one that ends the call is submitted exactly when it was not
      before and is willing at the risk the entries above it leave. */
  lemma {:induction false} TakesTheWilling(d: Desk, ids: OrderIds, levels: seq<Level>, crossed: seq<nat>, s: Live,
                                           o: Observation, risk: RiskState, i: nat) returns (m: nat)
    requires forall k | 0 <= k < |crossed| :: crossed[k] < |levels|
    requires forall j, k | 0 <= j < k < |crossed| :: crossed[j] < crossed[k]
    requires i in crossed
    requires LiveDecide(d, ids, levels, crossed, s, o, risk).1.raised ==>
               i < FailingLevel(d, ids, levels, crossed, s, o, risk)
    ensures var entries := LiveDecide(d, ids, levels, crossed, s, o, risk).1.entries;
            TakesIff(d, levels, s.submitted.Keys, o.gateOpen, risk, entries, i, m)
  {
    var c, tail := crossed[0], crossed[1..];
    var one := LiveOne(d, ids, levels[c], c, s, o, risk);
    var rest := LiveDecide(d, ids, levels, tail, one.0, o, one.2).1.entries;
    var j :| 0 <= j < |crossed| && crossed[j] == i;
    assert c <= crossed[j];
    BatchIsOrdered(d, ids, levels, tail, one.0, o, one.2);
    LaterLevels(crossed, rest);
    if i == c {
      m := 0;
      FirstTakes(d, ids, levels, i, s, o, risk, rest);
    } else {
      m := TakesTheWilling(d, ids, levels, tail, one.0, o, one.2, i);
      LaterTakes(d, ids, levels, c, s, o, risk, rest, i, m);
      if one.1.Submitted? { m := m + 1; }
    }
  }

  // ----- arming

  /** Every level below the last price that is not submitted is armed, and no
      submitted level is. */
  ghost predicate Vigilant(levels: seq<Level>, s: Live) {
    && (forall i | i in s.armed :: i !in s.submitted)
    && (s.link.Linked? ==>
          forall i: nat | i < |levels| && levels[i].zone.entry < s.link.previous && i !in s.submitted :: i in s.armed)
  }

  /** Arming never holds an entry back: between two prices of a segment exactly the
      levels that are not submitted and whose entry the fall reaches are crossed. */
  lemma CrossedAreTheReached(levels: seq<Level>, s: Live, price: real, i: nat)
    requires Vigilant(levels, s) && s.link.Linked?
    ensures i in Crossed(levels, Rearmed(levels, s.armed, s.submitted.Keys, price), s.link.previous, price)
            <==> i < |levels| && i !in s.submitted && s.link.previous > levels[i].zone.entry >= price
  {}

  lemma {:induction false} BatchDisarms(d: Desk, ids: OrderIds, levels: seq<Level>, crossed: seq<nat>, s: Live,
                                        o: Observation, risk: RiskState)
    requires forall k | 0 <= k < |crossed| :: crossed[k] < |levels|
    requires forall i | i in s.armed :: i !in s.submitted
    ensures var r := LiveDecide(d, ids, levels, crossed, s, o, risk).0;
            && r.link == s.link && (forall i | i in r.armed :: i !in r.submitted)
            && forall i | i in s.armed && i !in crossed :: i in r.armed
  {
    if |crossed| > 0 {
      var c, tail := crossed[0], crossed[1..];
      var one := LiveOne(d, ids, levels[c], c, s, o, risk);
      if !one.1.Raised? { BatchDisarms(d, ids, levels, tail, one.0, o, one.2); }
    }
  }

  /** A call is followed when it is a trade in the right symbol on a healthy feed. */
  predicate Heard(o: Observation) {
    o.event.symbol == EthUsdt && o.event.source == LastTrade && o.health.tradingAllowed
  }

  /** It continues the segment when the connection has not changed since. */
  predicate Continues(s: Live, o: Observation) {
    Heard(o) && s.link.Linked? && o.event.generation == s.link.generation
  }

  lemma StepStaysVigilant(d: Desk, ids: OrderIds, levels: seq<Level>, s: Live, o: Observation)
    requires Vigilant(levels, s)
    ensures Vigilant(levels, LiveStep(d, ids, levels, s, o).0)
  {
    if Continues(s, o) {
      var price := o.event.price;
      var armed := Rearmed(levels, s.armed, s.submitted.Keys, price);
      var crossed := Crossed(levels, armed, s.link.previous, price);
      var armedState := s.(link := Linked(s.link.generation, price), armed := armed);
      BatchDisarms(d, ids, levels, crossed, armedState, o, o.risk);
      BatchIsOrdered(d, ids, levels, crossed, armedState, o, o.risk);
    }
  }

  /** The service follows the last price it heard; a stale connection is ignored. */
  lemma LinkFollows(d: Desk, ids: OrderIds, levels: seq<Level>, s: Live, o: Observation)
    ensures LiveStep(d, ids, levels, s, o).0.link
            == if Heard(o) && (s.link.Linked? ==> o.event.generation >= s.link.generation)
               then Linked(o.event.generation, o.event.price) else s.link
    ensures !Continues(s, o) ==>
              && LiveStep(d, ids, levels, s, o).1.entries == [] && !LiveStep(d, ids, levels, s, o).1.raised
              && LiveStep(d, ids, levels, s, o).0.submitted == s.submitted
  {
    if Continues(s, o) {
      var price := o.event.price;
      var armed := Rearmed(levels, s.armed, s.submitted.Keys, price);
      LinkIsKept(d, ids, levels, Crossed(levels, armed, s.link.previous, price),
                 s.(link := Linked(s.link.generation, price), armed := armed), o, o.risk);
    }
  }

  lemma {:induction false} LinkIsKept(d: Desk, ids: OrderIds, levels: seq<Level>, crossed: seq<nat>, s: Live,
                                      o: Observation, risk: RiskState)
    requires forall k | 0 <= k < |crossed| :: crossed[k] < |levels|
    ensures LiveDecide(d, ids, levels, crossed, s, o, risk).0.link == s.link
    ensures LiveDecide(d, ids, levels, crossed, s, o, risk).1.reasons == []
  {
    if |crossed| > 0 {
      var c, tail := crossed[0], crossed[1..];
      var one := LiveOne(d, ids, levels[c], c, s, o, risk);
      if !one.1.Raised? { LinkIsKept(d, ids, levels, tail, one.0, o, one.2); }
    }
  }

  // ----- one call

  /** A call that is turned away, or that starts a new segment, says why; one that is
      followed says nothing. */
  lemma CallSaysWhy(d: Desk, ids: OrderIds, levels: seq<Level>, s: Live, o: Observation)
    ensures var reasons := LiveStep(d, ids, levels, s, o).1.reasons;
            && (o.event.symbol != EthUsdt ==> reasons == [WrongSymbol])
            && (o.event.symbol == EthUsdt && o.event.source != LastTrade ==> reasons == [WrongSource])
            && (o.event.symbol == EthUsdt && o.event.source == LastTrade && !o.health.tradingAllowed ==>
                  reasons == o.health.reasons)
            && (Heard(o) && s.link.Linked? && o.event.generation < s.link.generation ==> reasons == [StaleGeneration])
            && (Heard(o) && s.link.Linked? && o.event.generation > s.link.generation ==> reasons == [ChangedGeneration])
            && (Heard(o) && s.link.Unlinked? ==> reasons == [])
            && (Continues(s, o) ==> reasons == [])
  {
    if Continues(s, o) {
      var price := o.event.price;
      var armed := Rearmed(levels, s.armed, s.submitted.Keys, price);
      LinkIsKept(d, ids, levels, Crossed(levels, armed, s.link.previous, price),
                 s.(link := Linked(s.link.generation, price), armed := armed), o, o.risk);
    }
  }

  /** The first thing that stands in the way of an entry is what its block reports. */
  lemma BlockSaysWhy(d: Desk, level: Level, i: nat, s: Live, gateOpen: bool, risk: RiskState)
    ensures var reasons, q := LiveReasons(d, level, i, s, gateOpen, risk), EntryOrder(d, level, 0.0);
            var asked := i !in s.submitted && gateOpen;
            && (!gateOpen ==> reasons == [GateClosed])
            && (gateOpen && i in s.submitted ==> reasons == [AlreadySubmitted])
            && (asked && level.state != Ready ==> reasons == [LevelNotReady])
            && (asked && level.state == Ready && !d.spreadOpen ==> reasons == [SpreadClosed])
            && (asked && level.state == Ready && d.spreadOpen && !q.Accepted() ==> reasons == q.errors)
            && (asked && level.state == Ready && d.spreadOpen && q.Accepted() ==>
                  forall reason :: reason in reasons <==>
                    || ExposureBreach(reason, EntryProposal(q), risk, d.limits)
                    || LossBreach(reason, EntryProposal(q), risk, d.limits)
                    || StateBreach(reason, EntryProposal(q), risk, d.limits))
  {
    var p := EntryProposal(EntryOrder(d, level, 0.0));
    forall reason
      ensures reason in Reasons(p, risk, d.limits) <==>
                || ExposureBreach(reason, p, risk, d.limits) || LossBreach(reason, p, risk, d.limits)
                || StateBreach(reason, p, risk, d.limits)
    {
      ReasonsAreTheBreaches(p, risk, d.limits, reason);
    }
  }

  /** The price falls onto or through the entry of the level. */
  predicate FallsTo(s: Live, o: Observation, level: Level) {
    Continues(s, o) && s.link.previous > level.zone.entry >= o.event.price
  }

  /** The call ended early at level f: the price fell to it, it was new and willing at
      the risk all entries leave, but its submission did not complete; it counts as
      submitted, and nothing below it was tried. */
  ghost predicate EndedAt(d: Desk, levels: seq<Level>, s: Live, o: Observation, entries: seq<Submission>, after: Live,
                          f: nat) {
    && f < |levels| && FallsTo(s, o, levels[f]) && f !in s.submitted && f in after.submitted && !o.completes(f)
    && (forall k | 0 <= k < |entries| :: entries[k].level < f)
    && Willing(d, levels[f], o.gateOpen, RiskWith(d, levels, o.risk, entries))
  }

  /** Level i is submitted at a call exactly when the price falls to it, it was not
      submitted before, and it is willing at the risk the entries above it leave; in a
      call that a failing submission ends, this goes for the levels above that one. */
  lemma StepSubmitsExactly(d: Desk, ids: OrderIds, levels: seq<Level>, s: Live, o: Observation, i: nat)
    returns (m: nat, f: nat)
    requires Vigilant(levels, s) && i < |levels|
    ensures var r := LiveStep(d, ids, levels, s, o);
            && SplitsAt(r.1.entries, i, m) && Numbered(d, ids, levels, s.attempts, r.1.entries)
            && (r.1.raised ==> EndedAt(d, levels, s, o, r.1.entries, r.0, f))
            && (!r.1.raised || i < f ==>
                  (Takes(r.1.entries, i, m) <==>
                     && FallsTo(s, o, levels[i]) && i !in s.submitted
                     && Willing(d, levels[i], o.gateOpen, RiskWith(d, levels, o.risk, r.1.entries[..m]))))
  {
    if Continues(s, o) {
      var price := o.event.price;
      var armed := Rearmed(levels, s.armed, s.submitted.Keys, price);
      var crossed := Crossed(levels, armed, s.link.previous, price);
      var armedState := s.(link := Linked(s.link.generation, price), armed := armed);
      m := BatchSubmitsExactly(d, ids, levels, crossed, armedState, o, i);
      f := FailingLevel(d, ids, levels, crossed, armedState, o, o.risk);
      CrossedAreTheReached(levels, s, price, i);
      CrossedAreTheReached(levels, s, price, f);
    } else {
      m, f := 0, 0;
    }
  }

  lemma BatchSubmitsExactly(d: Desk, ids: OrderIds, levels: seq<Level>, crossed: seq<nat>, s: Live, o: Observation,
                            i: nat) returns (m: nat)
    requires forall k | 0 <= k < |crossed| :: crossed[k] < |levels|
    requires forall j, k | 0 <= j < k < |crossed| :: crossed[j] < crossed[k]
    requires i < |levels|
    ensures var r := LiveDecide(d, ids, levels, crossed, s, o, o.risk);
            var entries, f := r.1.entries, FailingLevel(d, ids, levels, crossed, s, o, o.risk);
            && SplitsAt(entries, i, m) && Numbered(d, ids, levels, s.attempts, entries)
            && (r.1.raised ==>
                  && f < |levels| && f in crossed && f !in s.submitted && f in r.0.submitted && !o.completes(f)
                  && (forall k | 0 <= k < |entries| :: entries[k].level < f)
                  && Willing(d, levels[f], o.gateOpen, RiskWith(d, levels, o.risk, entries)))
            && (!r.1.raised || i < f ==>
                  (Takes(entries, i, m) <==>
                     && i in crossed && i !in s.submitted
                     && Willing(d, levels[i], o.gateOpen, RiskWith(d, levels, o.risk, entries[..m]))))
  {
    var r := LiveDecide(d, ids, levels, crossed, s, o, o.risk);
    var entries, f := r.1.entries, FailingLevel(d, ids, levels, crossed, s, o, o.risk);
    BatchIsNumbered(d, ids, levels, crossed, s, o, o.risk);
    BatchIsOrdered(d, ids, levels, crossed, s, o, o.risk);
    if r.1.raised {
      FailsAtWilling(d, ids, levels, crossed, s, o, o.risk);
      RiskAfterIsSums(d, levels, o.risk, entries);
    }
    if i in crossed && (!r.1.raised || i < f) {
      m := TakesTheWilling(d, ids, levels, crossed, s, o, o.risk, i);
      RiskAfterIsSums(d, levels, o.risk, entries[..m]);
    } else {
      m := SplitPosition(entries, i);
    }
  }

  lemma {:induction false} SplitPosition(entries: seq<Submission>, i: nat) returns (m: nat)
    requires forall j, k | 0 <= j < k < |entries| :: entries[j].level < entries[k].level
    ensures SplitsAt(entries, i, m)
  {
    if |entries| == 0 || entries[|entries| - 1].level < i {
      m := |entries|;
    } else {
      m := SplitPosition(entries[..|entries| - 1], i);
    }
  }

  lemma {:induction false} BatchNeedsHealth(d: Desk, ids: OrderIds, levels: seq<Level>, crossed: seq<nat>, s: Live,
                                            o: Observation, risk: RiskState)
    requires forall k | 0 <= k < |crossed| :: crossed[k] < |levels|
    ensures |LiveDecide(d, ids, levels, crossed, s, o, risk).1.entries| > 0 ==> Healthy(risk, d.limits)
  {
    if |crossed| > 0 {
      var c, tail := crossed[0], crossed[1..];
      var one := LiveOne(d, ids, levels[c], c, s, o, risk);
      OneDecides(d, ids, levels[c], c, s, o, risk);
      if one.1.Blocked? { BatchNeedsHealth(d, ids, levels, tail, one.0, o, risk); }
    }
  }

  /** A call that submits anything saw a healthy risk state, and the totals after it
      are within the limits: quantities and notionals summed up, levels and requests
      counted. */
  lemma SubmittingCallIsSafe(d: Desk, ids: OrderIds, levels: seq<Level>, s: Live, o: Observation)
    requires |LiveStep(d, ids, levels, s, o).1.entries| > 0
    ensures var r, l := o.risk, d.limits;
            && r.marginUsage <= l.marginUsage && r.liquidationDistance >= l.liquidationDistance
            && r.recoveryDebt <= l.recoveryDebt && r.cycleLoss <= l.cycleLoss && r.dailyLoss <= l.dailyLoss
            && r.entriesForLevel < l.entriesPerLevel && r.reconciliationFailures < l.reconciliationFailures
            && r.marketDataFresh && r.reconciled
    ensures var r, l, entries := o.risk, d.limits, LiveStep(d, ids, levels, s, o).1.entries;
            && r.perpQuantity + Sum(QuantityOf, entries) <= l.perpQuantity
            && r.perpNotional + Sum(NotionalOn(d, levels), entries) <= l.perpNotional
            && r.activeLevels + |entries| <= l.activeLevels && r.orderRequests + |entries| <= l.orderRequests
  {
    LinkFollows(d, ids, levels, s, o);
    var price, entries := o.event.price, LiveStep(d, ids, levels, s, o).1.entries;
    var armed := Rearmed(levels, s.armed, s.submitted.Keys, price);
    var crossed := Crossed(levels, armed, s.link.previous, price);
    var armedState := s.(link := Linked(s.link.generation, price), armed := armed);
    BatchNeedsHealth(d, ids, levels, crossed, armedState, o, o.risk);
    BatchIsNumbered(d, ids, levels, crossed, armedState, o, o.risk);
    BatchWithinLimits(d, ids, levels, crossed, armedState, o, o.risk);
    RiskAfterIsSums(d, levels, o.risk, entries);
  }

  // ----- whole feeds

  lemma VigilantElsewhere(a: seq<Level>, b: seq<Level>, s: Live)
    requires SameZones(a, b) && Vigilant(a, s)
    ensures Vigilant(b, s)
  {}

  lemma {:induction false} RunStaysVigilant(d: Desk, ids: OrderIds, feed: seq<Moment>, levels: seq<Level>)
    requires forall m | m in feed :: SameZones(m.levels, levels)
    ensures Vigilant(levels, LiveRun(d, ids, feed).0)
  {
    if |feed| > 0 {
      var last := |feed| - 1;
      var s := LiveRun(d, ids, feed[..last]).0;
      assert feed[last] in feed;
      RunStaysVigilant(d, ids, feed[..last], levels);
      VigilantElsewhere(levels, feed[last].levels, s);
      StepStaysVigilant(d, ids, feed[last].levels, s, feed[last].observation);
      VigilantElsewhere(feed[last].levels, levels, LiveRun(d, ids, feed).0);
    }
  }

  /** At the last call of every feed a level is submitted exactly when the price has
      just fallen to its entry, it was never submitted before, and it is willing; as far
      as no failing submission ended the call. */
  lemma FeedSubmitsExactly(d: Desk, ids: OrderIds, feed: seq<Moment>, i: nat) returns (m: nat, f: nat)
    requires |feed| > 0 && Listed(feed) && i < |feed[|feed| - 1].levels|
    ensures var now, s := feed[|feed| - 1], LiveRun(d, ids, feed[..|feed| - 1]).0;
            var r := LiveStep(d, ids, now.levels, s, now.observation);
            && SplitsAt(r.1.entries, i, m)
            && (r.1.raised ==> EndedAt(d, now.levels, s, now.observation, r.1.entries, r.0, f))
            && (!r.1.raised || i < f ==>
                  (Takes(r.1.entries, i, m) <==>
                     && FallsTo(s, now.observation, now.levels[i]) && i !in s.submitted
                     && Willing(d, now.levels[i], now.observation.gateOpen,
                                RiskWith(d, now.levels, now.observation.risk, r.1.entries[..m]))))
  {
    var last := |feed| - 1;
    var now, s := feed[last], LiveRun(d, ids, feed[..last]).0;
    forall x | x in feed[..last] ensures SameZones(x.levels, now.levels) {
      assert x in feed && now in feed;
    }
    RunStaysVigilant(d, ids, feed[..last], now.levels);
    m, f := StepSubmitsExactly(d, ids, now.levels, s, now.observation, i);
  }

  // ----- the shadow

  /** The shadow approves a level exactly when the same conditions hold, except that
      it knows no gate and no earlier submission, and passes its debt on. */
  lemma IntentIsExact(d: Desk, level: Level, i: nat, sequence: nat, risk: RiskState)
    ensures var intent, q := Evaluate(d, level, i, sequence, risk), EntryOrder(d, level, risk.recoveryDebt);
            && intent.level == i && intent.sequence == sequence && intent.quantity == q.quantity
            && intent.entry == q.entry && intent.tp == q.tp && intent.stop == q.stop
            && intent.expectedTpPnl == q.tpProfit && intent.projectedStopLoss == q.projectedStopLoss
            && (intent.approved <==>
                  && d.spreadOpen && level.state == Ready && q.Accepted() && Healthy(risk, d.limits)
                  && q.projectedStopLoss <= d.limits.projectedStopLoss
                  && risk.perpQuantity + q.quantity <= d.limits.perpQuantity
                  && risk.perpNotional + q.notional <= d.limits.perpNotional
                  && risk.activeLevels < d.limits.activeLevels)
  {
    ApprovedIffWithinAll(EntryProposal(EntryOrder(d, level, risk.recoveryDebt)), risk, d.limits);
  }

  ghost predicate ApprovedAmong(intents: seq<Intent>, i: nat) {
    exists k | 0 <= k < |intents| :: intents[k].level == i && intents[k].approved
  }

  lemma OneMoreIntent(first: Intent, rest: seq<Intent>, i: nat)
    ensures ApprovedAmong([first] + rest, i) <==> (first.level == i && first.approved) || ApprovedAmong(rest, i)
  {
    var all := [first] + rest;
    if k :| 0 <= k < |rest| && rest[k].level == i && rest[k].approved {
      assert all[k + 1] == rest[k];
    }
    if first.level == i && first.approved { assert all[0] == first; }
  }

  /** It records one intent for each crossed level, in order and numbered on, and
      settles exactly the approved ones. */
  lemma {:induction false} IntentsFollowTheCrossings(d: Desk, levels: seq<Level>, crossed: seq<nat>, s: Shadow,
                                                     risk: RiskState)
    requires forall k | 0 <= k < |crossed| :: crossed[k] < |levels|
    ensures var r := ShadowDecide(d, levels, crossed, s, risk);
            && |r.1| == |crossed| && r.0.sequence == s.sequence + |crossed|
            && (forall k | 0 <= k < |crossed| :: r.1[k].level == crossed[k] && r.1[k].sequence == s.sequence + k + 1)
            && (forall i :: i in r.0.decided <==> i in s.decided || ApprovedAmong(r.1, i))
  {
    if |crossed| > 0 {
      var c, tail := crossed[0], crossed[1..];
      var one := ShadowOne(d, levels[c], c, s, risk);
      var rest := ShadowDecide(d, levels, tail, one.0, one.2);
      IntentsFollowTheCrossings(d, levels, tail, one.0, one.2);
      forall i ensures i in rest.0.decided <==> i in s.decided || ApprovedAmong([one.1] + rest.1, i) {
        OneMoreIntent(one.1, rest.1, i);
      }
    }
  }
}
