/** What an accounting run reports, in terms of the prices it was given and of the
    events it returns: every sample, every metric, and what the stop budget decided. */
module ReportLaws {
  import opened CreditSpreads
  import opened VirtualLevels
  import opened Ledgers
  import opened Sums
  import opened HedgeModel
  import opened Runs
  import opened PathRefinement
  import opened EventLaws

  function Lost(e: LedgerEvent): real {
    if e.kind.StopEvent? then -e.realizedPnl else 0.0
  }

  /** The gross totals are sums over the events so far. */
  ghost predicate Totalled(s: State) {
    s.book.grossStops == Sum(Lost, s.book.events) && s.book.grossTps == Sum(Gained, s.book.events)
  }

  lemma FireKeepsTotalled(d: Desk, s: State, i: nat, dir: Direction, tick: int)
    requires Totalled(s) && i < |s.levels| && TriggerOf(s.levels[i], dir).Trigger?
    ensures Totalled(Fire(d, s, i, dir, tick))
  {
    FireAppends(d, s, i, dir, tick);
    SumAppend(Lost, s.book.events, Fired(d, s, i, dir, tick));
    SumAppend(Gained, s.book.events, Fired(d, s, i, dir, tick));
  }

  // ----- the stop budget

  /** An event after stops that lost `lost` in all: a fixed hedge only where its own
      stop loss still fits the premium, a floor hedge or a lock only where it does
      not, and which of the two the policy says. */
  predicate WithinBudget(d: Desk, lost: real, e: LedgerEvent) {
    match e.kind
    case EntryEvent => lost + e.projectedStopLoss <= d.spread.premium
    case FloorEntryEvent => lost + e.projectedStopLoss > d.spread.premium && d.policy == BreakevenFloor
    case LockedEvent => lost + e.projectedStopLoss > d.spread.premium && d.policy == Unhedged
    case _ => true
  }

  ghost predicate KeepsToBudget(d: Desk, events: seq<LedgerEvent>) {
    forall k | 0 <= k < |events| :: WithinBudget(d, Sum(Lost, events[..k]), events[k])
  }

  lemma FireKeepsToBudget(d: Desk, s: State, i: nat, dir: Direction, tick: int)
    requires Totalled(s) && KeepsToBudget(d, s.book.events) && i < |s.levels| && TriggerOf(s.levels[i], dir).Trigger?
    ensures KeepsToBudget(d, Fire(d, s, i, dir, tick).book.events)
  {
    var events, after := s.book.events, Fire(d, s, i, dir, tick).book.events;
    FireAppends(d, s, i, dir, tick);
    assert WithinBudget(d, Sum(Lost, events), Fired(d, s, i, dir, tick));
    forall k | 0 <= k < |after| ensures WithinBudget(d, Sum(Lost, after[..k]), after[k]) {
      assert after[..k] == events[..k];
    }
  }

  // ----- the levels

  function On(i: nat, kind: EventKind): LedgerEvent -> int {
    (e: LedgerEvent) => if e.level == i && e.kind == kind then 1 else 0
  }

  /** The state of a level follows from its events: it is paid after its one
      take-profit, locked after its one lock, and open after an entry that no exit
      followed. */
  ghost predicate StatesFollow(levels: seq<Level>, events: seq<LedgerEvent>) {
    forall i: nat | i < |levels| :: StateFollows(levels[i], i, events)
  }

  ghost predicate StateFollows(level: Level, i: nat, events: seq<LedgerEvent>) {
    && Count(On(i, TpEvent), events) == (if level.state == Paid then 1 else 0)
    && Count(On(i, LockedEvent), events) == (if level.state == Locked then 1 else 0)
    && Count(EntryOn(i), events)
       == Count(On(i, TpEvent), events) + Count(On(i, StopEvent), events) + Count(On(i, BreakevenEvent), events)
          + (if level.state == Active then 1 else 0)
  }

  lemma OneMoreOn(i: nat, events: seq<LedgerEvent>, e: LedgerEvent)
    ensures Count(On(i, TpEvent), events + [e]) == Count(On(i, TpEvent), events) + On(i, TpEvent)(e)
    ensures Count(On(i, LockedEvent), events + [e]) == Count(On(i, LockedEvent), events) + On(i, LockedEvent)(e)
    ensures Count(On(i, StopEvent), events + [e]) == Count(On(i, StopEvent), events) + On(i, StopEvent)(e)
    ensures Count(On(i, BreakevenEvent), events + [e])
            == Count(On(i, BreakevenEvent), events) + On(i, BreakevenEvent)(e)
    ensures Count(EntryOn(i), events + [e]) == Count(EntryOn(i), events) + EntryOn(i)(e)
  {
    CountMore(On(i, TpEvent), events, e);
    CountMore(On(i, LockedEvent), events, e);
    CountMore(On(i, StopEvent), events, e);
    CountMore(On(i, BreakevenEvent), events, e);
    CountMore(EntryOn(i), events, e);
  }

  function In(level: Level, state: LevelState): int {
    if level.state == state then 1 else 0
  }

  /** The event of a crossing is on its level and says how the state of the level changed. */
  lemma FiredMovesState(d: Desk, s: State, i: nat, dir: Direction, tick: int)
    requires i < |s.levels| && TriggerOf(s.levels[i], dir).Trigger?
    ensures var r, e := Fire(d, s, i, dir, tick), Fired(d, s, i, dir, tick);
            && e.level == i
            && In(r.levels[i], Paid) == In(s.levels[i], Paid) + On(i, TpEvent)(e)
            && In(r.levels[i], Locked) == In(s.levels[i], Locked) + On(i, LockedEvent)(e)
            && In(r.levels[i], Active) == In(s.levels[i], Active) + EntryOn(i)(e) - On(i, TpEvent)(e)
                                          - On(i, StopEvent)(e) - On(i, BreakevenEvent)(e)
  {
    if s.levels[i].state == Active {
      ExitMovesState(d, s, i, dir, tick);
    } else {
      EntryMovesState(d, s, i, tick);
    }
  }

  lemma ExitMovesState(d: Desk, s: State, i: nat, dir: Direction, tick: int)
    requires i < |s.levels| && s.levels[i].state == Active
    ensures var r, e := Fire(d, s, i, dir, tick), Fired(d, s, i, dir, tick);
            && e.level == i && EntryOn(i)(e) == 0 && On(i, LockedEvent)(e) == 0
            && On(i, TpEvent)(e) + On(i, StopEvent)(e) + On(i, BreakevenEvent)(e) == 1
            && r.levels[i].state == if e.kind == TpEvent then Paid else Ready
  {}

  lemma EntryMovesState(d: Desk, s: State, i: nat, tick: int)
    requires i < |s.levels| && s.levels[i].state == Ready && TriggerOf(s.levels[i], Down).Trigger?
    ensures var r, e := Fire(d, s, i, Down, tick), Fired(d, s, i, Down, tick);
            && e.level == i && On(i, TpEvent)(e) + On(i, StopEvent)(e) + On(i, BreakevenEvent)(e) == 0
            && EntryOn(i)(e) + On(i, LockedEvent)(e) == 1
            && r.levels[i].state == if e.kind == LockedEvent then Locked else Active
  {}

  lemma OthersKeepState(d: Desk, s: State, i: nat, dir: Direction, tick: int, j: nat)
    requires i < |s.levels| && TriggerOf(s.levels[i], dir).Trigger? && j < |s.levels| && j != i
    ensures Fire(d, s, i, dir, tick).levels[j].state == s.levels[j].state
  {}

  lemma FireKeepsStates(d: Desk, s: State, i: nat, dir: Direction, tick: int)
    requires StatesFollow(s.levels, s.book.events) && i < |s.levels| && TriggerOf(s.levels[i], dir).Trigger?
    ensures var r := Fire(d, s, i, dir, tick); StatesFollow(r.levels, r.book.events)
  {
    var r := Fire(d, s, i, dir, tick);
    FireAppends(d, s, i, dir, tick);
    FiredMovesState(d, s, i, dir, tick);
    forall j: nat | j < |r.levels| ensures StateFollows(r.levels[j], j, r.book.events) {
      assert StateFollows(s.levels[j], j, s.book.events);
      OneMoreOn(j, s.book.events, Fired(d, s, i, dir, tick));
      if j != i { OthersKeepState(d, s, i, dir, tick, j); }
    }
  }

  // ----- every state of a run

  ghost predicate Reported(d: Desk, s: State) {
    Totalled(s) && KeepsToBudget(d, s.book.events) && StatesFollow(s.levels, s.book.events)
  }

  lemma ArmKeepsReported(d: Desk, s: State, price: real)
    requires Reported(d, s)
    ensures Reported(d, Arm(s, price))
  {
    forall j: nat | j < |s.levels| ensures StateFollows(Arm(s, price).levels[j], j, s.book.events) {
      assert StateFollows(s.levels[j], j, s.book.events);
    }
  }

  /** On every path from every start, the budget decided every entry and the states of
      the levels follow from the events. */
  lemma RunKeepsToBudget(d: Desk, zones: seq<Zone>, prices: seq<real>)
    requires Tiles(d.spread, d.rate, zones) && |prices| > 0
    ensures Reported(d, After(d, zones, prices).state)
  {
    var kept := (s: State) => Reported(d, s);
    forall s, p | kept(s) ensures kept(Arm(s, p)) {
      ArmKeepsReported(d, s, p);
    }
    forall s, i, dir, t | kept(s) && CanFire(d, s, i, dir, prices[0], false) ensures kept(Fire(d, s, i, dir, t)) {
      CanFireIsTriggered(d, s, i, dir, prices[0], false);
      FireKeepsTotalled(d, s, i, dir, t);
      FireKeepsToBudget(d, s, i, dir, t);
      FireKeepsStates(d, s, i, dir, t);
    }
    RunInvariant(d, zones, prices, false, kept);
  }

  // ----- the samples

  /** The figures of a sample belong together. */
  predicate AddsUp(d: Desk, x: Snapshot) {
    && x.optionPnl == d.spread.ExpiryPnl(x.price)
    && x.combined == x.optionPnl + x.realizedPnl + x.openPnl
    && x.incremental == x.combined - d.spread.ExpiryPnl(d.spread.spot)
    && x.remainingBudget == d.spread.premium - x.grossStops
  }

  /** The totals of a sample are those after the first `n` events. */
  ghost predicate TotalsAfter(events: seq<LedgerEvent>, n: nat, x: Snapshot) {
    n <= |events| && x.grossStops == Sum(Lost, events[..n]) && x.grossTps == Sum(Gained, events[..n])
  }

  /** The sample of event number `n`: taken at the price and in the tick of the event. */
  ghost predicate SamplesEvent(d: Desk, events: seq<LedgerEvent>, n: nat, x: Snapshot) {
    && 1 <= n <= |events| && x.eventSequence == AfterEvent(n) && AddsUp(d, x) && TotalsAfter(events, n, x)
    && x.price == events[n - 1].price && x.tick == events[n - 1].tick
  }

  /** The sample of a tick's own price, after all events of the tick. */
  ghost predicate SamplesTick(d: Desk, prices: seq<real>, events: seq<LedgerEvent>, x: Snapshot) {
    && x.eventSequence == NoEvent && 0 <= x.tick < |prices| && x.price == prices[x.tick] && AddsUp(d, x)
    && exists n: nat :: TotalsAfter(events, n, x) && (forall k | 0 <= k < n :: events[k].tick <= x.tick)
                   && forall k | n <= k < |events| :: events[k].tick > x.tick
  }

  lemma SampleAddsUp(d: Desk, s: State, price: real, tick: int, after: EventRef)
    ensures AddsUp(d, SampleAfter(d, s, price, tick, after))
  {}

  /** The samples taken between two event lists: one of each event in between. */
  ghost predicate OfTheEvents(d: Desk, events: seq<LedgerEvent>, from: nat, samples: seq<Snapshot>) {
    && from <= |events| && |samples| == |events| - from
    && forall k | 0 <= k < |samples| :: SamplesEvent(d, events, from + 1 + k, samples[k])
  }

  lemma OneMoreSample(d: Desk, events: seq<LedgerEvent>, from: nat, x: Snapshot, rest: seq<Snapshot>)
    requires SamplesEvent(d, events, from + 1, x) && OfTheEvents(d, events, from + 1, rest)
    ensures OfTheEvents(d, events, from, [x] + rest)
  {
    forall k | 0 <= k < |rest| + 1 ensures SamplesEvent(d, events, from + 1 + k, ([x] + rest)[k]) {
      if k > 0 { assert SamplesEvent(d, events, from + 2 + (k - 1), rest[k - 1]); }
    }
  }

  lemma FiredSample(d: Desk, s: State, i: nat, dir: Direction, tick: int, all: seq<LedgerEvent>)
    requires Totalled(s) && i < |s.levels| && TriggerOf(s.levels[i], dir).Trigger?
    requires Fire(d, s, i, dir, tick).book.events <= all
    ensures var r, n := Fire(d, s, i, dir, tick), |s.book.events| + 1;
            SamplesEvent(d, all, n, SampleAfter(d, r, TriggerOf(s.levels[i], dir).price, tick, AfterEvent(n)))
  {
    var r, n := Fire(d, s, i, dir, tick), |s.book.events| + 1;
    FireAppends(d, s, i, dir, tick);
    FiredIs(d, s, i, dir, tick);
    FireKeepsTotalled(d, s, i, dir, tick);
    SampleAddsUp(d, r, TriggerOf(s.levels[i], dir).price, tick, AfterEvent(n));
    assert all[..n] == r.book.events && all[n - 1] == r.book.events[n - 1];
  }

  lemma {:induction false} SettleSamples(d: Desk, s: State, dir: Direction, target: real, tick: int)
    requires Totalled(s)
    ensures var r := Settle(d, s, dir, target, tick);
            && Totalled(r) && s.book.events <= r.book.events
            && OfTheEvents(d, r.book.events, |s.book.events|, CrossingSamples(d, s, dir, target, tick))
    decreases Potential(s, dir)
  {
    if Next(s.levels, dir, target).First? {
      var i := Next(s.levels, dir, target).index;
      var r := Fire(d, s, i, dir, tick);
      ExecuteUsesPotential(d, s, i, dir, target, tick);
      FireAppends(d, s, i, dir, tick);
      FireKeepsTotalled(d, s, i, dir, tick);
      SettleSamples(d, r, dir, target, tick);
      var all := Settle(d, r, dir, target, tick).book.events;
      FiredSample(d, s, i, dir, tick, all);
      NextSample(d, s, i, dir, target, tick);
      OneMoreSample(d, all, |s.book.events|,
                    SampleAfter(d, r, TriggerOf(s.levels[i], dir).price, tick, AfterEvent(|r.book.events|)),
                    CrossingSamples(d, r, dir, target, tick));
    }
  }

  /** What a sample of a run is: that of an event, or that of a tick. */
  ghost predicate SampleOk(d: Desk, prices: seq<real>, events: seq<LedgerEvent>, x: Snapshot) {
    SamplesTick(d, prices, events, x) || exists n: nat :: SamplesEvent(d, events, n, x)
  }

  lemma StillOk(d: Desk, before: seq<real>, price: real, events: seq<LedgerEvent>, after: seq<LedgerEvent>, x: Snapshot)
    requires SampleOk(d, before, events, x) && events <= after
    requires forall k | |events| <= k < |after| :: after[k].tick == |before|
    ensures SampleOk(d, before + [price], after, x)
  {
    if SamplesTick(d, before, events, x) {
      var n: nat :| TotalsAfter(events, n, x) && (forall k | 0 <= k < n :: events[k].tick <= x.tick)
                    && forall k | n <= k < |events| :: events[k].tick > x.tick;
      assert after[..n] == events[..n];
      assert TotalsAfter(after, n, x);
    } else {
      var n: nat :| SamplesEvent(d, events, n, x);
      assert after[..n] == events[..n];
      assert SamplesEvent(d, after, n, x);
    }
  }

  /** The run after one more price: its new events are all of the new tick. */
  lemma LastStep(d: Desk, zones: seq<Zone>, before: seq<real>, price: real)
    ensures var events, after := After(d, zones, before).state.book.events,
                                 After(d, zones, before + [price]).state.book.events;
            && events <= after
            && (forall k | |events| <= k < |after| :: after[k].tick == |before|)
            && (forall k | 0 <= k < |after| :: after[k].tick <= |before|)
  {
    RunEventsLieInTheirTicks(d, zones, before + [price]);
    AfterMore(d, zones, before, price);
    if |before| > 0 {
      AfterRests(d, zones, before);
      StepEvents(d, After(d, zones, before), price, |before|);
    }
  }

  /** The crossings of a tick are sampled event by event. */
  lemma TickCrossings(d: Desk, run: Run, price: real, tick: int)
    requires Totalled(run.state)
    ensures var r := Step(d, run, price, tick).state;
            && Totalled(r)
            && run.state.book.events <= r.book.events
            && OfTheEvents(d, r.book.events, |run.state.book.events|, SegmentSamples(d, run, price, tick))
  {
    if run.previous.At? && run.previous.price != price {
      SettleSamples(d, run.state, Heading(run.previous.price, price), price, tick);
    }
  }

  lemma OwnSample(d: Desk, zones: seq<Zone>, before: seq<real>, price: real)
    requires Totalled(After(d, zones, before + [price]).state)
    ensures var s, prices := After(d, zones, before + [price]).state, before + [price];
            SamplesTick(d, prices, s.book.events, SampleAfter(d, s, price, |before|, NoEvent))
  {
    var s := After(d, zones, before + [price]).state;
    var x := SampleAfter(d, s, price, |before|, NoEvent);
    LastStep(d, zones, before, price);
    SampleAddsUp(d, s, price, |before|, NoEvent);
    assert s.book.events[..|s.book.events|] == s.book.events;
    assert TotalsAfter(s.book.events, |s.book.events|, x);
  }

  ghost predicate EventSampled(d: Desk, events: seq<LedgerEvent>, n: nat, samples: seq<Snapshot>) {
    exists x <- samples :: SamplesEvent(d, events, n, x)
  }

  ghost predicate TickSampled(prices: seq<real>, tick: nat, samples: seq<Snapshot>)
    requires tick < |prices|
  {
    exists x <- samples :: x.tick == tick && x.price == prices[tick]
  }

  /** Every sample is that of an event or of a tick, and every event and every tick
      has its sample. */
  ghost predicate Sampled(d: Desk, prices: seq<real>, events: seq<LedgerEvent>, samples: seq<Snapshot>) {
    && (forall x <- samples :: SampleOk(d, prices, events, x))
    && (forall n: nat | 1 <= n <= |events| :: EventSampled(d, events, n, samples))
    && (forall t: nat | t < |prices| :: TickSampled(prices, t, samples))
  }

  lemma OneTickSampled(d: Desk, zones: seq<Zone>, before: seq<real>, price: real)
    requires Totalled(After(d, zones, before).state)
    ensures Totalled(After(d, zones, before + [price]).state)
    ensures var events, after := After(d, zones, before).state.book.events,
                                 After(d, zones, before + [price]).state.book.events;
            var samples := TickSamples(d, After(d, zones, before), price, |before|);
            && (forall x <- samples :: SampleOk(d, before + [price], after, x))
            && (forall n: nat | |events| < n <= |after| :: EventSampled(d, after, n, samples))
            && TickSampled(before + [price], |before|, samples)
  {
    var run := After(d, zones, before);
    var events, after := run.state.book.events, After(d, zones, before + [price]).state.book.events;
    var crossings, samples := SegmentSamples(d, run, price, |before|), TickSamples(d, run, price, |before|);
    var own := SampleAfter(d, Step(d, run, price, |before|).state, price, |before|, NoEvent);
    AfterMore(d, zones, before, price);
    TickCrossings(d, run, price, |before|);
    OwnSample(d, zones, before, price);
    CrossingsSampled(d, before + [price], after, |events|, crossings, samples);
    SegmentSampleTicks(d, run, price, |before|);
    assert forall x <- samples :: x in crossings || x == own;
    assert samples[|samples| - 1] in samples;
  }

  lemma CrossingsSampled(d: Desk, prices: seq<real>, after: seq<LedgerEvent>, from: nat, crossings: seq<Snapshot>,
                         samples: seq<Snapshot>)
    requires OfTheEvents(d, after, from, crossings) && crossings <= samples
    ensures forall x <- crossings :: SampleOk(d, prices, after, x)
    ensures forall n: nat | from < n <= |after| :: EventSampled(d, after, n, samples)
  {
    forall n: nat | from < n <= |after| ensures EventSampled(d, after, n, samples) {
      var k := n - 1 - from;
      assert SamplesEvent(d, after, from + 1 + k, crossings[k]) && crossings[k] == samples[k];
    }
    forall x <- crossings ensures SampleOk(d, prices, after, x) {
      var k :| 0 <= k < |crossings| && crossings[k] == x;
      assert SamplesEvent(d, after, from + 1 + k, x);
    }
  }

  /** On every path, from every start. */
  lemma {:induction false} RunIsSampled(d: Desk, zones: seq<Zone>, prices: seq<real>)
    ensures Totalled(After(d, zones, prices).state)
    ensures Sampled(d, prices, After(d, zones, prices).state.book.events,
                    ReplaySamples(d, FreshRun(zones), prices, 0))
  {
    if |prices| > 0 {
      var last := |prices| - 1;
      var before, price := prices[..last], prices[last];
      assert before + [price] == prices;
      RunIsSampled(d, zones, before);
      OneTickSampled(d, zones, before, price);
      LastStep(d, zones, before, price);
      MoreSampled(d, before, price, After(d, zones, before).state.book.events,
                  After(d, zones, prices).state.book.events, ReplaySamples(d, FreshRun(zones), before, 0),
                  TickSamples(d, After(d, zones, before), price, last));
    }
  }

  lemma MoreSampled(d: Desk, before: seq<real>, price: real, events: seq<LedgerEvent>, after: seq<LedgerEvent>,
                    samples: seq<Snapshot>, more: seq<Snapshot>)
    requires Sampled(d, before, events, samples) && events <= after
    requires forall k | |events| <= k < |after| :: after[k].tick == |before|
    requires forall x <- more :: SampleOk(d, before + [price], after, x)
    requires forall n: nat | |events| < n <= |after| :: EventSampled(d, after, n, more)
    requires TickSampled(before + [price], |before|, more)
    ensures Sampled(d, before + [price], after, samples + more)
  {
    forall x <- samples + more ensures SampleOk(d, before + [price], after, x) {
      if x in samples { StillOk(d, before, price, events, after, x); }
    }
    forall n: nat | 1 <= n <= |after| ensures EventSampled(d, after, n, samples + more) {
      if n <= |events| {
        EventStillSampled(d, events, after, n, samples);
        SampledInMore(d, after, n, samples, samples, more);
      } else {
        SampledInMore(d, after, n, more, samples, more);
      }
    }
    forall t: nat | t < |before| + 1 ensures TickSampled(before + [price], t, samples + more) {
      if t < |before| {
        assert TickSampled(before, t, samples);
        TickInMore(before, before + [price], t, samples, samples, more);
      } else {
        TickInMore(before + [price], before + [price], t, more, samples, more);
      }
    }
  }

  lemma EventStillSampled(d: Desk, events: seq<LedgerEvent>, after: seq<LedgerEvent>, n: nat, samples: seq<Snapshot>)
    requires events <= after && n <= |events| && EventSampled(d, events, n, samples)
    ensures EventSampled(d, after, n, samples)
  {
    var x :| x in samples && SamplesEvent(d, events, n, x);
    assert after[..n] == events[..n];
    assert SamplesEvent(d, after, n, x);
  }

  lemma SampledInMore(d: Desk, events: seq<LedgerEvent>, n: nat, part: seq<Snapshot>, samples: seq<Snapshot>,
                      more: seq<Snapshot>)
    requires EventSampled(d, events, n, part) && (part == samples || part == more)
    ensures EventSampled(d, events, n, samples + more)
  {
    var x :| x in part && SamplesEvent(d, events, n, x);
    assert x in samples + more;
  }

  lemma TickInMore(before: seq<real>, prices: seq<real>, t: nat, part: seq<Snapshot>, samples: seq<Snapshot>,
                   more: seq<Snapshot>)
    requires t < |before| && before <= prices && TickSampled(before, t, part) && (part == samples || part == more)
    ensures TickSampled(prices, t, samples + more)
  {
    var x :| x in part && x.tick == t && x.price == before[t];
    assert x in samples + more && prices[t] == before[t];
  }

  /** A tick's own price is not sampled when the crossing before it just was at that
      price of that tick. */
  ghost predicate OwnIsNew(samples: seq<Snapshot>) {
    forall j, k | 0 <= j < k < |samples| && k == j + 1 && samples[k].eventSequence == NoEvent ::
      samples[j].tick < samples[k].tick || samples[j].price != samples[k].price
  }

  lemma TickOwnIsNew(d: Desk, run: Run, price: real, tick: int)
    requires Totalled(run.state)
    ensures OwnIsNew(TickSamples(d, run, price, tick))
    ensures forall x <- TickSamples(d, run, price, tick) :: x.tick == tick
  {
    var crossings, samples := SegmentSamples(d, run, price, tick), TickSamples(d, run, price, tick);
    var events := Step(d, run, price, tick).state.book.events;
    TickCrossings(d, run, price, tick);
    SegmentSampleTicks(d, run, price, tick);
    forall k | 0 <= k < |crossings| ensures samples[k].eventSequence != NoEvent && samples[k].tick == tick {
      assert SamplesEvent(d, events, |run.state.book.events| + 1 + k, crossings[k]) && samples[k] in crossings;
    }
  }

  lemma {:induction false} RunOwnIsNew(d: Desk, zones: seq<Zone>, prices: seq<real>)
    ensures OwnIsNew(ReplaySamples(d, FreshRun(zones), prices, 0))
    ensures forall x <- ReplaySamples(d, FreshRun(zones), prices, 0) :: x.tick < |prices|
  {
    if |prices| > 0 {
      var last := |prices| - 1;
      var earlier := ReplaySamples(d, FreshRun(zones), prices[..last], 0);
      var samples := TickSamples(d, After(d, zones, prices[..last]), prices[last], last);
      RunOwnIsNew(d, zones, prices[..last]);
      RunIsSampled(d, zones, prices[..last]);
      TickOwnIsNew(d, After(d, zones, prices[..last]), prices[last], last);
      forall j | 0 <= j < |earlier| ensures earlier[j].tick < last { assert earlier[j] in earlier; }
      forall k | 0 <= k < |samples| ensures samples[k].tick == last { assert samples[k] in samples; }
    }
  }

  // ----- the metrics

  lemma {:induction false} LockedAreListed(levels: seq<Level>)
    ensures var locked := LockedIndices(levels);
            && (forall i: nat :: i in locked <==> i < |levels| && levels[i].state == Locked)
            && (forall j, k | 0 <= j < k < |locked| :: locked[j] < locked[k])
  {
    if |levels| > 0 {
      var last := |levels| - 1;
      LockedAreListed(levels[..last]);
      var before := LockedIndices(levels[..last]);
      assert forall i | i in before :: i < last;
      assert forall j | 0 <= j < |before| :: before[j] in before;
    }
  }

  /** The counters and totals that a run reports are those of its events. */
  ghost predicate CountsUp(d: Desk, r: StrategyResult) {
    var m, events := r.metrics, r.events;
    && m.entries == Count(IsEntry, events) && m.reentries == Count(IsReentry, events)
    && m.stops == Count(OfKind(StopEvent), events) && m.tps == Count(OfKind(TpEvent), events)
    && m.floorEntries == Count(OfKind(FloorEntryEvent), events)
    && m.breakevens == Count(OfKind(BreakevenEvent), events)
    && IsLargest(m.maximumQuantity, events)
    && m.budgetConsumed == Sum(Lost, events) && m.remainingBudget == d.spread.premium - Sum(Lost, events)
    && m.outstandingDebt == Sum(DebtOf, r.levels)
    && (forall i: nat :: i in m.lockedLevels <==> i < |r.levels| && r.levels[i].state == Locked)
    && (forall j, k | 0 <= j < k < |m.lockedLevels| :: m.lockedLevels[j] < m.lockedLevels[k])
  }

  /** The P&L figures that a run reports are those of its samples: the last one, the
      least one, and whether any of them is negative. */
  ghost predicate PnlIsSampled(prices: seq<real>, r: StrategyResult) {
    && r.inputPrices == prices && |r.snapshots| == |r.prices| > 0
    && (forall k | 0 <= k < |r.prices| :: r.prices[k] == r.snapshots[k].price)
    && r.metrics.combined == r.snapshots[|r.snapshots| - 1].combined
    && (forall x <- r.snapshots :: r.metrics.minimumCombined <= x.combined)
    && (exists x <- r.snapshots :: r.metrics.minimumCombined == x.combined)
    && (r.metrics.floorPass <==> forall x <- r.snapshots :: x.combined >= 0.0)
  }

  lemma PnlOfSamples(d: Desk, zones: seq<Zone>, prices: seq<real>)
    requires |prices| > 0
    ensures PnlIsSampled(prices, Account(d, zones, prices))
  {
    var samples, end := ReplaySamples(d, FreshRun(zones), prices, 0), After(d, zones, prices).state;
    SamplesExist(d, FreshRun(zones), prices, 0);
    PnlOfResult(d.spread, end.levels, end.book, prices, samples);
  }

  lemma MinimumIsTaken(samples: seq<Snapshot>)
    requires |samples| > 0
    ensures forall x <- samples :: MinimumCombined(samples) <= x.combined
    ensures exists x <- samples :: MinimumCombined(samples) == x.combined
  {
    MinimumCombinedIsLeast(samples);
    var k :| 0 <= k < |samples| && samples[k].combined == MinimumCombined(samples);
    assert samples[k] in samples;
  }

  lemma PnlOfResult(spread: CreditSpread, levels: seq<Level>, book: Book, prices: seq<real>, samples: seq<Snapshot>)
    requires |samples| > 0
    ensures PnlIsSampled(prices, ResultOf(spread, levels, book, prices, samples))
  {
    MinimumIsTaken(samples);
  }

  /** Everything an accounting run returns, on every path from every start, in terms of
      its events and the prices. */
  lemma ReportIsExact(d: Desk, zones: seq<Zone>, prices: seq<real>)
    requires Tiles(d.spread, d.rate, zones) && |prices| > 0
    ensures var r := Account(d, zones, prices);
            && EventsInOrder(zones, r.events) && InTheirTicks(prices, r.events) && KeepsToBudget(d, r.events)
            && StatesFollow(r.levels, r.events)
            && Sampled(d, prices, r.events, r.snapshots) && OwnIsNew(r.snapshots)
            && CountsUp(d, r) && PnlIsSampled(prices, r)
  {
    MetricsAreOfTheEnd(d, zones, prices);
    RunIsRecorded(d, zones, prices);
    RunEventsLieInTheirTicks(d, zones, prices);
    RunKeepsToBudget(d, zones, prices);
    RunIsSampled(d, zones, prices);
    RunOwnIsNew(d, zones, prices);
    PnlOfSamples(d, zones, prices);
    LockedAreListed(Account(d, zones, prices).levels);
  }
}
