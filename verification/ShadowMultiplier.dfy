/** For which contract multipliers the shadow stands for the live coordinator. The
    shadow adds up notional without the multiplier, so with any other multiplier
    than one some limit separates the two. */
module ShadowMultiplier {
  import opened VirtualLevels
  import opened InstrumentRules
  import opened RejectionReasons
  import opened LiveRisk
  import opened TriggerModel
  import opened ShadowFidelity

  /** Everything faithful asks for except the multiplier. */
  predicate Undisturbed(d: Desk, o: Observation, levels: seq<Level>) {
    d.spreadOpen && o.gateOpen && forall i: nat | i < |levels| :: o.completes(i)
  }

  /** Feeds the two services can meet: the same listed levels at every call, whose
      state may change in between, and positive prices. */
  ghost predicate Real(feed: seq<Moment>) {
    && (forall m | m in feed :: |m.levels| > 0 && HighestFirst(m.levels) && m.observation.event.price > 0.0)
    && Listed(feed)
  }

  ghost predicate SameDecisions(d: Desk, ids: OrderIds, feed: seq<Moment>) {
    ShadowRun(d, feed).1 == LiveRun(d, ids, feed).1
  }

  /** On every desk whose instrument has this multiplier, every undisturbed feed the
      services can meet leads both services to the same decisions. */
  ghost predicate AlwaysFaithful(multiplier: real) {
    forall d: Desk, ids: OrderIds, feed: seq<Moment>
      | d.instrument.multiplier == multiplier && d.quantity > 0.0 && Real(feed)
        && forall m | m in feed :: Undisturbed(d, m.observation, m.levels) ::
      SameDecisions(d, ids, feed)
  }

  // ----- a desk with two levels and a limit between the two ways of adding up

  function PlainInstrument(m: real): Instrument
    requires m > 0.0
  {
    Spec.Instrument(EthUsdt, Linear, Trading, 1.0, NoLimit, NoLimit, 1.0, 1.0, 1.0, NoLimit, m)
  }

  function Separating(m: real): real {
    if m < 1.0 then 5.0 * m else if 3.0 * m > 3.0 + 2.0 * m then 3.0 * m else 3.0 + 2.0 * m
  }

  function PlainDesk(m: real): Desk
    requires m > 0.0
  {
    Setup.Desk(PlainInstrument(m), LimitFigures.RiskLimits(9.0, Separating(m), m, 1.0, 1.0, m, 1.0, 1.0, 1, 9, 9, 1),
               1.0, true)
  }

  function LevelAt(entry: real): Level
    requires entry > 1.0
  {
    FreshLevel(Zone(entry, entry - 1.0, entry + 1.0, 1.0))
  }

  function TwoLevels(): seq<Level> {
    [LevelAt(3.0), LevelAt(2.0)]
  }

  /** Nothing placed yet. */
  function NoRisk(m: real): RiskState
    requires m > 0.0
  {
    RiskFigures(0.0, 0.0, m, 1.0, 0.0, 0.0, 0.0, 0, 0, 0, 0, true, true)
  }

  function Price(m: real, price: real): Observation
    requires m > 0.0
  {
    Observation(TriggerEvent(EthUsdt, LastTrade, price, 0), Health(true, []), NoRisk(m), true, i => true)
  }

  function Fall(m: real): seq<Moment>
    requires m > 0.0
  {
    [Moment(TwoLevels(), Price(m, 4.0)), Moment(TwoLevels(), Price(m, 1.0))]
  }

  lemma FallIsReal(m: real)
    requires m > 0.0
    ensures Real(Fall(m))
  {}

  function Risk(m: real, quantity: real, notional: real, count: nat): RiskState
    requires m > 0.0 && quantity >= 0.0 && notional >= 0.0
  {
    NoRisk(m).(perpQuantity := quantity, perpNotional := notional, activeLevels := count, orderRequests := count)
  }

  lemma WholeIsFixed(units: int)
    ensures FloorToStep(units as real, 1.0) == units as real && CeilToStep(units as real, 1.0) == units as real
  {
    GridIsFixed(units, 1.0);
  }

  lemma PlainOrder(m: real, units: int)
    requires m > 0.0 && 2 <= units <= 3
    ensures var q := EntryOrder(PlainDesk(m), LevelAt(units as real), 0.0);
            q.quantity == 1.0 && q.entry == units as real && q.notional == units as real * m
            && q.projectedStopLoss == m && q.Accepted()
  {
    WholeIsFixed(1);
    WholeIsFixed(units);
    WholeIsFixed(units - 1);
    WholeIsFixed(units + 1);
  }

  /** With up to one order placed, only the notional limit can object. */
  lemma NotionalDecides(m: real, units: int, quantity: real, notional: real, count: nat)
    requires m > 0.0 && 2 <= units <= 3 && 0.0 <= quantity <= 1.0 && notional >= 0.0 && count <= 1
    ensures |ShadowReasons(PlainDesk(m), LevelAt(units as real), Risk(m, quantity, notional, count))| == 0
            <==> notional + units as real * m <= Separating(m)
    ensures forall i: nat, l: Live | i !in l.submitted ::
              |LiveReasons(PlainDesk(m), LevelAt(units as real), i, l, true, Risk(m, quantity, notional, count))| == 0
              <==> notional + units as real * m <= Separating(m)
  {
    PlainOrder(m, units);
    var p := EntryProposal(EntryOrder(PlainDesk(m), LevelAt(units as real), 0.0));
    assert |When(notional + p.notional > Separating(m), MaximumNotional)| == 0
           <==> notional + units as real * m <= Separating(m);
  }

  lemma FallCrossesBoth()
    ensures Crossed(TwoLevels(), {0, 1}, 4.0, 1.0) == [0, 1]
    ensures Restarted(TwoLevels(), {}, 4.0) == {0, 1} && Rearmed(TwoLevels(), {0, 1}, {}, 1.0) == {0, 1}
  {
    var levels, r := TwoLevels(), Crossed(TwoLevels(), {0, 1}, 4.0, 1.0);
    assert Crosses(levels[0], 4.0, 1.0) && Crosses(levels[1], 4.0, 1.0);
    BothInOrder(r);
  }

  lemma BothInOrder(r: seq<nat>)
    requires 0 in r && 1 in r && forall k | 0 <= k < |r| :: r[k] < 2
    requires forall j, k | 0 <= j < k < |r| :: r[j] < r[k]
    ensures r == [0, 1]
  {
    AscendingAtLeast(r, |r| - 1);
  }

  lemma {:induction false} AscendingAtLeast(r: seq<nat>, k: nat)
    requires k < |r| && forall i, j | 0 <= i < j < |r| :: r[i] < r[j]
    ensures r[k] >= k
  {
    if k > 0 { AscendingAtLeast(r, k - 1); }
  }

  const BEFORE_SHADOW := Shadow(Linked(0, 1.0), {0, 1}, {}, 0)
  const BEFORE_LIVE := Live(Linked(0, 1.0), {0, 1}, map[], map[])

  /** The fall comes down to deciding the two levels from the armed state. */
  lemma ShadowFallIsTwoDecisions(d: Desk, m: real)
    requires m > 0.0
    ensures ShadowRun(d, Fall(m)).1 == ApprovedIntents(ShadowDecide(d, TwoLevels(), [0, 1], BEFORE_SHADOW, NoRisk(m)).1)
  {
    var feed := Fall(m);
    FallCrossesBoth();
    assert feed[..1][..0] == [] && feed[..1] == [feed[0]];
    var s := Shadow(Linked(0, 4.0), {0, 1}, {}, 0);
    assert ShadowRun(d, feed[..1]).0 == s && ShadowRun(d, feed[..1]).1 == [];
    assert ShadowProcess(d, TwoLevels(), s, Price(m, 1.0))
           == ShadowDecide(d, TwoLevels(), [0, 1], BEFORE_SHADOW, NoRisk(m));
    var decisions := ApprovedIntents(ShadowStep(d, TwoLevels(), s, Price(m, 1.0)).1.intents);
    assert ShadowRun(d, feed).1 == [] + decisions;
  }

  lemma LiveFallIsTwoDecisions(d: Desk, ids: OrderIds, m: real)
    requires m > 0.0
    ensures LiveRun(d, ids, Fall(m)).1
            == Submissions(LiveDecide(d, ids, TwoLevels(), [0, 1], BEFORE_LIVE, Price(m, 1.0), NoRisk(m)).1.entries)
  {
    var feed := Fall(m);
    FallCrossesBoth();
    assert feed[..1][..0] == [] && feed[..1] == [feed[0]];
    var s := Live(Linked(0, 4.0), {0, 1}, map[], map[]);
    assert s.submitted.Keys == {};
    assert LiveRun(d, ids, feed[..1]).0 == s && LiveRun(d, ids, feed[..1]).1 == [];
    assert LiveProcess(d, ids, TwoLevels(), s, Price(m, 1.0))
           == LiveDecide(d, ids, TwoLevels(), [0, 1], BEFORE_LIVE, Price(m, 1.0), NoRisk(m));
    var decisions := Submissions(LiveStep(d, ids, TwoLevels(), s, Price(m, 1.0)).1.entries);
    assert LiveRun(d, ids, feed).1 == [] + decisions;
  }

  lemma ShadowDecidesTwo(d: Desk, levels: seq<Level>, s: Shadow, risk: RiskState)
    requires |levels| == 2
    ensures var one := ShadowOne(d, levels[0], 0, s, risk);
            var two := ShadowOne(d, levels[1], 1, one.0, one.2);
            ApprovedIntents(ShadowDecide(d, levels, [0, 1], s, risk).1) == IntentDecision(one.1) + IntentDecision(two.1)
  {
    var one := ShadowOne(d, levels[0], 0, s, risk);
    var two := ShadowOne(d, levels[1], 1, one.0, one.2);
    assert [0, 1][1..] == [1];
    IntentsGrow(two.1, []);
    IntentsGrow(one.1, [two.1]);
    assert ShadowDecide(d, levels, [1], one.0, one.2).1 == [two.1];
  }

  lemma LiveDecidesLast(d: Desk, ids: OrderIds, levels: seq<Level>, i: nat, s: Live, o: Observation, risk: RiskState)
    requires i < |levels| && o.completes(i)
    ensures Submissions(LiveDecide(d, ids, levels, [i], s, o, risk).1.entries)
            == VerdictDecision(LiveOne(d, ids, levels[i], i, s, o, risk).1)
  {
    var one := LiveOne(d, ids, levels[i], i, s, o, risk);
    var nothing := LiveResult([], [], [], false);
    assert LiveDecide(d, ids, levels, [i], s, o, risk).1 == Prepend(i, one.1, nothing);
    EntriesGrow(i, one.1, nothing);
  }

  lemma LiveDecidesTwo(d: Desk, ids: OrderIds, levels: seq<Level>, s: Live, o: Observation, risk: RiskState)
    requires |levels| == 2 && o.completes(0) && o.completes(1)
    ensures var one := LiveOne(d, ids, levels[0], 0, s, o, risk);
            var two := LiveOne(d, ids, levels[1], 1, one.0, o, one.2);
            Submissions(LiveDecide(d, ids, levels, [0, 1], s, o, risk).1.entries)
            == VerdictDecision(one.1) + VerdictDecision(two.1)
  {
    var one := LiveOne(d, ids, levels[0], 0, s, o, risk);
    var two := LiveOne(d, ids, levels[1], 1, one.0, o, one.2);
    assert [0, 1][1..] == [1];
    LiveDecidesLast(d, ids, levels, 1, one.0, o, one.2);
    EntriesGrow(0, one.1, LiveDecide(d, ids, levels, [1], one.0, o, one.2).1);
  }

  lemma ShadowFalls(m: real)
    requires m > 0.0 && 3.0 * m <= Separating(m)
    ensures |ShadowRun(PlainDesk(m), Fall(m)).1| == if 3.0 + 2.0 * m <= Separating(m) then 2 else 1
  {
    var d, levels := PlainDesk(m), TwoLevels();
    ShadowFallIsTwoDecisions(d, m);
    ShadowDecidesTwo(d, levels, BEFORE_SHADOW, NoRisk(m));
    FirstIsApproved(m);
    NotionalDecides(m, 2, 1.0, 3.0, 1);
    var one := ShadowOne(d, levels[0], 0, BEFORE_SHADOW, NoRisk(m));
    var two := ShadowOne(d, levels[1], 1, one.0, one.2);
    assert two.1.approved <==> 3.0 + 2.0 * m <= Separating(m);
  }

  lemma FirstIsApproved(m: real)
    requires m > 0.0 && 3.0 * m <= Separating(m)
    ensures var one := ShadowOne(PlainDesk(m), LevelAt(3.0), 0, BEFORE_SHADOW, NoRisk(m));
            one.1.approved && one.2 == Risk(m, 1.0, 3.0, 1)
  {
    PlainOrder(m, 3);
    NotionalDecides(m, 3, 0.0, 0.0, 0);
  }

  lemma LiveFalls(m: real, ids: OrderIds)
    requires m > 0.0 && 3.0 * m <= Separating(m)
    ensures |LiveRun(PlainDesk(m), ids, Fall(m)).1| == if 3.0 * m + 2.0 * m <= Separating(m) then 2 else 1
  {
    var d, levels, o := PlainDesk(m), TwoLevels(), Price(m, 1.0);
    LiveFallIsTwoDecisions(d, ids, m);
    LiveDecidesTwo(d, ids, levels, BEFORE_LIVE, o, NoRisk(m));
    NotionalDecides(m, 2, 1.0, 3.0 * m, 1);
    var one := LiveOne(d, ids, levels[0], 0, BEFORE_LIVE, o, NoRisk(m));
    FirstIsSubmitted(m, ids);
    var two := LiveOne(d, ids, levels[1], 1, one.0, o, one.2);
    assert two.1.Submitted? <==> 3.0 * m + 2.0 * m <= Separating(m);
  }

  lemma FirstIsSubmitted(m: real, ids: OrderIds)
    requires m > 0.0 && 3.0 * m <= Separating(m)
    ensures var one := LiveOne(PlainDesk(m), ids, LevelAt(3.0), 0, BEFORE_LIVE, Price(m, 1.0), NoRisk(m));
            one.1.Submitted? && one.2 == Risk(m, 1.0, 3.0 * m, 1) && 1 !in one.0.submitted
  {
    PlainOrder(m, 3);
    NotionalDecides(m, 3, 0.0, 0.0, 0);
  }

  /** The fall separates the two services whatever the order IDs. */
  lemma FallSeparates(m: real, ids: OrderIds)
    requires m > 0.0 && m != 1.0
    ensures !SameDecisions(PlainDesk(m), ids, Fall(m))
  {
    ShadowFalls(m);
    LiveFalls(m, ids);
    assert 3.0 + 2.0 * m <= Separating(m) <==> m > 1.0;
    assert 3.0 * m + 2.0 * m <= Separating(m) <==> m < 1.0;
  }

  /** The shadow is faithful on every desk exactly when the multiplier is one. */
  lemma FaithfulIffMultiplierIsOne(m: real)
    requires m > 0.0
    ensures AlwaysFaithful(m) <==> m == 1.0
  {
    if m == 1.0 {
      forall d: Desk, ids: OrderIds, feed: seq<Moment>
        | d.instrument.multiplier == m && d.quantity > 0.0 && Real(feed)
          && forall x | x in feed :: Undisturbed(d, x.observation, x.levels)
        ensures SameDecisions(d, ids, feed)
      {
        forall x | x in feed ensures Faithful(d, x.observation, x.levels) {
          assert Undisturbed(d, x.observation, x.levels);
        }
        ShadowIsFaithful(d, ids, feed);
      }
    } else {
      var ids: OrderIds := (level, attempt) => "E";
      FallSeparates(m, ids);
      FallIsReal(m);
      assert forall x | x in Fall(m) :: Undisturbed(PlainDesk(m), x.observation, x.levels);
    }
  }
}
