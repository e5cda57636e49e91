/** The shadow service and the live coordinator as they run, with their armed
    levels, decisions and submissions updated in place. */
module TriggerServices {
  import opened VirtualLevels
  import opened LiveRisk
  import opened RejectionReasons
  import opened TriggerModel

  lemma RearmStep(levels: seq<Level>, armed: set<nat>, done: set<nat>, price: real, i: nat)
    requires i < |levels|
    ensures Rearmed(levels[..i + 1], armed, done, price)
            == Rearmed(levels[..i], armed, done, price)
               + (if price >= levels[i].zone.entry && i !in done then {i} else {})
  {}

  lemma RestartStep(levels: seq<Level>, done: set<nat>, price: real, i: nat)
    requires i < |levels|
    ensures Restarted(levels[..i + 1], done, price)
            == Restarted(levels[..i], done, price) + (if price >= levels[i].zone.entry && i !in done then {i} else {})
  {}

  /** What the shadow has still to decide after `k` crossed levels: `tail` is
      ShadowDecide on the rest, known only by its first step. */
  lemma ShadowTail(d: Desk, levels: seq<Level>, crossed: seq<nat>)
    returns (tail: (nat, Shadow, RiskState) -> (Shadow, seq<Intent>))
    requires forall k | 0 <= k < |crossed| :: crossed[k] < |levels|
    ensures forall s, risk :: tail(0, s, risk) == ShadowDecide(d, levels, crossed, s, risk)
    ensures forall s, risk :: tail(|crossed|, s, risk) == (s, [])
    ensures forall k: nat, s, risk {:trigger ShadowOne(d, levels[crossed[k]], crossed[k], s, risk)} | k < |crossed| ::
              var one := ShadowOne(d, levels[crossed[k]], crossed[k], s, risk);
              tail(k, s, risk) == (tail(k + 1, one.0, one.2).0, [one.1] + tail(k + 1, one.0, one.2).1)
  {
    tail := (k: nat, s: Shadow, risk: RiskState) =>
      if k <= |crossed| then ShadowDecide(d, levels, crossed[k..], s, risk) else (s, []);
    assert crossed[0..] == crossed;
    forall k: nat, s, risk | k < |crossed|
      ensures var one := ShadowOne(d, levels[crossed[k]], crossed[k], s, risk);
              tail(k, s, risk) == (tail(k + 1, one.0, one.2).0, [one.1] + tail(k + 1, one.0, one.2).1)
    {
      assert crossed[k..][1..] == crossed[k + 1..];
    }
  }

  /** The same for the coordinator; a raised submission ends the call. */
  ghost predicate FollowsLive(d: Desk, ids: OrderIds, levels: seq<Level>, crossed: seq<nat>, o: Observation,
                              tail: (nat, Live, RiskState) -> (Live, LiveResult))
  {
    && (forall k | 0 <= k < |crossed| :: crossed[k] < |levels|)
    && forall k: nat, s, risk | k <= |crossed| ::
         tail(k, s, risk) == LiveDecide(d, ids, levels, crossed[k..], s, o, risk)
  }

  lemma LiveTail(d: Desk, ids: OrderIds, levels: seq<Level>, crossed: seq<nat>, o: Observation)
    returns (tail: (nat, Live, RiskState) -> (Live, LiveResult))
    requires forall k | 0 <= k < |crossed| :: crossed[k] < |levels|
    ensures FollowsLive(d, ids, levels, crossed, o, tail)
    ensures forall s, risk :: tail(0, s, risk) == LiveDecide(d, ids, levels, crossed, s, o, risk)
  {
    tail := (k: nat, s: Live, risk: RiskState) =>
      if k <= |crossed| then LiveDecide(d, ids, levels, crossed[k..], s, o, risk)
      else (s, LiveResult([], [], [], false));
    assert crossed[0..] == crossed;
  }

  lemma LiveTailStep(d: Desk, ids: OrderIds, levels: seq<Level>, crossed: seq<nat>, o: Observation,
                     tail: (nat, Live, RiskState) -> (Live, LiveResult), k: nat, s: Live, risk: RiskState)
    requires FollowsLive(d, ids, levels, crossed, o, tail) && k < |crossed|
    ensures var one := LiveOne(d, ids, levels[crossed[k]], crossed[k], s, o, risk);
            var rest := tail(k + 1, one.0, one.2);
            tail(k, s, risk) == if one.1.Raised? then (one.0, LiveResult([], [], [], true))
                                else (rest.0, Prepend(crossed[k], one.1, rest.1))
  {
    assert crossed[k..][1..] == crossed[k + 1..];
  }

  lemma LiveTailEnds(d: Desk, ids: OrderIds, levels: seq<Level>, crossed: seq<nat>, o: Observation,
                     tail: (nat, Live, RiskState) -> (Live, LiveResult), s: Live, risk: RiskState)
    requires FollowsLive(d, ids, levels, crossed, o, tail)
    ensures tail(|crossed|, s, risk) == (s, LiveResult([], [], [], false))
  {
    assert crossed[|crossed|..] == [];
  }

  /** `all` is what was gathered so far followed by `rest`. */
  ghost predicate Continues(all: LiveResult, entries: seq<Submission>, blocked: seq<Block>, rest: LiveResult) {
    && all.entries == entries + rest.entries && all.blocked == blocked + rest.blocked
    && all.reasons == rest.reasons && all.raised == rest.raised
  }

  lemma ContinuesAfter(all: LiveResult, entries: seq<Submission>, blocked: seq<Block>, i: nat, verdict: Verdict,
                       rest: LiveResult)
    requires !verdict.Raised? && Continues(all, entries, blocked, Prepend(i, verdict, rest))
    ensures verdict.Submitted? ==> Continues(all, entries + [verdict.entry], blocked, rest)
    ensures verdict.Blocked? ==> Continues(all, entries, blocked + [Block(i, verdict.reasons)], rest)
  {}

  class ShadowModeService {
    const desk: Desk
    const levels: seq<HedgeLevel>
    var link: Link
    var armed: set<nat>
    var decided: set<nat>
    var sequence: nat

    constructor (desk: Desk, levels: seq<HedgeLevel>)
      ensures this.desk == desk && this.levels == levels && View() == FRESH_SHADOW
    {
      this.desk, this.levels := desk, levels;
      link, armed, decided, sequence := Unlinked, {}, {}, 0;
    }

    function View(): Shadow
      reads this
    {
      Shadow(link, armed, decided, sequence)
    }

    method ResetSegment(views: seq<Level>, event: TriggerEvent)
      modifies this`link, this`armed
      ensures View() == old(View()).(link := Linked(event.generation, event.price),
                                     armed := Restarted(views, decided, event.price))
      ensures forall i: nat :: i in armed <==> i < |views| && event.price >= views[i].zone.entry && i !in decided
    {
      link := Linked(event.generation, event.price);
      armed := {};
      var i := 0;
      while i < |views|
        invariant 0 <= i <= |views|
        invariant link == Linked(event.generation, event.price)
        invariant armed == Restarted(views[..i], decided, event.price)
      {
        RestartStep(views, decided, event.price, i);
        if i !in decided && event.price >= views[i].zone.entry {
          armed := armed + {i};
        }
        i := i + 1;
      }
      assert views[..i] == views;
    }

    method ArmLevels(views: seq<Level>, price: real)
      modifies this`armed
      ensures armed == Rearmed(views, old(armed), decided, price)
      ensures forall i: nat :: i in armed <==>
                i in old(armed) || (i < |views| && price >= views[i].zone.entry && i !in decided)
    {
      var i := 0;
      while i < |views|
        invariant 0 <= i <= |views|
        invariant armed == Rearmed(views[..i], old(armed), decided, price)
      {
        RearmStep(views, old(armed), decided, price, i);
        if price >= views[i].zone.entry && i !in decided {
          armed := armed + {i};
        }
        i := i + 1;
      }
      assert views[..i] == views;
    }

    method DecideLevel(views: seq<Level>, i: nat, risk: RiskState) returns (intent: Intent, after: RiskState)
      requires i < |views|
      modifies this`armed, this`decided, this`sequence
      ensures (View(), intent, after) == ShadowOne(desk, views[i], i, old(View()), risk)
    {
      armed := armed - {i};
      sequence := sequence + 1;
      intent := Evaluate(desk, views[i], i, sequence, risk);
      if intent.approved {
        decided := decided + {i};
      }
      after := ShadowRiskAfter(risk, intent);
    }

    method DecideCrossed(views: seq<Level>, crossed: seq<nat>, risk: RiskState) returns (intents: seq<Intent>)
      requires forall k | 0 <= k < |crossed| :: crossed[k] < |views|
      modifies this`armed, this`decided, this`sequence
      ensures View() == ShadowDecide(desk, views, crossed, old(View()), risk).0
      ensures intents == ShadowDecide(desk, views, crossed, old(View()), risk).1
    {
      ghost var start := View();
      ghost var tail := ShadowTail(desk, views, crossed);
      intents := [];
      var effective := risk;
      var k := 0;
      while k < |crossed|
        invariant 0 <= k <= |crossed|
        invariant tail(0, start, risk).0 == tail(k, View(), effective).0
        invariant tail(0, start, risk).1 == intents + tail(k, View(), effective).1
      {
        ghost var before := View();
        var intent, after := DecideLevel(views, crossed[k], effective);
        ghost var rest := tail(k + 1, View(), after);
        assert tail(k, before, effective) == (rest.0, [intent] + rest.1);
        assert intents + ([intent] + rest.1) == intents + [intent] + rest.1;
        intents := intents + [intent];
        effective := after;
        k := k + 1;
      }
      assert tail(k, View(), effective) == (View(), []);
      assert intents == tail(0, start, risk).1;
    }

    method Process(views: seq<Level>, o: Observation) returns (intents: seq<Intent>)
      requires link.Linked?
      modifies this
      ensures View() == ShadowProcess(desk, views, old(View()), o).0
      ensures intents == ShadowProcess(desk, views, old(View()), o).1
    {
      var previous := link.previous;
      ArmLevels(views, o.event.price);
      var crossed := Crossed(views, armed, previous, o.event.price);
      link := Linked(link.generation, o.event.price);
      intents := DecideCrossed(views, crossed, o.risk);
    }

    method OnTrigger(o: Observation) returns (r: ShadowResult)
      modifies this
      ensures View() == ShadowStep(desk, ViewsOf(levels), old(View()), o).0
      ensures r == ShadowStep(desk, ViewsOf(levels), old(View()), o).1
    {
      var event, views := o.event, ViewsOf(levels);
      if event.symbol != desk.instrument.symbol { return ShadowResult([], [WrongSymbol]); }
      if event.source != LastTrade { return ShadowResult([], [WrongSource]); }
      if !o.health.tradingAllowed { return ShadowResult([], o.health.reasons); }
      if link.Unlinked? {
        ResetSegment(views, event);
        return ShadowResult([], []);
      }
      if event.generation < link.generation { return ShadowResult([], [StaleGeneration]); }
      if event.generation > link.generation {
        ResetSegment(views, event);
        return ShadowResult([], [ChangedGeneration]);
      }
      var intents := Process(views, o);
      return ShadowResult(intents, []);
    }
  }

  class MultiLevelCoordinator {
    const desk: Desk
    const levels: seq<HedgeLevel>
    const ids: OrderIds
    var link: Link
    var armed: set<nat>
    var attempts: map<nat, nat>
    var submitted: map<nat, string>

    constructor (desk: Desk, levels: seq<HedgeLevel>, ids: OrderIds)
      ensures this.desk == desk && this.levels == levels && this.ids == ids && View() == FRESH_LIVE
    {
      this.desk, this.levels, this.ids := desk, levels, ids;
      link, armed, attempts, submitted := Unlinked, {}, map[], map[];
    }

    function View(): Live
      reads this
    {
      Live(link, armed, attempts, submitted)
    }

    method ResetSegment(views: seq<Level>, event: TriggerEvent)
      modifies this`link, this`armed
      ensures View() == old(View()).(link := Linked(event.generation, event.price),
                                     armed := Restarted(views, submitted.Keys, event.price))
      ensures forall i: nat :: i in armed <==> i < |views| && event.price >= views[i].zone.entry && i !in submitted
    {
      link := Linked(event.generation, event.price);
      armed := {};
      var i := 0;
      while i < |views|
        invariant 0 <= i <= |views|
        invariant link == Linked(event.generation, event.price)
        invariant armed == Restarted(views[..i], submitted.Keys, event.price)
      {
        RestartStep(views, submitted.Keys, event.price, i);
        if i !in submitted && event.price >= views[i].zone.entry {
          armed := armed + {i};
        }
        i := i + 1;
      }
      assert views[..i] == views;
    }

    method ArmLevels(views: seq<Level>, price: real)
      modifies this`armed
      ensures armed == Rearmed(views, old(armed), submitted.Keys, price)
      ensures forall i: nat :: i in armed <==>
                i in old(armed) || (i < |views| && price >= views[i].zone.entry && i !in submitted)
    {
      var i := 0;
      while i < |views|
        invariant 0 <= i <= |views|
        invariant armed == Rearmed(views[..i], old(armed), submitted.Keys, price)
      {
        RearmStep(views, old(armed), submitted.Keys, price, i);
        if price >= views[i].zone.entry && i !in submitted {
          armed := armed + {i};
        }
        i := i + 1;
      }
      assert views[..i] == views;
    }

    /** Submits what the gate, the preflight checks, the rounding rules and the
        risk engine let through. */
    method HandleLevel(views: seq<Level>, i: nat, o: Observation, risk: RiskState)
      returns (verdict: Verdict, after: RiskState)
      requires i < |views|
      modifies this`armed, this`attempts, this`submitted
      ensures (View(), verdict, after) == LiveOne(desk, ids, views[i], i, old(View()), o, risk)
    {
      armed := armed - {i};
      after := risk;
      var reasons := LiveReasons(desk, views[i], i, View(), o.gateOpen, risk);
      if |reasons| > 0 {
        verdict := Blocked(reasons);
      } else {
        var quantized := EntryOrder(desk, views[i], 0.0);
        var attempt := Attempt(View(), i);
        var order := ids(i, attempt);
        attempts := attempts[i := attempt];
        submitted := submitted[i := order];
        if o.completes(i) {
          verdict := Submitted(Submission(i, quantized.quantity, order));
          after := AfterEntry(risk, quantized.quantity, quantized.notional);
        } else {
          verdict := Raised;
        }
      }
    }

    /** Handles one crossed level and adds what became of it to what was gathered. */
    method HandleNext(views: seq<Level>, crossed: seq<nat>, k: nat, o: Observation, risk: RiskState,
                      gathered: LiveResult, ghost tail: (nat, Live, RiskState) -> (Live, LiveResult),
                      ghost all: LiveResult)
      returns (r: LiveResult, after: RiskState)
      requires k < |crossed| && crossed[k] < |views| && gathered.reasons == [] && !gathered.raised
      requires FollowsLive(desk, ids, views, crossed, o, tail)
      requires Continues(all, gathered.entries, gathered.blocked, tail(k, View(), risk).1)
      modifies this`armed, this`attempts, this`submitted
      ensures r.raised ==> r == all && tail(k, old(View()), risk).0 == View()
      ensures !r.raised ==>
                && r.reasons == [] && Continues(all, r.entries, r.blocked, tail(k + 1, View(), after).1)
                && tail(k, old(View()), risk).0 == tail(k + 1, View(), after).0
    {
      ghost var before := View();
      var verdict: Verdict;
      verdict, after := HandleLevel(views, crossed[k], o, risk);
      ghost var rest := tail(k + 1, View(), after);
      LiveTailStep(desk, ids, views, crossed, o, tail, k, before, risk);
      match verdict {
        case Raised =>
          r := gathered.(raised := true);
        case Submitted(entry) =>
          ContinuesAfter(all, gathered.entries, gathered.blocked, crossed[k], verdict, rest.1);
          r := gathered.(entries := gathered.entries + [entry]);
        case Blocked(reasons) =>
          ContinuesAfter(all, gathered.entries, gathered.blocked, crossed[k], verdict, rest.1);
          r := gathered.(blocked := gathered.blocked + [Block(crossed[k], reasons)]);
      }
    }

    /** Handles the crossed levels in order. A submission that does not complete
        ends the call, with the level already marked as submitted. */
    method SubmitCrossed(views: seq<Level>, crossed: seq<nat>, o: Observation) returns (r: LiveResult)
      requires forall k | 0 <= k < |crossed| :: crossed[k] < |views|
      modifies this`armed, this`attempts, this`submitted
      ensures View() == LiveDecide(desk, ids, views, crossed, old(View()), o, o.risk).0
      ensures r == LiveDecide(desk, ids, views, crossed, old(View()), o, o.risk).1
    {
      ghost var tail := LiveTail(desk, ids, views, crossed, o);
      ghost var all := tail(0, View(), o.risk);
      var effective := o.risk;
      var k := 0;
      r := LiveResult([], [], [], false);
      while k < |crossed|
        invariant 0 <= k <= |crossed| && r.reasons == [] && !r.raised
        invariant all.0 == tail(k, View(), effective).0
        invariant Continues(all.1, r.entries, r.blocked, tail(k, View(), effective).1)
      {
        r, effective := HandleNext(views, crossed, k, o, effective, r, tail, all.1);
        if r.raised { return; }
        k := k + 1;
      }
      LiveTailEnds(desk, ids, views, crossed, o, tail, View(), effective);
    }

    method Process(views: seq<Level>, o: Observation) returns (r: LiveResult)
      requires link.Linked?
      modifies this
      ensures View() == LiveProcess(desk, ids, views, old(View()), o).0
      ensures r == LiveProcess(desk, ids, views, old(View()), o).1
    {
      var previous := link.previous;
      ArmLevels(views, o.event.price);
      var crossed := Crossed(views, armed, previous, o.event.price);
      link := Linked(link.generation, o.event.price);
      r := SubmitCrossed(views, crossed, o);
    }

    method OnTrigger(o: Observation) returns (r: LiveResult)
      modifies this
      ensures View() == LiveStep(desk, ids, ViewsOf(levels), old(View()), o).0
      ensures r == LiveStep(desk, ids, ViewsOf(levels), old(View()), o).1
    {
      var event, views := o.event, ViewsOf(levels);
      if event.symbol != desk.instrument.symbol { return LiveResult([], [], [WrongSymbol], false); }
      if event.source != LastTrade { return LiveResult([], [], [WrongSource], false); }
      if !o.health.tradingAllowed { return LiveResult([], [], o.health.reasons, false); }
      if link.Unlinked? {
        ResetSegment(views, event);
        return LiveResult([], [], [], false);
      }
      if event.generation < link.generation { return LiveResult([], [], [StaleGeneration], false); }
      if event.generation > link.generation {
        ResetSegment(views, event);
        return LiveResult([], [], [ChangedGeneration], false);
      }
      r := Process(views, o);
    }
  }
}
