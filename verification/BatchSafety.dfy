/** What the live coordinator may submit: each level at most once over a whole
    feed, in price order within a trigger, and never past the risk limits. Holds
    for every feed, every gate state and every failing submission. */
module BatchSafety {
  import opened VirtualLevels
  import opened LiveRisk
  import opened TriggerModel
  import opened ShadowFidelity

  function AfterOrder(d: Desk, level: Level, risk: RiskState): RiskState {
    var q := EntryOrder(d, level, 0.0);
    AfterEntry(risk, q.quantity, q.notional)
  }

  predicate OnLevels(levels: seq<Level>, entries: seq<Submission>) {
    forall k | 0 <= k < |entries| :: entries[k].level < |levels|
  }

  /** The risk state after a batch of submissions. */
  function RiskAfter(d: Desk, levels: seq<Level>, risk: RiskState, entries: seq<Submission>): RiskState
    requires OnLevels(levels, entries)
    decreases |entries|
  {
    if |entries| == 0 then risk
    else RiskAfter(d, levels, AfterOrder(d, levels[entries[0].level], risk), entries[1..])
  }

  /** Submissions come in the order of the crossed levels, each on a level that
      was not submitted before and is afterwards. */
  ghost predicate InOrder(levels: seq<Level>, crossed: seq<nat>, before: set<nat>, after: set<nat>,
                          entries: seq<Submission>) {
    && before <= after
    && (forall k | 0 <= k < |entries| ::
          entries[k].level in crossed && entries[k].level < |levels| && entries[k].level !in before
          && entries[k].level in after)
    && (forall j, k | 0 <= j < k < |entries| :: entries[j].level < entries[k].level)
  }

  lemma PrependKeepsOrder(levels: seq<Level>, crossed: seq<nat>, before: set<nat>, middle: set<nat>, after: set<nat>,
                          first: Submission, rest: seq<Submission>)
    requires |crossed| > 0 && first.level == crossed[0] && first.level < |levels|
    requires first.level !in before && middle == before + {first.level}
    requires forall j, k | 0 <= j < k < |crossed| :: crossed[j] < crossed[k]
    requires InOrder(levels, crossed[1..], middle, after, rest)
    ensures InOrder(levels, crossed, before, after, [first] + rest)
  {
    forall k | 0 <= k < |rest| ensures first.level < rest[k].level {
      var tail := crossed[1..];
      assert rest[k].level in tail;
      var j :| 0 <= j < |tail| && tail[j] == rest[k].level;
      assert crossed[0] < crossed[j + 1];
    }
  }

  lemma WidenKeepsOrder(levels: seq<Level>, crossed: seq<nat>, before: set<nat>, after: set<nat>,
                        entries: seq<Submission>)
    requires |crossed| > 0 && InOrder(levels, crossed[1..], before, after, entries)
    ensures InOrder(levels, crossed, before, after, entries)
  {}

  lemma {:induction false} BatchIsOrdered(d: Desk, ids: OrderIds, levels: seq<Level>, crossed: seq<nat>, s: Live,
                                          o: Observation, risk: RiskState)
    requires forall k | 0 <= k < |crossed| :: crossed[k] < |levels|
    requires forall j, k | 0 <= j < k < |crossed| :: crossed[j] < crossed[k]
    ensures var b := LiveDecide(d, ids, levels, crossed, s, o, risk);
            InOrder(levels, crossed, s.submitted.Keys, b.0.submitted.Keys, b.1.entries)
  {
    if |crossed| > 0 {
      var i, tail := crossed[0], crossed[1..];
      var q := EntryOrder(d, levels[i], 0.0);
      var disarmed := s.(armed := s.armed - {i});
      var b := LiveDecide(d, ids, levels, crossed, s, o, risk);
      if |LiveReasons(d, levels[i], i, disarmed, o.gateOpen, risk)| > 0 {
        BatchIsOrdered(d, ids, levels, tail, disarmed, o, risk);
        WidenKeepsOrder(levels, crossed, s.submitted.Keys, b.0.submitted.Keys, b.1.entries);
      } else {
        var attempt := Attempt(s, i);
        var after := disarmed.(attempts := s.attempts[i := attempt], submitted := s.submitted[i := ids(i, attempt)]);
        assert i !in s.submitted;
        if o.completes(i) {
          BatchIsOrdered(d, ids, levels, tail, after, o, AfterEntry(risk, q.quantity, q.notional));
          PrependKeepsOrder(levels, crossed, s.submitted.Keys, after.submitted.Keys, b.0.submitted.Keys,
                            b.1.entries[0], b.1.entries[1..]);
          assert b.1.entries == [b.1.entries[0]] + b.1.entries[1..];
        }
      }
    }
  }

  /** If a trigger submits anything, the totals after its whole batch are within
      the limits. */
  lemma {:induction false} BatchWithinLimits(d: Desk, ids: OrderIds, levels: seq<Level>, crossed: seq<nat>, s: Live,
                                             o: Observation, risk: RiskState)
    requires forall k | 0 <= k < |crossed| :: crossed[k] < |levels|
    requires forall j, k | 0 <= j < k < |crossed| :: crossed[j] < crossed[k]
    ensures var b := LiveDecide(d, ids, levels, crossed, s, o, risk);
            && OnLevels(levels, b.1.entries)
            && (|b.1.entries| > 0 ==> WithinLimits(RiskAfter(d, levels, risk, b.1.entries), d.limits))
  {
    BatchIsOrdered(d, ids, levels, crossed, s, o, risk);
    if |crossed| > 0 {
      var i, tail := crossed[0], crossed[1..];
      var q := EntryOrder(d, levels[i], 0.0);
      var disarmed := s.(armed := s.armed - {i});
      if |LiveReasons(d, levels[i], i, disarmed, o.gateOpen, risk)| > 0 {
        BatchWithinLimits(d, ids, levels, tail, disarmed, o, risk);
      } else if o.completes(i) {
        var attempt := Attempt(s, i);
        var after := disarmed.(attempts := s.attempts[i := attempt], submitted := s.submitted[i := ids(i, attempt)]);
        ApprovalKeepsLimits(EntryProposal(q), risk, d.limits);
        BatchWithinLimits(d, ids, levels, tail, after, o, AfterEntry(risk, q.quantity, q.notional));
        var rest := LiveDecide(d, ids, levels, tail, after, o, AfterEntry(risk, q.quantity, q.notional)).1.entries;
        var entries := LiveDecide(d, ids, levels, crossed, s, o, risk).1.entries;
        assert entries[1..] == rest;
      }
    }
  }

  // ----- whole feeds

  lemma StepIsOrdered(d: Desk, ids: OrderIds, levels: seq<Level>, s: Live, o: Observation)
    ensures var b := LiveStep(d, ids, levels, s, o);
            && s.submitted.Keys <= b.0.submitted.Keys
            && (forall k | 0 <= k < |b.1.entries| ::
                  && b.1.entries[k].level !in s.submitted && b.1.entries[k].level in b.0.submitted
                  && b.1.entries[k].level < |levels|
                  && Crosses(levels[b.1.entries[k].level], s.link.previous, o.event.price))
            && (forall j, k | 0 <= j < k < |b.1.entries| :: b.1.entries[j].level < b.1.entries[k].level)
            && (|b.1.entries| > 0 ==> WithinLimits(RiskAfter(d, levels, o.risk, b.1.entries), d.limits))
  {
    if s.link.Linked? {
      var armed := Rearmed(levels, s.armed, s.submitted.Keys, o.event.price);
      var crossed := Crossed(levels, armed, s.link.previous, o.event.price);
      var armedState := s.(link := Linked(s.link.generation, o.event.price), armed := armed);
      BatchIsOrdered(d, ids, levels, crossed, armedState, o, o.risk);
      BatchWithinLimits(d, ids, levels, crossed, armedState, o, o.risk);
    }
  }

  /** Within one trigger the entries go from the highest level down. */
  lemma EntriesDescend(d: Desk, ids: OrderIds, levels: seq<Level>, s: Live, o: Observation)
    requires HighestFirst(levels)
    ensures var entries := LiveStep(d, ids, levels, s, o).1.entries;
            forall j, k | 0 <= j < k < |entries| ::
              && entries[j].level < entries[k].level < |levels|
              && levels[entries[j].level].zone.entry >= levels[entries[k].level].zone.entry
  {
    StepIsOrdered(d, ids, levels, s, o);
  }

  lemma {:induction false} SubmissionsKeepLevels(entries: seq<Submission>)
    ensures |Submissions(entries)| == |entries|
    ensures forall k | 0 <= k < |entries| :: Submissions(entries)[k].level == entries[k].level
  {
    if |entries| > 0 { SubmissionsKeepLevels(entries[1..]); }
  }

  ghost predicate AllSettled(decisions: seq<Decision>, submitted: set<nat>) {
    forall k | 0 <= k < |decisions| :: decisions[k].level in submitted
  }

  ghost predicate AllDifferent(decisions: seq<Decision>) {
    forall j, k | 0 <= j < k < |decisions| :: decisions[j].level != decisions[k].level
  }

  /** No level is submitted twice in any feed. */
  lemma {:induction false} EachLevelOnce(d: Desk, ids: OrderIds, feed: seq<Moment>)
    ensures AllSettled(LiveRun(d, ids, feed).1, LiveRun(d, ids, feed).0.submitted.Keys)
    ensures AllDifferent(LiveRun(d, ids, feed).1)
  {
    if |feed| > 0 {
      var last := |feed| - 1;
      var before := LiveRun(d, ids, feed[..last]);
      EachLevelOnce(d, ids, feed[..last]);
      StepIsOrdered(d, ids, feed[last].levels, before.0, feed[last].observation);
      var step := LiveStep(d, ids, feed[last].levels, before.0, feed[last].observation);
      SubmissionsKeepLevels(step.1.entries);
      MoreDecisions(before.1, Submissions(step.1.entries), before.0.submitted.Keys, step.0.submitted.Keys);
    }
  }

  lemma MoreDecisions(earlier: seq<Decision>, more: seq<Decision>, before: set<nat>, after: set<nat>)
    requires AllSettled(earlier, before) && AllDifferent(earlier) && before <= after
    requires forall k | 0 <= k < |more| :: more[k].level !in before && more[k].level in after
    requires AllDifferent(more)
    ensures AllSettled(earlier + more, after) && AllDifferent(earlier + more)
  {}
}
