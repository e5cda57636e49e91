/** The pieces of the cursor loop: which crossings the strategy offers for a
    segment, which of them lie ahead, and which one is nearest. On levels that
    stand properly these are exactly the pending triggers of the model. */
module CrossingEngine {
  import opened VirtualLevels
  import opened HedgeModel
  import opened Positions

  datatype CrossingEvent = CrossingEvent(crossing: Crossing, level: nat, price: real, priority: int)

  type EventKey = (Crossing, nat, real)

  function KeyOf(e: CrossingEvent): EventKey {
    (e.crossing, e.level, e.price)
  }

  /** What one level offers for the segment from `previous` to `current`. */
  function EligibleOf(level: Level, i: nat, previous: real, current: real, dir: Direction): seq<CrossingEvent> {
    if dir == Down then
      (if level.state == Active && previous > level.zone.tp && current <= level.zone.tp
       then [CrossingEvent(Tp, i, level.zone.tp, 0)] else [])
      + (if level.state == Ready && level.armed && current <= level.zone.entry
         then [CrossingEvent(Entry, i, level.zone.entry, 1)] else [])
    else if level.state == Active && level.isFloor && previous <= level.zone.entry <= current then
      [CrossingEvent(Breakeven, i, level.zone.entry, 0)]
    else if level.state == Active && previous < level.zone.stop && current >= level.zone.stop then
      [CrossingEvent(Stop, i, level.zone.stop, 0)]
    else []
  }

  function Eligible(levels: seq<Level>, previous: real, current: real, dir: Direction): seq<CrossingEvent> {
    if |levels| == 0 then []
    else
      var last := |levels| - 1;
      Eligible(levels[..last], previous, current, dir) + EligibleOf(levels[last], last, previous, current, dir)
  }

  predicate InsideRemainingSegment(price: real, cursor: real, current: real, dir: Direction) {
    if dir == Down then current <= price <= cursor else cursor <= price <= current
  }

  function Candidates(events: seq<CrossingEvent>, cursor: real, current: real, dir: Direction,
                      processed: set<EventKey>): seq<CrossingEvent> {
    if |events| == 0 then []
    else
      var last := |events| - 1;
      var rest := Candidates(events[..last], cursor, current, dir, processed);
      if InsideRemainingSegment(events[last].price, cursor, current, dir) && KeyOf(events[last]) !in processed
      then rest + [events[last]] else rest
  }

  /** The sort key order: nearer price, then priority, then level. */
  predicate Before(dir: Direction, a: CrossingEvent, b: CrossingEvent) {
    if a.price != b.price then Reached(dir, a.price, b.price)
    else if a.priority != b.priority then a.priority < b.priority
    else a.level < b.level
  }

  /** The first candidate in sort order. */
  function Nearest(candidates: seq<CrossingEvent>, dir: Direction): (e: CrossingEvent)
    requires |candidates| > 0
    ensures e in candidates
  {
    var last := candidates[|candidates| - 1];
    if |candidates| == 1 then last
    else
      var best := Nearest(candidates[..|candidates| - 1], dir);
      if Before(dir, last, best) then last else best
  }

  lemma {:induction false} NearestIsFirst(candidates: seq<CrossingEvent>, dir: Direction)
    requires |candidates| > 0
    ensures forall e | e in candidates :: !Before(dir, e, Nearest(candidates, dir))
  {
    var last := |candidates| - 1;
    if last > 0 {
      NearestIsFirst(candidates[..last], dir);
      forall e | e in candidates ensures !Before(dir, e, Nearest(candidates, dir)) {
        assert e in candidates[..last] || e == candidates[last];
      }
    }
  }

  lemma {:induction false} CandidatesAre(events: seq<CrossingEvent>, cursor: real, current: real, dir: Direction,
                                         processed: set<EventKey>)
    ensures forall e :: e in Candidates(events, cursor, current, dir, processed) <==>
              e in events && InsideRemainingSegment(e.price, cursor, current, dir) && KeyOf(e) !in processed
  {
    if |events| > 0 {
      var last := |events| - 1;
      CandidatesAre(events[..last], cursor, current, dir, processed);
      forall e ensures e in events <==> e in events[..last] || e == events[last] {}
    }
  }

  lemma {:induction false} EligibleAre(levels: seq<Level>, previous: real, current: real, dir: Direction)
    ensures forall e :: e in Eligible(levels, previous, current, dir) <==>
              e.level < |levels| && e in EligibleOf(levels[e.level], e.level, previous, current, dir)
  {
    if |levels| > 0 {
      EligibleAre(levels[..|levels| - 1], previous, current, dir);
    }
  }

  /** The event of the trigger a level waits for. */
  function EventOf(level: Level, i: nat, dir: Direction): CrossingEvent
    requires TriggerOf(level, dir).Trigger?
  {
    var t := TriggerOf(level, dir);
    CrossingEvent(t.crossing, i, t.price, Priority(t.crossing))
  }

  /** For a level that stands properly the offered events are its pending trigger. */
  lemma EligibleIsPending(level: Level, i: nat, previous: real, cursor: real, current: real, dir: Direction)
    requires Standing(level, dir, previous, cursor) && Reached(dir, previous, cursor) && Reached(dir, cursor, current)
    ensures Pending(level, dir, current) ==>
              && EligibleOf(level, i, previous, current, dir) == [EventOf(level, i, dir)]
              && InsideRemainingSegment(TriggerOf(level, dir).price, cursor, current, dir)
    ensures !Pending(level, dir, current) ==> EligibleOf(level, i, previous, current, dir) == []
  {}

  // ----- the processed set

  /** How much weight a level must have left to make a crossing. */
  function Need(crossing: Crossing): int {
    if crossing == Entry then 2 else 1
  }

  /** The levels of all processed events have moved past them for good. */
  ghost predicate Spent(levels: seq<Level>, dir: Direction, processed: set<EventKey>) {
    forall key | key in processed :: key.1 < |levels| && Weight(dir)(levels[key.1]) < Need(key.0)
  }

  lemma PendingHasWeight(level: Level, dir: Direction)
    requires TriggerOf(level, dir).Trigger?
    ensures Weight(dir)(level) >= Need(TriggerOf(level, dir).crossing)
  {}

  lemma FireSpends(d: Desk, s: State, i: nat, dir: Direction, tick: int, processed: set<EventKey>)
    requires i < |s.levels| && TriggerOf(s.levels[i], dir).Trigger? && Spent(s.levels, dir, processed)
    ensures Spent(Fire(d, s, i, dir, tick).levels, dir, processed + {KeyOf(EventOf(s.levels[i], i, dir))})
  {
    var r := Fire(d, s, i, dir, tick);
    forall j | 0 <= j < |s.levels| ensures Weight(dir)(r.levels[j]) <= Weight(dir)(s.levels[j]) {}
  }

  // ----- the loop step against the model

  lemma CandidatesArePending(levels: seq<Level>, previous: real, cursor: real, current: real, dir: Direction,
                             processed: set<EventKey>)
    requires Reached(dir, previous, cursor) && Reached(dir, cursor, current)
    requires forall i | 0 <= i < |levels| :: Standing(levels[i], dir, previous, cursor)
    requires Spent(levels, dir, processed)
    ensures forall e :: e in Candidates(Eligible(levels, previous, current, dir), cursor, current, dir, processed) <==>
              e.level < |levels| && Pending(levels[e.level], dir, current)
              && e == EventOf(levels[e.level], e.level, dir)
  {
    var events := Eligible(levels, previous, current, dir);
    EligibleAre(levels, previous, current, dir);
    CandidatesAre(events, cursor, current, dir, processed);
    forall e
      ensures e in Candidates(events, cursor, current, dir, processed) <==>
              e.level < |levels| && Pending(levels[e.level], dir, current)
              && e == EventOf(levels[e.level], e.level, dir)
    {
      if e.level < |levels| {
        EligibleIsPending(levels[e.level], e.level, previous, cursor, current, dir);
        if Pending(levels[e.level], dir, current) {
          PendingHasWeight(levels[e.level], dir);
        }
      }
    }
  }

  lemma {:induction false} NothingFiltered(events: seq<CrossingEvent>, cursor: real, current: real, dir: Direction,
                                           processed: set<EventKey>)
    requires forall e | e in events && InsideRemainingSegment(e.price, cursor, current, dir) :: KeyOf(e) !in processed
    ensures Candidates(events, cursor, current, dir, processed) == Candidates(events, cursor, current, dir, {})
  {
    if |events| > 0 {
      var last := |events| - 1;
      assert events[last] in events;
      forall e | e in events[..last] ensures e in events {}
      NothingFiltered(events[..last], cursor, current, dir, processed);
    }
  }

  /** The set of processed events never filters anything out. */
  lemma ProcessedNeverFilters(levels: seq<Level>, previous: real, cursor: real, current: real, dir: Direction,
                              processed: set<EventKey>)
    requires Reached(dir, previous, cursor) && Reached(dir, cursor, current)
    requires forall i | 0 <= i < |levels| :: Standing(levels[i], dir, previous, cursor)
    requires Spent(levels, dir, processed)
    ensures var events := Eligible(levels, previous, current, dir);
            Candidates(events, cursor, current, dir, processed) == Candidates(events, cursor, current, dir, {})
  {
    var events := Eligible(levels, previous, current, dir);
    CandidatesArePending(levels, previous, cursor, current, dir, processed);
    CandidatesArePending(levels, previous, cursor, current, dir, {});
    CandidatesAre(events, cursor, current, dir, processed);
    CandidatesAre(events, cursor, current, dir, {});
    NothingFiltered(events, cursor, current, dir, processed);
  }

  lemma HasMember(candidates: seq<CrossingEvent>)
    requires |candidates| > 0
    ensures exists e :: e in candidates
  {
    assert candidates[0] in candidates;
  }

  lemma NothingPendingNoCandidate(levels: seq<Level>, current: real, dir: Direction, candidates: seq<CrossingEvent>)
    requires forall e | e in candidates :: e.level < |levels| && Pending(levels[e.level], dir, current)
    requires forall i | 0 <= i < |levels| :: !Pending(levels[i], dir, current)
    ensures |candidates| == 0
  {
    if |candidates| > 0 { HasMember(candidates); }
  }

  lemma NearestIsNext(levels: seq<Level>, current: real, dir: Direction, candidates: seq<CrossingEvent>, i: nat)
    requires forall e :: e in candidates <==>
               e.level < |levels| && Pending(levels[e.level], dir, current)
               && e == EventOf(levels[e.level], e.level, dir)
    requires IsNext(levels, dir, current, i)
    ensures |candidates| > 0 && Nearest(candidates, dir) == EventOf(levels[i], i, dir)
  {
    var e := EventOf(levels[i], i, dir);
    assert e in candidates;
    NearestIsFirst(candidates, dir);
    var n := Nearest(candidates, dir);
    assert n in candidates && !Before(dir, e, n);
    assert Pending(levels[n.level], dir, current);
  }

  /** No candidate is left exactly when the model has nobody to fire, and the
      nearest candidate is the level the model fires. */
  lemma LoopFollowsModel(levels: seq<Level>, previous: real, cursor: real, current: real, dir: Direction,
                         processed: set<EventKey>)
    requires Reached(dir, previous, cursor) && Reached(dir, cursor, current)
    requires forall i | 0 <= i < |levels| :: Standing(levels[i], dir, previous, cursor)
    requires Spent(levels, dir, processed)
    ensures var candidates := Candidates(Eligible(levels, previous, current, dir), cursor, current, dir, processed);
            match Next(levels, dir, current)
            case Nobody => |candidates| == 0
            case First(i) => |candidates| > 0 && Nearest(candidates, dir) == EventOf(levels[i], i, dir)
  {
    var candidates := Candidates(Eligible(levels, previous, current, dir), cursor, current, dir, processed);
    CandidatesArePending(levels, previous, cursor, current, dir, processed);
    NextIsFirst(levels, dir, current);
    match Next(levels, dir, current)
    case Nobody => NothingPendingNoCandidate(levels, current, dir, candidates);
    case First(i) => NearestIsNext(levels, current, dir, candidates, i);
  }
}
