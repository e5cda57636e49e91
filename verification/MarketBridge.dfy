/** Price paths made of single tick moves: the random walk that joins two anchors
    in a fixed number of moves, and the path through a list of anchors. Draws of
    the random source are an arbitrary input. */
module MarketBridge {
  import opened Products
  import opened VirtualLevels

  /** The random source: the draws still to come. */
  type Draws = nat -> real

  function Distance(a: int, b: int): nat {
    if a <= b then b - a else a - b
  }

  /** At least the minimum, two more than the distance, and of its parity. */
  function StepCount(start: int, target: int, minimumSteps: int): nat {
    var distance := Distance(start, target);
    var count := if minimumSteps > distance + 2 then minimumSteps else distance + 2;
    if (count - distance) % 2 != 0 then count + 1 else count
  }

  /** A move after which the target can still be reached in `left` moves. */
  predicate Feasible(current: int, move: int, target: int, left: int) {
    Distance(target, current + move) <= left
  }

  function Min(a: real, b: real): real {
    if a < b then a else b
  }

  function Urgency(remaining: nat, left: nat): real {
    Min(0.45, remaining as real / (left + 1) as real)
  }

  /** The chance of moving up: it leans towards the last move and, the more
      urgent it gets, towards the target. */
  function ProbabilityUp(remaining: int, left: nat, direction: int, targetDirection: int): real {
    var drift := if direction == 0 then 0.5 else if direction > 0 then 0.62 else 0.38;
    var urgency := Urgency(Distance(0, remaining), left);
    drift * (1.0 - urgency) + (if targetDirection > 0 then 1.0 else 0.0) * urgency
  }

  /** The chance is a fair one: mirrored for the mirrored walk, at least the drift when
      the target is above and at most the drift when it is below, more pressing the
      nearer the last move is, and never less than 0.209 or more than 0.791. At the
      target itself it is the drift alone. */
  lemma ChanceLeansToTarget(remaining: int, left: nat, direction: int)
    ensures var drift := if direction == 0 then 0.5 else if direction > 0 then 0.62 else 0.38;
            var up, down := ProbabilityUp(remaining, left, direction, 1), ProbabilityUp(remaining, left, direction, -1);
            && 0.209 <= down <= drift <= up <= 0.791
            && ProbabilityUp(-remaining, left, -direction, -1) == 1.0 - up
            && (remaining == 0 ==> down == up == drift)
            && ProbabilityUp(remaining, left + 1, direction, 1) <= up
            && (Distance(0, remaining) as real >= 0.45 * (left + 1) as real ==> up == 0.55 * drift + 0.45)
  {
    var urgency := Urgency(Distance(0, remaining), left);
    UrgencyIsAFraction(Distance(0, remaining), left);
    UrgencyGrows(Distance(0, remaining), left);
    var less := Urgency(Distance(0, remaining), left + 1);
    Leaning(0.38, less, urgency);
    Leaning(0.5, less, urgency);
    Leaning(0.62, less, urgency);
  }

  lemma Leaning(drift: real, less: real, urgency: real)
    requires 0.0 <= less <= urgency <= 0.45 && 0.38 <= drift <= 0.62
    ensures 0.209 <= drift * (1.0 - urgency) <= drift <= drift * (1.0 - urgency) + urgency <= 0.791
    ensures drift * (1.0 - less) + less <= drift * (1.0 - urgency) + urgency
  {
    assert (0.45 - urgency) * (1.0 - drift) >= 0.0 && (urgency - less) * (1.0 - drift) >= 0.0;
    assert (0.45 - urgency) * drift >= 0.0;
  }

  lemma UrgencyIsAFraction(remaining: nat, left: nat)
    ensures 0.0 <= Urgency(remaining, left) <= 0.45 && (remaining == 0 ==> Urgency(remaining, left) == 0.0)
    ensures remaining as real >= 0.45 * (left + 1) as real ==> Urgency(remaining, left) == 0.45
  {
    var r, a := remaining as real, (left + 1) as real;
    if r >= 0.45 * a { QuotientAbove(r, a); }
  }

  lemma QuotientAbove(r: real, a: real)
    requires a > 0.0 && r >= 0.45 * a
    ensures r / a >= 0.45
  {}

  lemma UrgencyGrows(remaining: nat, left: nat)
    ensures Urgency(remaining, left + 1) <= Urgency(remaining, left)
  {
    QuotientFalls(remaining as real, (left + 1) as real, (left + 2) as real);
  }

  lemma QuotientFalls(r: real, a: real, b: real)
    requires r >= 0.0 && 0.0 < a <= b
    ensures r / b <= r / a
  {}

  /** The chance of moving up for the drawn side of a target that is reached without a
      last move. */
  function UpwardChance(remaining: int, left: nat, direction: int, coin: real): real {
    if remaining > 0 || (remaining == 0 && (direction > 0 || (direction == 0 && coin >= 0.5)))
    then ProbabilityUp(remaining, left, direction, 1)
    else ProbabilityUp(remaining, left, direction, -1)
  }

  /** The next move and how many draws it used. */
  function Choose(current: int, target: int, left: nat, direction: int, draws: Draws, used: nat): (int, nat) {
    var down, up := Feasible(current, -1, target, left), Feasible(current, 1, target, left);
    if down && !up then (-1, used)
    else if up && !down then (1, used)
    else
      var remaining := target - current;
      var coin := remaining == 0 && direction == 0;
      var targetDirection :=
        if remaining > 0 then 1 else if remaining < 0 then -1
        else if direction != 0 then direction else if draws(used) < 0.5 then -1 else 1;
      var used := if coin then used + 1 else used;
      (if draws(used) < ProbabilityUp(remaining, left, direction, targetDirection) then 1 else -1, used + 1)
  }

  /** A forced move is made without a draw; a free one draws against the chance for the
      side of the target, after a coin only at the target without a last move. */
  lemma MoveIsDrawn(current: int, target: int, left: nat, direction: int, draws: Draws, used: nat)
    ensures var (move, after) := Choose(current, target, left, direction, draws, used);
            var up, down := Distance(target, current + 1) <= left, Distance(target, current - 1) <= left;
            && (up && !down ==> move == 1 && after == used)
            && (down && !up ==> move == -1 && after == used)
            && (up && down ==>
                  && after == used + (if target == current && direction == 0 then 2 else 1)
                  && var chance := UpwardChance(target - current, left, direction, draws(used));
                     move == if draws(after - 1) < chance then 1 else -1)
  {}

  /** A way of choosing moves: from the tick, the moves left after this one, the
      last move and the draws used so far to the move and the draws used. */
  type Chooser = (int, nat, int, nat) -> (int, nat)

  function MarketChooser(target: int, draws: Draws): Chooser {
    (current, left, direction, used) => Choose(current, target, left, direction, draws, used)
  }

  /** The ticks of the moves still to come, the last move, and the draws used. */
  function Walk(choose: Chooser, current: int, moves: nat, direction: int, used: nat): (seq<int>, int, nat)
    decreases moves
  {
    if moves == 0 then ([], direction, used)
    else
      var choice := choose(current, moves - 1, direction, used);
      var rest := Walk(choose, current + choice.0, moves - 1, choice.0, choice.1);
      ([current + choice.0] + rest.0, rest.1, rest.2)
  }

  /** The target can be reached in exactly this many moves. */
  predicate Reachable(current: int, target: int, moves: int) {
    Distance(current, target) <= moves && (moves - Distance(current, target)) % 2 == 0
  }

  lemma CountReaches(start: int, target: int, minimumSteps: int)
    ensures Reachable(start, target, StepCount(start, target, minimumSteps))
    ensures minimumSteps <= StepCount(start, target, minimumSteps) && Distance(start, target) + 2
            <= StepCount(start, target, minimumSteps)
    ensures StepCount(start, target, minimumSteps) <= minimumSteps + 1
            || StepCount(start, target, minimumSteps) == Distance(start, target) + 2
  {}

  /** Every choice is a single tick that keeps to the reach, whatever the reach is. */
  ghost predicate Keeps(choose: Chooser, reach: (int, int) -> bool) {
    forall current: int, left: nat, direction: int, used: nat | reach(current, left + 1) ::
      var move := choose(current, left, direction, used).0;
      (move == 1 || move == -1) && reach(current + move, left)
  }

  /** Every choice is a single tick that keeps the target in reach. */
  ghost predicate KeepsReach(choose: Chooser, target: int) {
    Keeps(choose, ReachOf(target))
  }

  function ReachOf(target: int): (int, int) -> bool {
    (current: int, moves: int) => Reachable(current, target, moves)
  }

  lemma MarketMoves(target: int, draws: Draws, current: int, left: nat, direction: int, used: nat)
    requires Reachable(current, target, left + 1)
    ensures var move := MarketChooser(target, draws)(current, left, direction, used).0;
            (move == 1 || move == -1) && Reachable(current + move, target, left)
  {
    assert Feasible(current, 1, target, left) || Feasible(current, -1, target, left);
  }

  /** There always is a feasible move, and the chosen one keeps the target in reach. */
  lemma MarketKeepsReach(target: int, draws: Draws)
    ensures KeepsReach(MarketChooser(target, draws), target)
  {
    var choose, reach := MarketChooser(target, draws), ReachOf(target);
    forall current: int, left: nat, direction: int, used: nat | reach(current, left + 1)
      ensures var move := choose(current, left, direction, used).0;
              (move == 1 || move == -1) && reach(current + move, left)
    {
      MarketMoves(target, draws, current, left, direction, used);
    }
  }

  /** Each tick is one away from the one before it. */
  ghost predicate TickByTick(start: int, path: seq<int>) {
    && (|path| > 0 ==> Distance(start, path[0]) == 1)
    && forall j, k | 0 <= j < k < |path| && k == j + 1 :: Distance(path[j], path[k]) == 1
  }

  function EndOf(start: int, path: seq<int>): int {
    if |path| == 0 then start else path[|path| - 1]
  }

  /** The path makes exactly these moves, one tick each, and ends at the target. */
  ghost predicate Arrives(start: int, target: int, moves: nat, path: seq<int>) {
    |path| == moves && TickByTick(start, path) && EndOf(start, path) == target
  }

  lemma {:induction false} WalkArrives(choose: Chooser, reach: (int, int) -> bool, current: int, target: int,
                                       moves: nat, direction: int, used: nat)
    requires Keeps(choose, reach) && reach(current, moves) && forall x | reach(x, 0) :: x == target
    ensures Arrives(current, target, moves, Walk(choose, current, moves, direction, used).0)
    decreases moves
  {
    if moves > 0 {
      var choice := choose(current, moves - 1, direction, used);
      var next := current + choice.0;
      WalkArrives(choose, reach, next, target, moves - 1, choice.0, choice.1);
      WalkGoesOn(choose, current, target, moves, direction, used);
    }
  }

  /** A walk that is right from its first choice on is right. */
  lemma WalkGoesOn(choose: Chooser, current: int, target: int, moves: nat, direction: int, used: nat)
    requires moves > 0
    requires var choice := choose(current, moves - 1, direction, used);
             var next := current + choice.0;
             && Distance(current, next) == 1
             && Arrives(next, target, moves - 1, Walk(choose, next, moves - 1, choice.0, choice.1).0)
    ensures Arrives(current, target, moves, Walk(choose, current, moves, direction, used).0)
  {
    var choice := choose(current, moves - 1, direction, used);
    var next := current + choice.0;
    TickFirst(current, next, Walk(choose, next, moves - 1, choice.0, choice.1).0);
  }

  /** For every start, target and stream of draws the bridge makes exactly its
      moves, one tick each, and ends at its target. */
  lemma BridgeArrives(start: int, target: int, minimumSteps: int, direction: int, draws: Draws, used: nat)
    ensures var count := StepCount(start, target, minimumSteps);
            var path := Walk(MarketChooser(target, draws), start, count, direction, used).0;
            |path| == count >= minimumSteps && TickByTick(start, path) && EndOf(start, path) == target
  {
    CountReaches(start, target, minimumSteps);
    MarketKeepsReach(target, draws);
    WalkArrives(MarketChooser(target, draws), ReachOf(target), start, target,
                StepCount(start, target, minimumSteps), direction, used);
  }

  lemma TickFirst(start: int, next: int, rest: seq<int>)
    requires Distance(start, next) == 1 && TickByTick(next, rest)
    ensures TickByTick(start, [next] + rest) && EndOf(start, [next] + rest) == EndOf(next, rest)
  {
    var path := [next] + rest;
    forall j, k | 0 <= j < k < |path| && k == j + 1 ensures Distance(path[j], path[k]) == 1 {
      assert path[k] == rest[k - 1];
      if j > 0 { assert path[j] == rest[j - 1]; }
    }
  }

  /** A walk that made the moves in `segment` and goes on as `ahead`. */
  ghost predicate Continues(whole: (seq<int>, int, nat), segment: seq<int>, ahead: (seq<int>, int, nat)) {
    whole.0 == segment + ahead.0 && whole.1 == ahead.1 && whole.2 == ahead.2
  }

  lemma MoveContinues(choose: Chooser, whole: (seq<int>, int, nat), segment: seq<int>, current: int, left: nat,
                      direction: int, used: nat,
                      move: int, usedAfter: nat)
    requires Continues(whole, segment, Walk(choose, current, left + 1, direction, used))
    requires (move, usedAfter) == choose(current, left, direction, used)
    ensures Continues(whole, segment + [current + move], Walk(choose, current + move, left, move, usedAfter))
  {}

  method NextMove(current: int, target: int, left: nat, direction: int, draws: Draws, used: nat)
    returns (move: int, usedAfter: nat)
    ensures (move, usedAfter) == MarketChooser(target, draws)(current, left, direction, used)
  {
    usedAfter := used;
    var feasible: seq<int> := [];
    if Feasible(current, -1, target, left) { feasible := feasible + [-1]; }
    if Feasible(current, 1, target, left) { feasible := feasible + [1]; }
    if |feasible| == 1 { return feasible[0], used; }
    var remaining := target - current;
    var targetDirection := if remaining > 0 then 1 else -1;
    if remaining == 0 {
      targetDirection := direction;
      if direction == 0 {
        targetDirection := if draws(usedAfter) < 0.5 then -1 else 1;
        usedAfter := usedAfter + 1;
      }
    }
    move := if draws(usedAfter) < ProbabilityUp(remaining, left, direction, targetDirection) then 1 else -1;
    usedAfter := usedAfter + 1;
  }

  /** The loop of the bridge: `stepCount` moves. */
  method MakeMoves(start: int, target: int, stepCount: nat, previousDirection: int, draws: Draws, used: nat)
    returns (segment: seq<int>, direction: int, usedAfter: nat)
    ensures var walk := Walk(MarketChooser(target, draws), start, stepCount, previousDirection, used);
            segment == walk.0 && direction == walk.1 && usedAfter == walk.2
  {
    ghost var choose := MarketChooser(target, draws);
    ghost var whole := Walk(choose, start, stepCount, previousDirection, used);
    var current := start;
    segment, direction, usedAfter := [], previousDirection, used;
    var index := 0;
    while index < stepCount
      invariant 0 <= index <= stepCount
      invariant Continues(whole, segment, Walk(choose, current, stepCount - index, direction, usedAfter))
    {
      var stepsAfterMove: nat := stepCount - index - 1;
      var move, drawn := NextMove(current, target, stepsAfterMove, direction, draws, usedAfter);
      MoveContinues(choose, whole, segment, current, stepsAfterMove, direction, usedAfter, move, drawn);
      current, direction, usedAfter := current + move, move, drawn;
      segment := segment + [current];
      index := index + 1;
    }
  }

  method BridgeTickIndices(start: int, target: int, minimumSteps: int, previousDirection: int, draws: Draws, used: nat)
    returns (segment: seq<int>, direction: int, usedAfter: nat)
    ensures var walk := Walk(MarketChooser(target, draws), start, StepCount(start, target, minimumSteps),
                             previousDirection, used);
            segment == walk.0 && direction == walk.1 && usedAfter == walk.2
    ensures |segment| >= minimumSteps && TickByTick(start, segment) && EndOf(start, segment) == target
  {
    segment, direction, usedAfter := MakeMoves(start, target, StepCount(start, target, minimumSteps),
                                               previousDirection, draws, used);
    BridgeArrives(start, target, minimumSteps, previousDirection, draws, used);
    assert EndOf(start, segment) == target;
  }

  // ----- how far a walk can stray

  ghost predicate UnitDraws(draws: Draws) {
    forall i :: 0.0 <= draws(i) < 1.0
  }

  ghost predicate AllPositive(path: seq<int>) {
    forall k | 0 <= k < |path| :: path[k] > 0
  }

  ghost predicate TwiceAtLeast(path: seq<int>, low: int) {
    forall k | 0 <= k < |path| :: 2 * path[k] >= low
  }

  lemma TwiceAtLeastFirst(next: int, rest: seq<int>, restLow: int, low: int)
    requires TwiceAtLeast(rest, restLow) && low <= restLow && low <= 2 * next
    ensures TwiceAtLeast([next] + rest, low)
  {}

  /** No tick of a walk lies below half of start plus target less moves. */
  lemma {:induction false} WalkStaysAbove(choose: Chooser, reach: (int, int) -> bool, current: int, target: int,
                                          moves: nat, direction: int, used: nat)
    requires Keeps(choose, reach) && reach(current, moves) && forall x, m | reach(x, m) :: target - x <= m
    ensures TwiceAtLeast(Walk(choose, current, moves, direction, used).0, current + target - moves)
    decreases moves
  {
    if moves > 0 {
      var choice := choose(current, moves - 1, direction, used);
      var next := current + choice.0;
      assert reach(current, (moves - 1) + 1);
      WalkStaysAbove(choose, reach, next, target, moves - 1, choice.0, choice.1);
      TwiceAtLeastFirst(next, Walk(choose, next, moves - 1, choice.0, choice.1).0, next + target - (moves - 1),
                        current + target - moves);
    }
  }

  lemma ProbabilityIsModerate(remaining: int, left: nat, direction: int, targetDirection: int)
    ensures ProbabilityUp(remaining, left, direction, targetDirection) < 0.9
  {
    var urgency := Urgency(Distance(0, remaining), left);
    assert 0.0 <= urgency <= 0.45;
  }

  /** Goes down whenever the target stays in reach. */
  ghost predicate PrefersDown(choose: Chooser, target: int) {
    forall current: int, left: nat, direction: int, used: nat | Feasible(current, -1, target, left) ::
      choose(current, left, direction, used).0 == -1
  }

  lemma HighDrawsPreferDown(target: int, draws: Draws)
    requires forall i :: draws(i) == 0.95
    ensures PrefersDown(MarketChooser(target, draws), target)
  {
    forall current: int, left: nat, direction: int, used: nat | Feasible(current, -1, target, left)
      ensures MarketChooser(target, draws)(current, left, direction, used).0 == -1
    {
      HighDrawGoesDown(current, target, left, direction, draws, used);
    }
  }

  lemma HighDrawGoesDown(current: int, target: int, left: nat, direction: int, draws: Draws, used: nat)
    requires Feasible(current, -1, target, left) && forall i :: draws(i) == 0.95
    ensures Choose(current, target, left, direction, draws, used).0 == -1
  {
    var remaining := target - current;
    var targetDirection :=
      if remaining > 0 then 1 else if remaining < 0 then -1
      else if direction != 0 then direction else if draws(used) < 0.5 then -1 else 1;
    ProbabilityIsModerate(remaining, left, direction, targetDirection);
  }

  lemma DownIsFeasible(current: int, target: int, moves: nat)
    requires Reachable(current, target, moves) && moves > Distance(current, target)
    ensures Feasible(current, -1, target, moves - 1) && Reachable(current - 1, target, moves - 1)
    ensures 2 * (current - 1) != current + target - moves ==> moves - 1 > Distance(current - 1, target)
  {}

  /** A walk that prefers to go down goes down as far as it still can. */
  lemma {:induction false} WalkGoesDown(choose: Chooser, current: int, target: int, moves: nat, direction: int,
                                        used: nat) returns (k: nat)
    requires PrefersDown(choose, target) && Reachable(current, target, moves) && moves > Distance(current, target)
    ensures var path := Walk(choose, current, moves, direction, used).0;
            k < |path| && 2 * path[k] == current + target - moves
    decreases moves
  {
    var choice := choose(current, moves - 1, direction, used);
    DownIsFeasible(current, target, moves);
    assert choice.0 == -1;
    var rest := Walk(choose, current - 1, moves - 1, -1, choice.1).0;
    if 2 * (current - 1) == current + target - moves {
      k := 0;
    } else {
      k := WalkGoesDown(choose, current - 1, target, moves - 1, -1, choice.1);
      assert ([current - 1] + rest)[k + 1] == rest[k];
      k := k + 1;
    }
  }

  ghost predicate AlwaysPositive(start: int, target: int, minimumSteps: int, direction: int) {
    forall draws: Draws, used: nat | UnitDraws(draws) ::
      AllPositive(Walk(MarketChooser(target, draws), start, StepCount(start, target, minimumSteps), direction, used).0)
  }

  /** Positive anchors alone do not keep a path positive: a walk stays above zero
      for every draw exactly when its two ends together exceed its moves. */
  lemma PositiveIffEndsExceedMoves(start: int, target: int, minimumSteps: int, direction: int)
    ensures AlwaysPositive(start, target, minimumSteps, direction)
            <==> start + target > StepCount(start, target, minimumSteps)
  {
    var count := StepCount(start, target, minimumSteps);
    CountReaches(start, target, minimumSteps);
    if start + target > count {
      forall draws: Draws, used: nat | UnitDraws(draws)
        ensures AllPositive(Walk(MarketChooser(target, draws), start, count, direction, used).0)
      {
        MarketKeepsReach(target, draws);
        WalkStaysAbove(MarketChooser(target, draws), ReachOf(target), start, target, count, direction, used);
      }
    } else {
      var down: Draws := i => 0.95;
      HighDrawsPreferDown(target, down);
      var k := WalkGoesDown(MarketChooser(target, down), start, target, count, direction, 0);
      assert UnitDraws(down) && !AllPositive(Walk(MarketChooser(target, down), start, count, direction, 0).0);
    }
  }

  // ----- a path through a list of anchors

  datatype AnchorFault = TooFewAnchors | TooFewTicks | BadTickSize | AnchorNotPositive | AnchorOffGrid

  datatype AnchorPath = AnchorPath(ticks: seq<int>) | BadAnchors(fault: AnchorFault)

  predicate OnGrid(price: real, tickSize: real)
    requires tickSize > 0.0
  {
    (price / tickSize).Floor as real == price / tickSize
  }

  predicate Accepted(anchors: seq<real>, ticksPerSegment: int, tickSize: real) {
    && |anchors| >= 2 && ticksPerSegment >= 2 && tickSize > 0.0
    && forall k | 0 <= k < |anchors| :: anchors[k] > 0.0 && OnGrid(anchors[k], tickSize)
  }

  /** The path passes anchor `k` at position `at[k]`. */
  ghost predicate PassesAt(path: seq<int>, at: seq<nat>, anchors: seq<real>, tickSize: real) {
    && |at| <= |anchors|
    && forall k | 0 <= k < |at| :: at[k] < |path| && Times(path[at[k]] as real, tickSize) == anchors[k]
  }

  ghost predicate Spaced(at: seq<nat>, minimum: int) {
    forall j, k | 0 <= j < k < |at| && k == j + 1 :: at[j] + minimum <= at[k]
  }

  /** The tick of every anchor up to the first one off the grid. */
  method PriceTicks(anchors: seq<real>, tickSize: real) returns (ticks: seq<int>)
    requires tickSize > 0.0
    ensures |ticks| <= |anchors| && (|ticks| < |anchors| ==> !OnGrid(anchors[|ticks|], tickSize))
    ensures forall k | 0 <= k < |ticks| ::
              OnGrid(anchors[k], tickSize) && Times(ticks[k] as real, tickSize) == anchors[k]
  {
    ticks := [];
    while |ticks| < |anchors|
      invariant |ticks| <= |anchors|
      invariant forall k | 0 <= k < |ticks| ::
                  OnGrid(anchors[k], tickSize) && Times(ticks[k] as real, tickSize) == anchors[k]
    {
      var anchor := anchors[|ticks|];
      if !OnGrid(anchor, tickSize) { return; }
      QuotientBack(anchor, tickSize);
      ticks := ticks + [(anchor / tickSize).Floor];
    }
  }

  lemma PassesOneMore(path: seq<int>, segment: seq<int>, at: seq<nat>, anchors: seq<real>, tickSize: real, minimum: int)
    requires PassesAt(path, at, anchors, tickSize) && Spaced(at, minimum) && |at| < |anchors|
    requires |at| > 0 && |path| > 0 && |segment| > 0 && |segment| >= minimum && at[|at| - 1] == |path| - 1
    requires Times(segment[|segment| - 1] as real, tickSize) == anchors[|at|]
    ensures PassesAt(path + segment, at + [|path| - 1 + |segment|], anchors, tickSize)
    ensures Spaced(at + [|path| - 1 + |segment|], minimum)
  {}

  /** The bridges from each anchor to the next, one after the other. */
  method JoinAnchors(anchorTicks: seq<int>, ghost anchors: seq<real>, ticksPerSegment: int, ghost tickSize: real,
                     draws: Draws)
    returns (path: seq<int>, ghost at: seq<nat>)
    requires |anchorTicks| == |anchors| > 0 && ticksPerSegment >= 1
    requires forall k | 0 <= k < |anchors| :: Times(anchorTicks[k] as real, tickSize) == anchors[k]
    ensures |path| > 0 && TickByTick(path[0], path[1..])
    ensures |at| == |anchors| && at[0] == 0 && at[|at| - 1] == |path| - 1
    ensures PassesAt(path, at, anchors, tickSize) && Spaced(at, ticksPerSegment)
  {
    path, at := [anchorTicks[0]], [0];
    var direction, used, next := 0, 0, 1;
    while next < |anchorTicks|
      invariant 1 <= next <= |anchors| && |at| == next && |path| > 0
      invariant at[0] == 0 && at[next - 1] == |path| - 1 && path[|path| - 1] == anchorTicks[next - 1]
      invariant TickByTick(path[0], path[1..]) && PassesAt(path, at, anchors, tickSize) && Spaced(at, ticksPerSegment)
    {
      var segment, lastDirection, usedAfter :=
        BridgeTickIndices(path[|path| - 1], anchorTicks[next], ticksPerSegment, direction, draws, used);
      JoinWalks(path, segment);
      PassesOneMore(path, segment, at, anchors, tickSize, ticksPerSegment);
      at := at + [|path| - 1 + |segment|];
      path := path + segment;
      direction, used, next := lastDirection, usedAfter, next + 1;
    }
  }

  /** One tick at a time through every anchor in order, at least the asked number
      of ticks apart. Refused exactly when an argument is bad. */
  method ExpandPriceAnchors(anchors: seq<real>, ticksPerSegment: int, tickSize: real, draws: Draws)
    returns (r: AnchorPath, ghost at: seq<nat>)
    ensures r.AnchorPath? <==> Accepted(anchors, ticksPerSegment, tickSize)
    ensures r.AnchorPath? ==>
      && |r.ticks| > 0 && TickByTick(r.ticks[0], r.ticks[1..])
      && |at| == |anchors| && at[0] == 0 && at[|at| - 1] == |r.ticks| - 1
      && PassesAt(r.ticks, at, anchors, tickSize) && Spaced(at, ticksPerSegment)
  {
    at := [];
    if |anchors| < 2 { return BadAnchors(TooFewAnchors), at; }
    if ticksPerSegment < 2 { return BadAnchors(TooFewTicks), at; }
    if tickSize <= 0.0 { return BadAnchors(BadTickSize), at; }
    if exists k :: 0 <= k < |anchors| && anchors[k] <= 0.0 { return BadAnchors(AnchorNotPositive), at; }
    var anchorTicks := PriceTicks(anchors, tickSize);
    if |anchorTicks| < |anchors| { return BadAnchors(AnchorOffGrid), at; }
    var path: seq<int>;
    path, at := JoinAnchors(anchorTicks, anchors, ticksPerSegment, tickSize, draws);
    return AnchorPath(path), at;
  }

  lemma JoinWalks(path: seq<int>, segment: seq<int>)
    requires |path| > 0 && TickByTick(path[0], path[1..]) && TickByTick(path[|path| - 1], segment)
    ensures TickByTick((path + segment)[0], (path + segment)[1..])
  {
    var all := path + segment;
    assert forall k | 0 < k < |path| :: path[1..][k - 1] == path[k];
    forall j, k | 0 <= j < k < |all| && k == j + 1 ensures Distance(all[j], all[k]) == 1 {
      if k < |path| {
        if j > 0 { assert path[1..][j - 1] == path[j] && path[1..][k - 1] == path[k]; }
      }
    }
  }
}
