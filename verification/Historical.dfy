/** Ticks reconstructed from candles, and why it does not matter into how many
    ticks a leg is cut. */
module Historical {
  import opened CreditSpreads
  import opened Products
  import opened VirtualLevels
  import opened HedgeModel
  import opened Positions
  import opened PathRefinement

  datatype IntrabarPath = OpenHighLowClose | OpenLowHighClose

  datatype Bar = Candle(open: real, high: real, low: real, close: real)
  {
    predicate Valid() {
      low > 0.0 && high >= open && high >= close && low <= open && low <= close
    }
  }

  type Candle = b: Bar | b.Valid() witness Bar.Candle(1.0, 1.0, 1.0, 1.0)

  function Anchors(c: Candle, assumption: IntrabarPath): (a: seq<real>)
    ensures |a| == 4
  {
    if assumption == OpenHighLowClose then [c.open, c.high, c.low, c.close] else [c.open, c.low, c.high, c.close]
  }

  function LegTick(start: real, end: real, step: int, ticks: int): real
    requires ticks > 0
  {
    start + (end - start) * step as real / ticks as real
  }

  /** Ticks 1 to `steps` of a leg cut into `ticks` equal moves. */
  function LegPart(start: real, end: real, steps: nat, ticks: int): (p: seq<real>)
    requires ticks > 0
    ensures |p| == steps
  {
    if steps == 0 then [] else LegPart(start, end, steps - 1, ticks) + [LegTick(start, end, steps, ticks)]
  }

  function Leg(start: real, end: real, ticks: int): seq<real>
    requires ticks > 0
  {
    LegPart(start, end, ticks, ticks)
  }

  /** The first `legs` legs through a list of anchors. */
  function LegsUpTo(anchors: seq<real>, legs: nat, ticks: int): seq<real>
    requires ticks > 0 && legs < |anchors|
  {
    if legs == 0 then [] else LegsUpTo(anchors, legs - 1, ticks) + Leg(anchors[legs - 1], anchors[legs], ticks)
  }

  function CandleTicks(c: Candle, assumption: IntrabarPath, ticks: int): seq<real>
    requires ticks > 0
  {
    LegsUpTo(Anchors(c, assumption), 3, ticks)
  }

  /** Each candle opens where the one before it closed. */
  ghost predicate Gapless(candles: seq<Candle>) {
    forall i, j | 0 <= i < j < |candles| && j == i + 1 :: candles[j].open == candles[i].close
  }

  function TicksOf(candles: seq<Candle>, assumption: IntrabarPath, ticks: int): seq<real>
    requires ticks > 0
  {
    if |candles| == 0 then []
    else
      var last := |candles| - 1;
      (if last == 0 then [candles[0].open] else TicksOf(candles[..last], assumption, ticks))
      + CandleTicks(candles[last], assumption, ticks)
  }

  datatype CandleFault = NoTicksPerLeg | NoCandles | CandleGap

  datatype TickPath = TickPath(ticks: seq<real>) | BadCandles(fault: CandleFault)

  method AppendLeg(before: seq<real>, start: real, end: real, ticksPerLeg: int) returns (ticks: seq<real>)
    requires ticksPerLeg > 0
    ensures ticks == before + Leg(start, end, ticksPerLeg)
  {
    ticks := before;
    var step := 1;
    while step <= ticksPerLeg
      invariant 1 <= step <= ticksPerLeg + 1
      invariant ticks == before + LegPart(start, end, step - 1, ticksPerLeg)
    {
      ticks := ticks + [LegTick(start, end, step, ticksPerLeg)];
      step := step + 1;
    }
  }

  lemma OneMoreCandle(candles: seq<Candle>, i: nat, assumption: IntrabarPath, ticks: int)
    requires i < |candles| && ticks > 0
    ensures TicksOf(candles[..i + 1], assumption, ticks)
            == (if i == 0 then [candles[0].open] else TicksOf(candles[..i], assumption, ticks))
               + CandleTicks(candles[i], assumption, ticks)
  {
    assert candles[..i + 1][..i] == candles[..i];
  }

  lemma StillGapless(candles: seq<Candle>, i: nat)
    requires i < |candles| && Gapless(candles[..i]) && (i > 0 ==> candles[i].open == candles[i - 1].close)
    ensures Gapless(candles[..i + 1])
  {}

  lemma GapFound(candles: seq<Candle>, i: nat)
    requires 0 < i < |candles| && candles[i].open != candles[i - 1].close
    ensures !Gapless(candles)
  {
    assert candles[i - 1].close != candles[i].open;
  }

  /** The three legs of one candle. */
  method AppendCandle(before: seq<real>, candle: Candle, assumption: IntrabarPath, ticksPerLeg: int)
    returns (ticks: seq<real>)
    requires ticksPerLeg > 0
    ensures ticks == before + CandleTicks(candle, assumption, ticksPerLeg)
  {
    var anchors := Anchors(candle, assumption);
    ticks := before;
    var leg := 0;
    while leg < 3
      invariant 0 <= leg <= 3
      invariant ticks == before + LegsUpTo(anchors, leg, ticksPerLeg)
    {
      ticks := AppendLeg(ticks, anchors[leg], anchors[leg + 1], ticksPerLeg);
      leg := leg + 1;
    }
  }

  method ReconstructTickPath(candles: seq<Candle>, assumption: IntrabarPath, ticksPerLeg: int) returns (r: TickPath)
    ensures r.BadCandles? <==> ticksPerLeg <= 0 || |candles| == 0 || !Gapless(candles)
    ensures r.TickPath? ==> r.ticks == TicksOf(candles, assumption, ticksPerLeg)
    ensures r.TickPath? ==> PathShown(r.ticks, candles, assumption, ticksPerLeg)
  {
    if ticksPerLeg <= 0 {
      return BadCandles(NoTicksPerLeg);
    }
    if |candles| == 0 {
      return BadCandles(NoCandles);
    }
    var ticks: seq<real> := [];
    var i := 0;
    while i < |candles|
      invariant 0 <= i <= |candles| && Gapless(candles[..i])
      invariant ticks == TicksOf(candles[..i], assumption, ticksPerLeg)
      invariant |ticks| == 0 <==> i == 0
    {
      var candle := candles[i];
      if i > 0 && candle.open != candles[i - 1].close {
        GapFound(candles, i);
        return BadCandles(CandleGap);
      }
      if |ticks| == 0 {
        ticks := [candle.open];
      }
      ticks := AppendCandle(ticks, candle, assumption, ticksPerLeg);
      OneMoreCandle(candles, i, assumption, ticksPerLeg);
      StillGapless(candles, i);
      i := i + 1;
    }
    assert candles[..i] == candles;
    TicksAreShown(candles, assumption, ticksPerLeg);
    return TickPath(ticks);
  }

  // ----- one leg

  lemma LegTickIs(start: real, end: real, step: nat, ticks: int)
    requires ticks > 0
    ensures LegTick(start, end, step, ticks) == start + Times(end - start, step as real / ticks as real)
    ensures step == ticks ==> LegTick(start, end, step, ticks) == end
    ensures step == 0 ==> LegTick(start, end, step, ticks) == start
  {
    DivTimes(end - start, step as real, ticks as real);
  }

  lemma LegTickLies(start: real, end: real, step: int, ticks: int)
    requires 0 < step <= ticks
    ensures Between(start, LegTick(start, end, step - 1, ticks), LegTick(start, end, step, ticks))
    ensures LegTick(start, end, 0, ticks) == start && LegTick(start, end, ticks, ticks) == end
  {
    LegTickIs(start, end, step - 1, ticks);
    LegTickIs(start, end, step, ticks);
    LegTickIs(start, end, 0, ticks);
    LegTickIs(start, end, ticks, ticks);
    DivOrders((step - 1) as real, step as real, ticks as real);
    FractionsLie(start, end - start, (step - 1) as real / ticks as real, step as real / ticks as real);
  }

  lemma FractionsLie(start: real, d: real, a: real, b: real)
    requires 0.0 <= a <= b
    ensures Between(start, start + Times(d, a), start + Times(d, b))
  {
    if d >= 0.0 { ScaleLe(d, 0.0, a); ScaleLe(d, a, b); } else { ScaleLe(-d, 0.0, a); ScaleLe(-d, a, b); }
  }

  lemma DivTimes(d: real, k: real, n: real)
    requires n > 0.0
    ensures d * k / n == d * (k / n)
    ensures k == n ==> d * k / n == d
  {
    assert k / n * n == k;
    assert d * k == d * (k / n) * n;
  }

  lemma DivOrders(a: real, b: real, n: real)
    requires 0.0 <= a <= b && n > 0.0
    ensures 0.0 <= a / n <= b / n
  {
    assert a / n * n == a && b / n * n == b;
  }

  /** The ticks of a leg lie between the tick before and the end of the leg. */
  lemma LegTickAdvances(start: real, end: real, step: int, ticks: int)
    requires 0 < step <= ticks
    ensures Between(LegTick(start, end, step - 1, ticks), LegTick(start, end, step, ticks), end)
  {
    LegTickIs(start, end, step - 1, ticks);
    LegTickIs(start, end, step, ticks);
    LegTickIs(start, end, ticks, ticks);
    DivOrders((step - 1) as real, step as real, ticks as real);
    DivOrders(step as real, ticks as real, ticks as real);
    FractionsAdvance(start, end - start, (step - 1) as real / ticks as real, step as real / ticks as real,
                     ticks as real / ticks as real);
  }

  lemma FractionsAdvance(start: real, d: real, a: real, b: real, c: real)
    requires 0.0 <= a <= b <= c
    ensures Between(start + Times(d, a), start + Times(d, b), start + Times(d, c))
  {
    if d >= 0.0 { ScaleLe(d, a, b); ScaleLe(d, b, c); } else { ScaleLe(-d, a, b); ScaleLe(-d, b, c); }
  }

  // ----- the path in plain terms

  /** The value stands at this position. */
  predicate Shown(ticks: seq<real>, position: int, value: real) {
    0 <= position < |ticks| && ticks[position] == value
  }

  /** Tick `step` of n even moves from one price to another, after position `base`. */
  predicate EvenMove(ticks: seq<real>, base: int, n: int, start: real, end: real, step: int)
    requires n > 0
  {
    Shown(ticks, base + step, start + (end - start) * step as real / n as real)
  }

  /** n even moves from one price to another, the last of which arrives. */
  ghost predicate EvenLeg(ticks: seq<real>, base: int, n: int, start: real, end: real)
    requires n > 0
  {
    (forall step | 1 <= step <= n :: EvenMove(ticks, base, n, start, end, step)) && Shown(ticks, base + n, end)
  }

  /** The three legs of a candle after position `base`: up first, or down first. */
  ghost predicate CandleShown(ticks: seq<real>, base: int, n: int, c: Candle, assumption: IntrabarPath)
    requires n > 0
  {
    match assumption
    case OpenHighLowClose =>
      && EvenLeg(ticks, base, n, c.open, c.high) && EvenLeg(ticks, base + n, n, c.high, c.low)
      && EvenLeg(ticks, base + 2 * n, n, c.low, c.close)
    case OpenLowHighClose =>
      && EvenLeg(ticks, base, n, c.open, c.low) && EvenLeg(ticks, base + n, n, c.low, c.high)
      && EvenLeg(ticks, base + 2 * n, n, c.high, c.close)
  }

  /** The path opens at the first open and shows every candle, one after the other. */
  ghost predicate PathShown(ticks: seq<real>, candles: seq<Candle>, assumption: IntrabarPath, n: int)
    requires n > 0 && |candles| > 0
  {
    && |ticks| == 1 + Position(n, |candles|) && Shown(ticks, 0, candles[0].open)
    && forall k | 0 <= k < |candles| :: CandleShown(ticks, Position(n, k), n, candles[k], assumption)
  }

  /** Where the ticks of candle k begin: each candle has three legs of n ticks. */
  function Position(n: int, k: int): int {
    3 * n * k
  }

  lemma NextPosition(n: int, k: int)
    ensures Position(n, k + 1) == Position(n, k) + 3 * n && Position(n, 0) == 0
  {}

  lemma {:induction false} LegPartMoves(before: seq<real>, start: real, end: real, steps: nat, n: int, step: int)
    requires n > 0 && 1 <= step <= steps && |before| > 0
    ensures EvenMove(before + LegPart(start, end, steps, n), |before| - 1, n, start, end, step)
  {
    var ticks := before + LegPart(start, end, steps, n);
    if step == steps {
      assert ticks[|before| + steps - 1] == LegTick(start, end, steps, n);
    } else {
      LegPartMoves(before, start, end, steps - 1, n, step);
      var fewer := before + LegPart(start, end, steps - 1, n);
      assert ticks[|before| - 1 + step] == fewer[|before| - 1 + step];
    }
  }

  lemma LegIsEven(before: seq<real>, start: real, end: real, n: int)
    requires n > 0 && |before| > 0
    ensures EvenLeg(before + Leg(start, end, n), |before| - 1, n, start, end)
  {
    var ticks, base := before + Leg(start, end, n), |before| - 1;
    forall step | 1 <= step <= n ensures EvenMove(ticks, base, n, start, end, step) {
      LegPartMoves(before, start, end, n, n, step);
    }
    LegPartMoves(before, start, end, n, n, n);
    LegTickIs(start, end, n, n);
  }

  lemma LongerShows(ticks: seq<real>, more: seq<real>, base: int, n: int, start: real, end: real)
    requires n > 0 && EvenLeg(ticks, base, n, start, end)
    ensures EvenLeg(ticks + more, base, n, start, end)
  {
    forall step | 1 <= step <= n ensures EvenMove(ticks + more, base, n, start, end, step) {
      assert EvenMove(ticks, base, n, start, end, step);
    }
  }

  lemma LongerShowsCandle(ticks: seq<real>, more: seq<real>, base: int, n: int, c: Candle, assumption: IntrabarPath)
    requires n > 0 && CandleShown(ticks, base, n, c, assumption)
    ensures CandleShown(ticks + more, base, n, c, assumption)
  {
    var first := if assumption == OpenHighLowClose then c.high else c.low;
    var second := if assumption == OpenHighLowClose then c.low else c.high;
    LongerShows(ticks, more, base, n, c.open, first);
    LongerShows(ticks, more, base + n, n, first, second);
    LongerShows(ticks, more, base + 2 * n, n, second, c.close);
  }

  lemma LegsAreShown(before: seq<real>, a: real, b: real, c: real, d: real, n: int)
    requires n > 0 && |before| > 0
    ensures var ticks, base := before + (Leg(a, b, n) + Leg(b, c, n) + Leg(c, d, n)), |before| - 1;
            EvenLeg(ticks, base, n, a, b) && EvenLeg(ticks, base + n, n, b, c) && EvenLeg(ticks, base + 2 * n, n, c, d)
  {
    var one, two, three := Leg(a, b, n), Leg(b, c, n), Leg(c, d, n);
    LegIsEven(before, a, b, n);
    LegIsEven(before + one, b, c, n);
    LegIsEven(before + one + two, c, d, n);
    LongerShows(before + one, two + three, |before| - 1, n, a, b);
    LongerShows(before + one + two, three, |before| + n - 1, n, b, c);
    Associates(before + one, two, three);
    Associates(before, one, two + three);
    Associates(one, two, three);
  }

  lemma CandleTicksAreShown(before: seq<real>, c: Candle, assumption: IntrabarPath, n: int)
    requires n > 0 && |before| > 0
    ensures |CandleTicks(c, assumption, n)| == 3 * n
    ensures CandleShown(before + CandleTicks(c, assumption, n), |before| - 1, n, c, assumption)
  {
    var first := if assumption == OpenHighLowClose then c.high else c.low;
    var second := if assumption == OpenHighLowClose then c.low else c.high;
    ThreeLegs(c, assumption, n);
    LegsAreShown(before, c.open, first, second, c.close, n);
  }

  lemma ThreeLegs(c: Candle, assumption: IntrabarPath, n: int)
    requires n > 0
    ensures var first := if assumption == OpenHighLowClose then c.high else c.low;
            var second := if assumption == OpenHighLowClose then c.low else c.high;
            CandleTicks(c, assumption, n) == Leg(c.open, first, n) + Leg(first, second, n) + Leg(second, c.close, n)
  {
    var anchors := Anchors(c, assumption);
    assert LegsUpTo(anchors, 1, n) == Leg(anchors[0], anchors[1], n);
    assert LegsUpTo(anchors, 2, n) == LegsUpTo(anchors, 1, n) + Leg(anchors[1], anchors[2], n);
    assert LegsUpTo(anchors, 3, n) == LegsUpTo(anchors, 2, n) + Leg(anchors[2], anchors[3], n);
  }

  lemma PathGrows(before: seq<real>, more: seq<real>, candles: seq<Candle>, assumption: IntrabarPath, n: int)
    requires n > 0 && |candles| > 1 && |more| == 3 * n
    requires PathShown(before, candles[..|candles| - 1], assumption, n)
    requires CandleShown(before + more, Position(n, |candles| - 1), n, candles[|candles| - 1], assumption)
    ensures PathShown(before + more, candles, assumption, n)
  {
    var last := |candles| - 1;
    NextPosition(n, last);
    forall k | 0 <= k < |candles| ensures CandleShown(before + more, Position(n, k), n, candles[k], assumption) {
      if k < last {
        assert CandleShown(before, Position(n, k), n, candles[..last][k], assumption);
        LongerShowsCandle(before, more, Position(n, k), n, candles[k], assumption);
      }
    }
  }

  lemma {:induction false} TicksAreShown(candles: seq<Candle>, assumption: IntrabarPath, n: int)
    requires n > 0 && |candles| > 0
    ensures PathShown(TicksOf(candles, assumption, n), candles, assumption, n)
  {
    var last := |candles| - 1;
    var before, more := TicksBefore(candles, assumption, n), CandleTicks(candles[last], assumption, n);
    CandleTicksAreShown(before, candles[last], assumption, n);
    if last == 0 {
      NextPosition(n, 0);
    } else {
      TicksAreShown(candles[..last], assumption, n);
      PathGrows(before, more, candles, assumption, n);
    }
  }

  // ----- the ticks inside the legs can be left out

  /** The first ticks of a leg change nothing if the run goes on to its end. */
  lemma {:induction false} LegPartCollapses(d: Desk, zones: seq<Zone>, before: seq<real>, start: real, end: real,
                                            steps: nat, ticks: int, rest: seq<real>)
    requires |before| > 0 && before[|before| - 1] == start && steps < ticks
    ensures SameOutcome(d, zones, before + LegPart(start, end, steps, ticks) + ([end] + rest), before + ([end] + rest))
  {
    if steps == 0 {
      assert before + LegPart(start, end, 0, ticks) == before;
    } else {
      var part, tick := before + LegPart(start, end, steps - 1, ticks), LegTick(start, end, steps, ticks);
      LegTickAdvances(start, end, steps, ticks);
      LegTickLies(start, end, steps, ticks);
      InsertedPriceChangesNothing(d, zones, part, tick, [end] + rest);
      LegPartCollapses(d, zones, before, start, end, steps - 1, ticks, rest);
      assert before + LegPart(start, end, steps, ticks) == part + [tick];
    }
  }

  /** A leg cut into any number of ticks is as good as its last tick. */
  lemma LegCollapses(d: Desk, zones: seq<Zone>, before: seq<real>, start: real, end: real, ticks: int, rest: seq<real>)
    requires |before| > 0 && before[|before| - 1] == start && ticks > 0
    ensures SameOutcome(d, zones, before + Leg(start, end, ticks) + rest, before + [end] + rest)
  {
    var part := LegPart(start, end, ticks - 1, ticks);
    LegPartCollapses(d, zones, before, start, end, ticks - 1, ticks, rest);
    LegTickIs(start, end, ticks, ticks);
    assert before + Leg(start, end, ticks) + rest == before + part + ([end] + rest);
    assert before + [end] + rest == before + ([end] + rest);
  }

  lemma {:induction false} LegsEnd(anchors: seq<real>, legs: nat, ticks: int)
    requires ticks > 0 && legs < |anchors|
    ensures legs > 0 ==> |LegsUpTo(anchors, legs, ticks)| > 0
    ensures var p := [anchors[0]] + LegsUpTo(anchors, legs, ticks); p[|p| - 1] == anchors[legs]
  {
    if legs > 0 {
      LegsEnd(anchors, legs - 1, ticks);
      LegTickIs(anchors[legs - 1], anchors[legs], ticks, ticks);
    }
  }

  /** Legs through a list of anchors are as good as the anchors. */
  lemma {:induction false} LegsCollapse(d: Desk, zones: seq<Zone>, before: seq<real>, anchors: seq<real>, legs: nat,
                                        ticks: int, rest: seq<real>)
    requires |before| > 0 && legs < |anchors| && before[|before| - 1] == anchors[0] && ticks > 0
    ensures SameOutcome(d, zones, before + LegsUpTo(anchors, legs, ticks) + rest, before + anchors[1..legs + 1] + rest)
  {
    if legs == 0 {
      assert LegsUpTo(anchors, legs, ticks) == anchors[1..legs + 1];
    } else {
      var start, end := anchors[legs - 1], anchors[legs];
      var legsBefore := LegsUpTo(anchors, legs - 1, ticks);
      LegsEnd(anchors, legs - 1, ticks);
      LegCollapses(d, zones, before + legsBefore, start, end, ticks, rest);
      LegsCollapse(d, zones, before, anchors, legs - 1, ticks, [end] + rest);
      OneMoreLeg(before, anchors, legs, ticks, rest);
      SameOutcomeChains(d, zones, before + LegsUpTo(anchors, legs, ticks) + rest, before + legsBefore + [end] + rest,
                        before + anchors[1..legs + 1] + rest);
    }
  }

  lemma OneMoreLeg(before: seq<real>, anchors: seq<real>, legs: nat, ticks: int, rest: seq<real>)
    requires ticks > 0 && 0 < legs < |anchors|
    ensures var early, end := LegsUpTo(anchors, legs - 1, ticks), anchors[legs];
            && before + LegsUpTo(anchors, legs, ticks) + rest
               == before + early + Leg(anchors[legs - 1], end, ticks) + rest
            && before + early + [end] + rest == before + early + ([end] + rest)
            && before + anchors[1..legs + 1] + rest == before + anchors[1..legs] + ([end] + rest)
  {
    var early, end := LegsUpTo(anchors, legs - 1, ticks), anchors[legs];
    Associates(before, early, Leg(anchors[legs - 1], end, ticks));
    Associates(before + early, [end], rest);
    assert anchors[1..legs + 1] == anchors[1..legs] + [end];
    Associates(before, anchors[1..legs], [end]);
    Associates(before + anchors[1..legs], [end], rest);
  }

  lemma Associates(a: seq<real>, b: seq<real>, c: seq<real>)
    ensures a + b + c == a + (b + c)
  {}

  // ----- whole reconstructions

  /** The first price of each candle and its other three anchors. */
  function AnchorPath(candles: seq<Candle>, assumption: IntrabarPath): (p: seq<real>)
    ensures |candles| > 0 ==> |p| > 0 && p[|p| - 1] == candles[|candles| - 1].close
  {
    if |candles| == 0 then []
    else
      var last := |candles| - 1;
      (if last == 0 then [candles[0].open] else AnchorPath(candles[..last], assumption))
      + Anchors(candles[last], assumption)[1..]
  }

  /** The ticks before the last candle, or the first open. */
  function TicksBefore(candles: seq<Candle>, assumption: IntrabarPath, ticks: int): seq<real>
    requires ticks > 0 && |candles| > 0
  {
    if |candles| == 1 then [candles[0].open] else TicksOf(candles[..|candles| - 1], assumption, ticks)
  }

  lemma {:induction false} TicksEnd(candles: seq<Candle>, assumption: IntrabarPath, ticks: int)
    requires ticks > 0 && |candles| > 0
    ensures var p := TicksOf(candles, assumption, ticks); |p| > 0 && p[|p| - 1] == candles[|candles| - 1].close
  {
    LegsEnd(Anchors(candles[|candles| - 1], assumption), 3, ticks);
  }

  lemma CandleCollapses(d: Desk, zones: seq<Zone>, before: seq<real>, candle: Candle, assumption: IntrabarPath,
                        ticks: int, rest: seq<real>)
    requires ticks > 0 && |before| > 0 && before[|before| - 1] == candle.open
    ensures SameOutcome(d, zones, before + CandleTicks(candle, assumption, ticks) + rest,
                        before + (Anchors(candle, assumption)[1..] + rest))
  {
    var anchors := Anchors(candle, assumption);
    LegsCollapse(d, zones, before, anchors, 3, ticks, rest);
    assert before + anchors[1..4] + rest == before + (anchors[1..] + rest);
  }

  lemma LastCandleCollapses(d: Desk, zones: seq<Zone>, candles: seq<Candle>, assumption: IntrabarPath, ticks: int,
                            rest: seq<real>)
    requires ticks > 0 && |candles| > 0 && Gapless(candles)
    ensures SameOutcome(d, zones, TicksOf(candles, assumption, ticks) + rest,
                        TicksBefore(candles, assumption, ticks)
                        + (Anchors(candles[|candles| - 1], assumption)[1..] + rest))
  {
    var last := |candles| - 1;
    if last > 0 { TicksEnd(candles[..last], assumption, ticks); }
    CandleCollapses(d, zones, TicksBefore(candles, assumption, ticks), candles[last], assumption, ticks, rest);
  }

  lemma AnchorsGoOn(candles: seq<Candle>, assumption: IntrabarPath, rest: seq<real>)
    requires |candles| > 1
    ensures AnchorPath(candles, assumption) + rest
            == AnchorPath(candles[..|candles| - 1], assumption)
               + (Anchors(candles[|candles| - 1], assumption)[1..] + rest)
  {
    var anchors := Anchors(candles[|candles| - 1], assumption)[1..];
    var early := AnchorPath(candles[..|candles| - 1], assumption);
    assert AnchorPath(candles, assumption) == early + anchors;
    Associates(early, anchors, rest);
  }

  /** Candles cut into any number of ticks per leg are as good as their anchors. */
  lemma {:induction false} CandlesCollapse(d: Desk, zones: seq<Zone>, candles: seq<Candle>, assumption: IntrabarPath,
                                           ticks: int, rest: seq<real>)
    requires ticks > 0 && |candles| > 0 && Gapless(candles)
    ensures SameOutcome(d, zones, TicksOf(candles, assumption, ticks) + rest, AnchorPath(candles, assumption) + rest)
  {
    var last := |candles| - 1;
    var anchors := Anchors(candles[last], assumption)[1..];
    LastCandleCollapses(d, zones, candles, assumption, ticks, rest);
    if last == 0 {
      Associates([candles[0].open], anchors, rest);
    } else {
      var early := AnchorPath(candles[..last], assumption);
      CandlesCollapse(d, zones, candles[..last], assumption, ticks, anchors + rest);
      SameOutcomeChains(d, zones, TicksOf(candles, assumption, ticks) + rest,
                        TicksOf(candles[..last], assumption, ticks) + (anchors + rest), early + (anchors + rest));
      AnchorsGoOn(candles, assumption, rest);
    }
  }

  /** The intrabar resolution does not matter: levels, totals and ledger of a run
      over reconstructed candles, tick numbers aside, and all reported metrics are
      the same for every number of ticks per leg. */
  lemma TicksPerLegDoNotMatter(d: Desk, zones: seq<Zone>, candles: seq<Candle>, assumption: IntrabarPath, fine: int,
                               coarse: int)
    requires fine > 0 && coarse > 0 && |candles| > 0 && Gapless(candles)
    ensures SameOutcome(d, zones, TicksOf(candles, assumption, fine), TicksOf(candles, assumption, coarse))
    ensures After(d, zones, TicksOf(candles, assumption, fine)).previous == At(candles[|candles| - 1].close)
  {
    var f, c := TicksOf(candles, assumption, fine), TicksOf(candles, assumption, coarse);
    var a := AnchorPath(candles, assumption);
    CandlesCollapse(d, zones, candles, assumption, fine, []);
    CandlesCollapse(d, zones, candles, assumption, coarse, []);
    assert f + [] == f && c + [] == c && a + [] == a;
    TicksEnd(candles, assumption, fine);
    AfterRests(d, zones, f);
  }
}
