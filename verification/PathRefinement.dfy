/** Refining a path changes nothing: a price put in between two neighbours of a
    path leaves levels, totals, ledger and reported metrics as they were. */
module PathRefinement {
  import opened VirtualLevels
  import opened Ledgers
  import opened Sums
  import opened Folds
  import opened HedgeModel
  import opened Segments
  import opened Positions
  import opened Accounting
  import opened TrueMinimum

  // ----- runs that differ in tick numbers only

  /** Two runs differ at most in the tick numbers of their ledgers. */
  predicate SameRun(a: Run, b: Run) {
    UntimedRun(a) == UntimedRun(b)
  }

  lemma SameStep(d: Desk, a: Run, b: Run, price: real, tickA: int, tickB: int)
    requires SameRun(a, b)
    ensures SameRun(Step(d, a, price, tickA), Step(d, b, price, tickB))
  {
    UntimedStep(d, a, price, tickA);
    UntimedStep(d, b, price, tickB);
  }

  lemma {:induction false} SameReplay(d: Desk, a: Run, b: Run, prices: seq<real>, tickA: int, tickB: int)
    requires SameRun(a, b)
    ensures SameRun(Replay(d, a, prices, tickA), Replay(d, b, prices, tickB))
  {
    if |prices| > 0 {
      var last := |prices| - 1;
      SameReplay(d, a, b, prices[..last], tickA, tickB);
      SameStep(d, Replay(d, a, prices[..last], tickA), Replay(d, b, prices[..last], tickB), prices[last],
               tickA + last, tickB + last);
    }
  }

  /** A fresh engine after these prices. */
  function After(d: Desk, zones: seq<Zone>, prices: seq<real>): Run {
    Replay(d, FreshRun(zones), prices, 0)
  }

  lemma AfterMore(d: Desk, zones: seq<Zone>, prices: seq<real>, price: real)
    ensures After(d, zones, prices + [price]) == Step(d, After(d, zones, prices), price, |prices|)
  {
    assert (prices + [price])[..|prices|] == prices;
  }

  lemma AfterRests(d: Desk, zones: seq<Zone>, prices: seq<real>)
    requires |prices| > 0
    ensures RunRests(After(d, zones, prices)) && After(d, zones, prices).previous == At(prices[|prices| - 1])
  {
    ReplayRests(d, FreshRun(zones), prices, 0);
  }

  /** The price can be put after the first part of a path without a detour. */
  predicate FitsBetween(before: seq<real>, price: real, rest: seq<real>) {
    |before| > 0 && |rest| > 0 && Between(before[|before| - 1], price, rest[0])
  }

  lemma AfterConcat(d: Desk, zones: seq<Zone>, a: seq<real>, b: seq<real>)
    ensures After(d, zones, a + b) == Replay(d, After(d, zones, a), b, |a|)
  {
    FoldConcat(Ticks(d), FreshRun(zones), a, b, 0);
  }

  lemma InsertedStep(d: Desk, zones: seq<Zone>, before: seq<real>, price: real, next: real)
    requires FitsBetween(before, price, [next])
    ensures SameRun(After(d, zones, before + [price] + [next]), After(d, zones, before + [next]))
  {
    AfterRests(d, zones, before);
    AfterMore(d, zones, before, price);
    AfterMore(d, zones, before, next);
    AfterMore(d, zones, before + [price], next);
    StepSplits(d, After(d, zones, before), price, next, |before|, |before| + 1, |before|);
  }

  lemma InsertedRun(d: Desk, zones: seq<Zone>, before: seq<real>, price: real, rest: seq<real>)
    requires FitsBetween(before, price, rest)
    ensures SameRun(After(d, zones, before + [price] + rest), After(d, zones, before + rest))
  {
    var fine, coarse, tail := before + [price] + [rest[0]], before + [rest[0]], rest[1..];
    InsertedStep(d, zones, before, price, rest[0]);
    SameReplay(d, After(d, zones, fine), After(d, zones, coarse), tail, |fine|, |coarse|);
    AfterConcat(d, zones, fine, tail);
    AfterConcat(d, zones, coarse, tail);
    assert fine + tail == before + [price] + rest && coarse + tail == before + rest;
  }

  // ----- what a path is worth on its way

  /** The combined P&L of a run at its last price. */
  function Worth(d: Desk, run: Run): real
    requires run.previous.At?
  {
    Combined(d.spread, run.state.levels, run.state.book, run.previous.price)
  }

  lemma ValueIsWorth(d: Desk, zones: seq<Zone>, prices: seq<real>, k: nat, x: real)
    requires k < |prices|
    ensures ValueOnPath(d, zones, prices, k, x) == Worth(d, After(d, zones, prices[..k] + [x]))
  {
    var run := After(d, zones, prices[..k]);
    AfterMore(d, zones, prices[..k], x);
    if k == 0 {
      assert run == FreshRun(zones);
    } else {
      AfterRests(d, zones, prices[..k]);
      ArmKeepsCombined(d, Travel(d, run.state, prices[k - 1], x, k), x, x);
    }
  }

  lemma SameValues(d: Desk, zones: seq<Zone>, p: seq<real>, j: nat, q: seq<real>, k: nat, x: real)
    requires j < |p| && k < |q| && SameRun(After(d, zones, p[..j] + [x]), After(d, zones, q[..k] + [x]))
    ensures ValueOnPath(d, zones, p, j, x) == ValueOnPath(d, zones, q, k, x)
  {
    ValueIsWorth(d, zones, p, j, x);
    ValueIsWorth(d, zones, q, k, x);
    var a, b := After(d, zones, p[..j] + [x]), After(d, zones, q[..k] + [x]);
    AfterRests(d, zones, p[..j] + [x]);
    AfterRests(d, zones, q[..k] + [x]);
    assert UntimedRun(a).state.levels == UntimedRun(b).state.levels;
    assert UntimedRun(a).state.book.realized == UntimedRun(b).state.book.realized;
  }

  /** Some price of the path is worth this. */
  ghost predicate Shows(d: Desk, zones: seq<Zone>, prices: seq<real>, value: real) {
    exists k, x :: Passes(prices, k, x) && ValueOnPath(d, zones, prices, k, x) == value
  }

  lemma PartOfPath(before: seq<real>, rest: seq<real>, m: nat, x: real)
    requires m <= |rest|
    ensures (before + rest)[..|before| + m] + [x] == before + (rest[..m] + [x])
  {
    assert (before + rest)[..|before| + m] == before + rest[..m];
  }

  lemma SameUpTo(d: Desk, zones: seq<Zone>, before: seq<real>, price: real, rest: seq<real>, m: nat, x: real)
    requires m < |rest| && FitsBetween(before, price, rest[..m] + [x])
    ensures SameRun(After(d, zones, (before + rest)[..|before| + m] + [x]),
                    After(d, zones, (before + [price] + rest)[..|before| + 1 + m] + [x]))
  {
    InsertedRun(d, zones, before, price, rest[..m] + [x]);
    PartOfPath(before, rest, m, x);
    PartOfPath(before + [price], rest, m, x);
  }

  /** From the new price on, the refined path passes the same prices one tick later. */
  lemma LaterValues(d: Desk, zones: seq<Zone>, before: seq<real>, price: real, rest: seq<real>, m: nat, x: real)
    requires FitsBetween(before, price, rest) && m < |rest| && FitsBetween(before, price, rest[..m] + [x])
    ensures ValueOnPath(d, zones, before + rest, |before| + m, x)
            == ValueOnPath(d, zones, before + [price] + rest, |before| + 1 + m, x)
  {
    SameUpTo(d, zones, before, price, rest, m, x);
    SameValues(d, zones, before + rest, |before| + m, before + [price] + rest, |before| + 1 + m, x);
  }

  /** Before the new price, both paths pass the same prices at the same ticks. */
  lemma EarlierValues(d: Desk, zones: seq<Zone>, before: seq<real>, a: seq<real>, b: seq<real>, j: nat, x: real)
    requires j <= |before| && |a| > 0 && |b| > 0
    ensures ValueOnPath(d, zones, before + a, j, x) == ValueOnPath(d, zones, before + b, j, x)
  {
    assert (before + a)[..j] == before[..j] && (before + b)[..j] == before[..j];
    SameValues(d, zones, before + a, j, before + b, j, x);
  }

  lemma PassesEarlier(before: seq<real>, a: seq<real>, b: seq<real>, j: nat, x: real)
    requires j < |before|
    ensures Passes(before + a, j, x) <==> Passes(before + b, j, x)
  {}

  lemma PassesLater(before: seq<real>, rest: seq<real>, m: nat, x: real)
    requires |before| > 0 && m < |rest|
    ensures Passes(before + rest, |before| + m, x)
            <==> Between(if m == 0 then before[|before| - 1] else rest[m - 1], x, rest[m])
  {}

  lemma ShownAt(d: Desk, zones: seq<Zone>, prices: seq<real>, k: nat, x: real)
    requires Passes(prices, k, x)
    ensures Shows(d, zones, prices, ValueOnPath(d, zones, prices, k, x))
  {}

  /** A price the coarse path passes at tick j is passed by the refined path at the
      same tick, or at the next one, with the same value. */
  lemma RefinedShows(d: Desk, zones: seq<Zone>, before: seq<real>, price: real, rest: seq<real>, j: nat, x: real)
    requires FitsBetween(before, price, rest) && Passes(before + rest, j, x)
    ensures Shows(d, zones, before + [price] + rest, ValueOnPath(d, zones, before + rest, j, x))
  {
    var n, more := |before|, [price] + rest;
    assert before + [price] + rest == before + more;
    if j < n {
      PassesEarlier(before, rest, more, j, x);
      EarlierValues(d, zones, before, rest, more, j, x);
      ShownAt(d, zones, before + more, j, x);
    } else {
      PassesLater(before, rest, j - n, x);
      if j == n && Between(before[n - 1], x, price) {
        PassesLater(before, more, 0, x);
        EarlierValues(d, zones, before, rest, more, j, x);
        ShownAt(d, zones, before + more, j, x);
      } else {
        PassesLater(before + [price], rest, j - n, x);
        LaterValues(d, zones, before, price, rest, j - n, x);
        ShownAt(d, zones, before + more, j + 1, x);
      }
    }
  }

  /** And the other way round. */
  lemma CoarseShows(d: Desk, zones: seq<Zone>, before: seq<real>, price: real, rest: seq<real>, j: nat, x: real)
    requires FitsBetween(before, price, rest) && Passes(before + [price] + rest, j, x)
    ensures Shows(d, zones, before + rest, ValueOnPath(d, zones, before + [price] + rest, j, x))
  {
    var n, more := |before|, [price] + rest;
    assert before + [price] + rest == before + more;
    if j < n {
      PassesEarlier(before, rest, more, j, x);
      EarlierValues(d, zones, before, rest, more, j, x);
      ShownAt(d, zones, before + rest, j, x);
    } else if j == n {
      PassesLater(before, more, 0, x);
      PassesLater(before, rest, 0, x);
      EarlierValues(d, zones, before, rest, more, j, x);
      ShownAt(d, zones, before + rest, j, x);
    } else {
      PassesLater(before + [price], rest, j - 1 - n, x);
      PassesLater(before, rest, j - 1 - n, x);
      LaterValues(d, zones, before, price, rest, j - 1 - n, x);
      ShownAt(d, zones, before + rest, j - 1, x);
    }
  }

  // ----- the metrics

  /** The metrics of a run that ended here with this minimum. */
  function EndMetrics(d: Desk, run: Run, minimum: real): Metrics
    requires run.previous.At?
  {
    var book, levels := run.state.book, run.state.levels;
    Metrics(Worth(d, run), minimum, minimum >= 0.0, book.entries, book.stops, book.tps, book.reentries,
            book.floorEntries, book.breakevens, book.maximumQuantity, book.grossStops,
            d.spread.premium - book.grossStops, LockedIndices(levels), Sum(DebtOf, levels))
  }

  /** Apart from the minimum, the metrics are those of the state the run ended in. */
  lemma MetricsAreOfTheEnd(d: Desk, zones: seq<Zone>, prices: seq<real>)
    requires |prices| > 0
    ensures After(d, zones, prices).previous.At?
    ensures var m := Account(d, zones, prices).metrics; m == EndMetrics(d, After(d, zones, prices), m.minimumCombined)
  {
    var last := |prices| - 1;
    var samples := ReplaySamples(d, FreshRun(zones), prices, 0);
    var ticks := TickSamples(d, After(d, zones, prices[..last]), prices[last], last);
    AfterRests(d, zones, prices);
    TickEndIsSampled(d, After(d, zones, prices[..last]), prices[last], last);
    assert samples[|samples| - 1] == ticks[|ticks| - 1];
  }

  /** Two paths cannot be told apart by what is reported, tick numbers aside. */
  ghost predicate SameOutcome(d: Desk, zones: seq<Zone>, p: seq<real>, q: seq<real>) {
    && |p| > 0 && |q| > 0 && SameRun(After(d, zones, p), After(d, zones, q))
    && (Tiles(d.spread, d.rate, zones) ==> Account(d, zones, p).metrics == Account(d, zones, q).metrics)
  }

  lemma SameOutcomeChains(d: Desk, zones: seq<Zone>, p: seq<real>, q: seq<real>, r: seq<real>)
    requires SameOutcome(d, zones, p, q) && SameOutcome(d, zones, q, r)
    ensures SameOutcome(d, zones, p, r) && SameOutcome(d, zones, r, p)
  {}

  lemma SameMinimum(d: Desk, zones: seq<Zone>, p: seq<real>, q: seq<real>)
    requires Tiles(d.spread, d.rate, zones) && |p| > 0 && |q| > 0
    requires forall j, x | Passes(p, j, x) :: Shows(d, zones, q, ValueOnPath(d, zones, p, j, x))
    requires forall j, x | Passes(q, j, x) :: Shows(d, zones, p, ValueOnPath(d, zones, q, j, x))
    ensures Account(d, zones, p).metrics.minimumCombined == Account(d, zones, q).metrics.minimumCombined
  {
    MinimumIsExact(d, zones, p);
    MinimumIsExact(d, zones, q);
  }

  /** A price put between two neighbours of a path changes neither the run nor the
      reported metrics. */
  lemma InsertedPriceChangesNothing(d: Desk, zones: seq<Zone>, before: seq<real>, price: real, rest: seq<real>)
    requires FitsBetween(before, price, rest)
    ensures SameOutcome(d, zones, before + [price] + rest, before + rest)
  {
    var p, q := before + [price] + rest, before + rest;
    InsertedRun(d, zones, before, price, rest);
    if Tiles(d.spread, d.rate, zones) {
      forall j, x | Passes(q, j, x) ensures Shows(d, zones, p, ValueOnPath(d, zones, q, j, x)) {
        RefinedShows(d, zones, before, price, rest, j, x);
      }
      forall j, x | Passes(p, j, x) ensures Shows(d, zones, q, ValueOnPath(d, zones, p, j, x)) {
        CoarseShows(d, zones, before, price, rest, j, x);
      }
      SameMinimum(d, zones, p, q);
      MetricsAreOfTheEnd(d, zones, p);
      MetricsAreOfTheEnd(d, zones, q);
      SameEndMetrics(d, After(d, zones, p), After(d, zones, q), Account(d, zones, p).metrics.minimumCombined);
    }
  }

  lemma SameEndMetrics(d: Desk, a: Run, b: Run, minimum: real)
    requires SameRun(a, b) && a.previous.At? && b.previous.At?
    ensures EndMetrics(d, a, minimum) == EndMetrics(d, b, minimum)
  {
    assert UntimedRun(a).previous == UntimedRun(b).previous && UntimedRun(a).state.levels == UntimedRun(b).state.levels;
    assert UntimedBook(a.state.book) == UntimedBook(b.state.book);
  }
}
