/** The entry snapshot of one level and its reducer: fills in any order, any
    number of times, lead to the same snapshot. */
module EntryFills {
  import opened Sums
  import opened InstrumentRules
  import opened FillDelivery

  datatype KnownOrder = NotKnown | Known(id: OrderId)

  datatype EntryState =
    | RequestPersisted | Submitted | Acknowledged | PartiallyFilled | ActiveUnprotected | Reconciling | Failed

  datatype EntrySnapshot = Entry(link: LinkId, state: EntryState, target: real, order: KnownOrder,
                                 filled: real, notional: real, fees: real, version: nat)
  {
    /** What the program's constructor demands. */
    predicate Valid() {
      && target > 0.0 && 0.0 <= filled <= target && notional >= 0.0
      && (filled == 0.0 ==> notional == 0.0) && (filled > 0.0 ==> notional > 0.0)
      && (state in {Acknowledged, PartiallyFilled, ActiveUnprotected} ==> order.Known?)
      && (state == PartiallyFilled ==> 0.0 < filled < target)
      && (state == ActiveUnprotected ==> filled > 0.0)
      && version > 0
    }
  }

  function Checked(s: EntrySnapshot): Outcome<EntrySnapshot> {
    if s.Valid() then Ok(s) else Refused(InvalidSnapshot)
  }

  function ApplyEntryExecution(s: EntrySnapshot, x: Fill): Outcome<EntrySnapshot> {
    if x.link != s.link then Refused(WrongLink)
    else if !x.isEth || x.side != Sell then Refused(WrongInstrument)
    else if s.order.Known? && x.orderId != s.order.id then Refused(WrongOrder)
    else
      var filled := s.filled + x.quantity;
      if filled > s.target then Refused(TooMuch)
      else
        Checked(s.(state := if filled == s.target then ActiveUnprotected else PartiallyFilled,
                   order := Known(x.orderId), filled := filled, notional := s.notional + Notional(x),
                   fees := s.fees + x.fee, version := s.version + 1))
  }

  function FinalizePartialEntry(s: EntrySnapshot): Outcome<EntrySnapshot> {
    if s.state != PartiallyFilled then Refused(InvalidSnapshot)
    else Checked(s.(state := ActiveUnprotected, version := s.version + 1))
  }

  /** The reducer accepts exactly the fills of its own order that still fit, and
      then the invariants of the snapshot hold without the constructor's help. */
  lemma EntryAcceptsExactly(s: EntrySnapshot, x: Fill)
    requires s.Valid()
    ensures ApplyEntryExecution(s, x).Ok?
            <==> x.link == s.link && x.isEth && x.side == Sell && (s.order.Known? ==> x.orderId == s.order.id)
                 && x.quantity <= s.target - s.filled
    ensures ApplyEntryExecution(s, x).Ok? ==> ApplyEntryExecution(s, x).value.Valid()
  {
    NotionalIsPositive(x);
  }

  lemma NotionalIsPositive(x: Fill)
    ensures Notional(x) > 0.0
  {}

  // ----- many fills

  /** A fill of this entry, under one order ID. */
  predicate Belongs(s: EntrySnapshot, order: OrderId, x: Fill) {
    && x.link == s.link && x.isEth && x.side == Sell && x.orderId == order
    && (s.order.Known? ==> s.order.id == order)
  }

  function Absorbed(s: EntrySnapshot, order: OrderId, xs: seq<Fill>): EntrySnapshot {
    if |xs| == 0 then s
    else
      var filled := s.filled + Sum(Quantity, xs);
      Entry(s.link, if filled == s.target then ActiveUnprotected else PartiallyFilled, s.target, Known(order),
            filled, s.notional + Sum(Notional, xs), s.fees + Sum(Fee, xs), s.version + |xs|)
  }

  ghost predicate Fits(s: EntrySnapshot, order: OrderId, xs: seq<Fill>) {
    s.Valid() && (forall x | x in xs :: Belongs(s, order, x)) && Sum(Quantity, xs) <= s.target - s.filled
  }

  lemma AbsorbsOne(s: EntrySnapshot, order: OrderId, xs: seq<Fill>, x: Fill)
    requires Fits(s, order, xs + [x])
    ensures Fits(s, order, xs) && Absorbed(s, order, xs).Valid()
    ensures ApplyEntryExecution(Absorbed(s, order, xs), x) == Ok(Absorbed(s, order, xs + [x]))
  {
    assert x in xs + [x];
    forall y | y in xs ensures Belongs(s, order, y) { assert y in xs + [x]; }
    SumAppend(Quantity, xs, x);
    SumAppend(Notional, xs, x);
    SumAppend(Fee, xs, x);
    AbsorbedIsValid(s, order, xs, x.quantity);
    EntryAcceptsExactly(Absorbed(s, order, xs), x);
  }

  lemma AbsorbedIsValid(s: EntrySnapshot, order: OrderId, xs: seq<Fill>, spare: real)
    requires Fits(s, order, xs) && spare >= 0.0 && Sum(Quantity, xs) + spare <= s.target - s.filled
    ensures Absorbed(s, order, xs).Valid()
  {
    FilledSums(xs);
  }

  lemma {:induction false} FilledSums(xs: seq<Fill>)
    ensures |xs| > 0 ==> Sum(Quantity, xs) > 0.0 && Sum(Notional, xs) > 0.0
  {
    if |xs| > 1 { FilledSums(xs[..|xs| - 1]); }
    if |xs| > 0 { NotionalIsPositive(xs[|xs| - 1]); }
  }

  /** Deliver every fill of a list, in order, to an entry that has seen some already. */
  function Deliveries(s: EntrySnapshot, seen: set<nat>, xs: seq<Fill>): Store<EntrySnapshot> {
    DeliverAll(ApplyEntryExecution, Store(seen, s), xs)
  }

  /** All fills that fit are absorbed: none is refused or counted twice. */
  lemma EntryAbsorbsAll(s: EntrySnapshot, order: OrderId, seen: set<nat>, xs: seq<Fill>)
    requires Consistent(xs) && Fits(s, order, News(seen, xs))
    ensures Deliveries(s, seen, xs) == Store(seen + IdsOf(News(seen, xs)), Absorbed(s, order, News(seen, xs)))
    ensures Deliveries(s, seen, xs).snapshot.Valid()
  {
    var absorbed := (ys: seq<Fill>) => Absorbed(s, order, ys);
    var good := (ys: seq<Fill>) => Fits(s, order, ys);
    forall ys: seq<Fill>, y: Fill | good(ys + [y])
      ensures good(ys) && ApplyEntryExecution(absorbed(ys), y) == Ok(absorbed(ys + [y]))
    {
      AbsorbsOne(s, order, ys, y);
    }
    DeliveredIsAbsorbed(ApplyEntryExecution, absorbed, good, seen, xs);
    AbsorbedIsValid(s, order, News(seen, xs), 0.0);
  }

  lemma SameFillsAbsorbAlike(s: EntrySnapshot, order: OrderId, xs: seq<Fill>, ys: seq<Fill>)
    requires Distinct(xs) && Distinct(ys) && (forall x :: x in xs <==> x in ys) && Fits(s, order, xs)
    ensures Fits(s, order, ys) && Absorbed(s, order, xs) == Absorbed(s, order, ys) && IdsOf(xs) == IdsOf(ys)
  {
    SameFillsSameSums(Quantity, xs, ys);
    SameFillsSameSums(Notional, xs, ys);
    SameFillsSameSums(Fee, xs, ys);
    IdsOfSameFills(xs, ys);
  }

  /** Confluence: two deliveries of the same fills, in any order and with any
      repetitions, end in the same store. */
  lemma EntryConfluence(s: EntrySnapshot, order: OrderId, seen: set<nat>, xs: seq<Fill>, ys: seq<Fill>)
    requires Consistent(xs) && (forall x :: x in xs <==> x in ys) && Fits(s, order, News(seen, xs))
    ensures Deliveries(s, seen, xs) == Deliveries(s, seen, ys)
  {
    NewsAreTheUnseen(seen, xs);
    NewsAreTheUnseen(seen, ys);
    SameFillsAbsorbAlike(s, order, News(seen, xs), News(seen, ys));
    EntryAbsorbsAll(s, order, seen, xs);
    EntryAbsorbsAll(s, order, seen, ys);
  }

  /** A fill that arrives after a partial entry was finalized takes the
      finalization back: the two do not commute. */
  lemma LateFillUndoesFinalization(s: EntrySnapshot, x: Fill)
    requires s.Valid() && s.state == PartiallyFilled
    requires ApplyEntryExecution(s, x).Ok? && x.quantity < s.target - s.filled
    ensures FinalizePartialEntry(s).Ok? && FinalizePartialEntry(s).value.state == ActiveUnprotected
    ensures var late := ApplyEntryExecution(FinalizePartialEntry(s).value, x);
            late.Ok? && late.value.state == PartiallyFilled
    ensures var early := FinalizePartialEntry(ApplyEntryExecution(s, x).value);
            early.Ok? && early.value.state == ActiveUnprotected
  {
    NotionalIsPositive(x);
  }
}
