/** The protection snapshot of one level and its exit reducer: confluence, realized
    P&L as a sum of contributions, and the debt that stops leave. */
module ExitFills {
  import opened Sums
  import opened Products
  import opened InstrumentRules
  import opened FillDelivery
  import opened EntryFills

  datatype KnownLink = NoLink | LinkTo(link: LinkId)

  datatype Terminal = ClosedTp | ClosedStop

  datatype Pending = NothingPending | PendingClose(terminal: Terminal)

  datatype ProtectionState =
    | Unprotected | Protected | ExitPartiallyFilled | CancelPending
    | Closed(terminal: Terminal) | ExitReconciling | ExitFailed

  datatype ProtectionSnapshot = Protection(
    state: ProtectionState,
    entryQuantity: real,
    openQuantity: real,
    average: real,
    entryFees: real,
    stopLink: LinkId,
    stopOrder: KnownOrder,
    tpLink: KnownLink,
    tpOrder: KnownOrder,
    tpFilled: real,
    stopFilled: real,
    exitNotional: real,
    exitFees: real,
    debt: real,
    pending: Pending,
    version: nat)
  {
    function ClosedQuantity(): real {
      tpFilled + stopFilled
    }

    /** What the program's constructor demands. */
    predicate Valid() {
      && entryQuantity > 0.0 && average > 0.0 && 0.0 <= openQuantity <= entryQuantity
      && entryFees >= 0.0 && tpFilled >= 0.0 && stopFilled >= 0.0
      && exitNotional >= 0.0 && exitFees >= 0.0 && debt >= 0.0
      && ClosedQuantity() + openQuantity == entryQuantity
      && (ClosedQuantity() == 0.0 ==> exitNotional == 0.0) && (ClosedQuantity() > 0.0 ==> exitNotional > 0.0)
      && tpLink != LinkTo(stopLink) && (tpLink == NoLink ==> tpOrder == NotKnown)
      && (state == Protected ==> stopOrder.Known?)
      && (state == CancelPending ==> openQuantity == 0.0 && pending.PendingClose?)
      && (state.Closed? ==> openQuantity == 0.0 && pending == NothingPending)
      && version > 0
    }
  }

  function Share(fees: real, part: real, whole: real): real
    requires whole > 0.0
  {
    Times(fees, part) / whole
  }

  /** Realized P&L of what is closed: entry value less exit value, less both kinds of fees. */
  function RealizedPnl(s: ProtectionSnapshot): real
    requires s.entryQuantity > 0.0
  {
    Times(s.average, s.ClosedQuantity()) - s.exitNotional - Share(s.entryFees, s.ClosedQuantity(), s.entryQuantity)
    - s.exitFees
  }

  /** What one exit fill realizes. */
  function Contribution(s: ProtectionSnapshot, x: Fill): real
    requires s.entryQuantity > 0.0
  {
    Times(s.average - x.price, x.quantity) - Share(s.entryFees, x.quantity, s.entryQuantity) - x.fee
  }

  function StopDebt(s: ProtectionSnapshot, x: Fill): real
    requires s.entryQuantity > 0.0
  {
    Positive(Times(x.price - s.average, x.quantity) + Share(s.entryFees, x.quantity, s.entryQuantity) + x.fee)
  }

  predicate IsStop(s: ProtectionSnapshot, x: Fill) {
    x.link == s.stopLink
  }

  predicate IsTp(s: ProtectionSnapshot, x: Fill) {
    s.tpLink == LinkTo(x.link)
  }

  function Checked(s: ProtectionSnapshot): Outcome<ProtectionSnapshot> {
    if s.Valid() then Ok(s) else Refused(InvalidSnapshot)
  }

  function ApplyExitExecution(s: ProtectionSnapshot, x: Fill): Outcome<ProtectionSnapshot> {
    if !x.isEth || x.side != Buy then Refused(WrongInstrument)
    else if !IsStop(s, x) && !IsTp(s, x) then Refused(WrongLink)
    else
      var expected := if IsStop(s, x) then s.stopOrder else s.tpOrder;
      if expected.Known? && x.orderId != expected.id then Refused(WrongOrder)
      else if x.quantity > s.openQuantity then Refused(TooMuch)
      else if s.entryQuantity <= 0.0 then Refused(InvalidSnapshot)
      else
        Checked(Taken(s, x))
  }

  /** The snapshot with this fill taken in. */
  function Taken(s: ProtectionSnapshot, x: Fill): ProtectionSnapshot
    requires s.entryQuantity > 0.0
  {
    var openQuantity := s.openQuantity - x.quantity;
    var stopFilled := if IsStop(s, x) then s.stopFilled + x.quantity else s.stopFilled;
    var closed := openQuantity == 0.0;
    s.(state := if closed then CancelPending else ExitPartiallyFilled,
       openQuantity := openQuantity,
       tpFilled := if IsStop(s, x) then s.tpFilled else s.tpFilled + x.quantity,
       stopFilled := stopFilled,
       exitNotional := s.exitNotional + Notional(x),
       exitFees := s.exitFees + x.fee,
       debt := if IsStop(s, x) then s.debt + StopDebt(s, x) else s.debt,
       pending := if !closed then NothingPending
                  else PendingClose(if stopFilled > 0.0 then ClosedStop else ClosedTp),
       version := s.version + 1)
  }

  function ConfirmExitReconciliation(s: ProtectionSnapshot): Outcome<ProtectionSnapshot> {
    if s.state != CancelPending || s.pending == NothingPending then Refused(InvalidSnapshot)
    else Checked(s.(state := Closed(s.pending.terminal), pending := NothingPending, version := s.version + 1))
  }

  // ----- one fill

  predicate Mine(s: ProtectionSnapshot, x: Fill) {
    && x.isEth && x.side == Buy && (IsStop(s, x) || IsTp(s, x))
    && var expected := if IsStop(s, x) then s.stopOrder else s.tpOrder;
       expected.Known? ==> x.orderId == expected.id
  }

  lemma StopDebtIsNotNegative(s: ProtectionSnapshot, x: Fill)
    requires s.entryQuantity > 0.0
    ensures StopDebt(s, x) >= 0.0 && StopDebt(s, x) >= -Contribution(s, x)
    ensures Contribution(s, x) <= 0.0 ==> StopDebt(s, x) == -Contribution(s, x)
  {
    assert Times(x.price - s.average, x.quantity) == -Times(s.average - x.price, x.quantity);
  }

  /** The reducer accepts exactly the fills of its own exits that fit the open
      quantity and do not take back more in fees than was paid so far. */
  lemma ExitAcceptsExactly(s: ProtectionSnapshot, x: Fill)
    requires s.Valid()
    ensures Mine(s, x) <==>
              && x.isEth && x.side == Buy && (x.link == s.stopLink || s.tpLink == LinkTo(x.link))
              && (x.link == s.stopLink && s.stopOrder.Known? ==> x.orderId == s.stopOrder.id)
              && (x.link != s.stopLink && s.tpOrder.Known? ==> x.orderId == s.tpOrder.id)
    ensures ApplyExitExecution(s, x).Ok? <==> Mine(s, x) && x.quantity <= s.openQuantity && s.exitFees + x.fee >= 0.0
    ensures ApplyExitExecution(s, x).Ok? ==> ApplyExitExecution(s, x).value.Valid()
  {
    NotionalIsPositive(x);
    StopDebtIsNotNegative(s, x);
  }

  /** A fill of the stop, known by the stop's link, owes what it lost on the entry
      price, its share of the entry fees, and its own fee; a fill of the take-profit owes
      nothing. Everything else counts for both; a position that is closed ends as
      stopped as soon as any of it was stopped. */
  lemma ExitFillIsExact(s: ProtectionSnapshot, x: Fill)
    requires ApplyExitExecution(s, x).Ok?
    ensures x.isEth && x.side == Buy && x.quantity <= s.openQuantity && s.entryQuantity > 0.0
    ensures var r := ApplyExitExecution(s, x).value;
            && FillCounts(s, x, r)
            && (x.link == s.stopLink ==> StopCounts(s, x, r))
            && (x.link != s.stopLink ==> s.tpLink == LinkTo(x.link) && TpCounts(s, x, r))
            && (r.openQuantity > 0.0 ==> r.state == ExitPartiallyFilled && r.pending == NothingPending)
            && (r.openQuantity == 0.0 ==>
                  && r.state == CancelPending
                  && r.pending == PendingClose(if r.stopFilled > 0.0 then ClosedStop else ClosedTp))
  {}

  /** What any exit fill moves. */
  predicate FillCounts(s: ProtectionSnapshot, x: Fill, r: ProtectionSnapshot) {
    && r.openQuantity == s.openQuantity - x.quantity && r.exitNotional == s.exitNotional + Times(x.price, x.quantity)
    && r.exitFees == s.exitFees + x.fee && r.version == s.version + 1
    && r.entryQuantity == s.entryQuantity && r.average == s.average && r.entryFees == s.entryFees
    && r.stopLink == s.stopLink && r.stopOrder == s.stopOrder && r.tpLink == s.tpLink && r.tpOrder == s.tpOrder
  }

  predicate StopCounts(s: ProtectionSnapshot, x: Fill, r: ProtectionSnapshot)
    requires s.entryQuantity > 0.0
  {
    var loss := Times(x.price - s.average, x.quantity) + Times(s.entryFees, x.quantity) / s.entryQuantity + x.fee;
    && (s.stopOrder.Known? ==> x.orderId == s.stopOrder.id)
    && r.stopFilled == s.stopFilled + x.quantity && r.tpFilled == s.tpFilled
    && r.debt == s.debt + if loss > 0.0 then loss else 0.0
  }

  predicate TpCounts(s: ProtectionSnapshot, x: Fill, r: ProtectionSnapshot) {
    && (s.tpOrder.Known? ==> x.orderId == s.tpOrder.id)
    && r.tpFilled == s.tpFilled + x.quantity && r.stopFilled == s.stopFilled && r.debt == s.debt
  }

  // ----- many fills

  function StopQuantity(s: ProtectionSnapshot): Fill -> real {
    (x: Fill) => if x.link == s.stopLink then x.quantity else 0.0
  }

  function TpQuantity(s: ProtectionSnapshot): Fill -> real {
    (x: Fill) => if x.link == s.stopLink then 0.0 else x.quantity
  }

  function DebtPart(s: ProtectionSnapshot): Fill -> real
    requires s.entryQuantity > 0.0
  {
    (x: Fill) => if s.entryQuantity > 0.0 && x.link == s.stopLink then StopDebt(s, x) else 0.0
  }

  function Gain(s: ProtectionSnapshot): Fill -> real {
    (x: Fill) => if s.entryQuantity > 0.0 then Contribution(s, x) else 0.0
  }

  function Absorbed(s: ProtectionSnapshot, xs: seq<Fill>): ProtectionSnapshot
    requires s.entryQuantity > 0.0
  {
    if |xs| == 0 then s
    else
      var openQuantity := s.openQuantity - Sum(Quantity, xs);
      var stopFilled := s.stopFilled + Sum(StopQuantity(s), xs);
      s.(state := if openQuantity == 0.0 then CancelPending else ExitPartiallyFilled,
         openQuantity := openQuantity,
         tpFilled := s.tpFilled + Sum(TpQuantity(s), xs),
         stopFilled := stopFilled,
         exitNotional := s.exitNotional + Sum(Notional, xs),
         exitFees := s.exitFees + Sum(Fee, xs),
         debt := s.debt + Sum(DebtPart(s), xs),
         pending := if openQuantity != 0.0 then NothingPending
                    else PendingClose(if stopFilled > 0.0 then ClosedStop else ClosedTp),
         version := s.version + |xs|)
  }

  function Rebate(x: Fill): real {
    if x.fee < 0.0 then x.fee else 0.0
  }

  /** Fills of these exits that fit the open quantity, with rebates that the fees
      already paid cover; without negative fees there is nothing to cover. */
  ghost predicate Fits(s: ProtectionSnapshot, xs: seq<Fill>) {
    && s.Valid() && (forall x | x in xs :: Mine(s, x))
    && Sum(Quantity, xs) <= s.openQuantity && s.exitFees + Sum(Rebate, xs) >= 0.0
  }

  lemma {:induction false} ExitSums(s: ProtectionSnapshot, xs: seq<Fill>)
    requires s.entryQuantity > 0.0
    ensures Sum(Quantity, xs) == Sum(StopQuantity(s), xs) + Sum(TpQuantity(s), xs)
    ensures Sum(StopQuantity(s), xs) >= 0.0 && Sum(TpQuantity(s), xs) >= 0.0
    ensures Sum(Fee, xs) >= Sum(Rebate, xs) && Sum(DebtPart(s), xs) >= 0.0
    ensures |xs| > 0 ==> Sum(Quantity, xs) > 0.0 && Sum(Notional, xs) > 0.0
  {
    FilledSums(xs);
    SumSplits(Quantity, StopQuantity(s), TpQuantity(s), xs);
    SumNonnegative(StopQuantity(s), xs);
    SumNonnegative(TpQuantity(s), xs);
    SumMonotone(Rebate, Fee, xs);
    forall x | x in xs ensures DebtPart(s)(x) >= 0.0 { StopDebtIsNotNegative(s, x); }
    SumNonnegative(DebtPart(s), xs);
  }

  lemma AbsorbedIsValid(s: ProtectionSnapshot, xs: seq<Fill>)
    requires Fits(s, xs)
    ensures Absorbed(s, xs).Valid()
  {
    ExitSums(s, xs);
  }

  lemma FitsShrinks(s: ProtectionSnapshot, xs: seq<Fill>, x: Fill)
    requires Fits(s, xs + [x])
    ensures Fits(s, xs) && Mine(s, x) && x.quantity <= s.openQuantity - Sum(Quantity, xs)
    ensures s.exitFees + Sum(Fee, xs) + x.fee >= 0.0
  {
    assert x in xs + [x];
    forall y | y in xs ensures Mine(s, y) { assert y in xs + [x]; }
    SumAppend(Quantity, xs, x);
    SumAppend(Rebate, xs, x);
    ExitSums(s, xs);
  }

  lemma SumsGrow(s: ProtectionSnapshot, xs: seq<Fill>, x: Fill)
    requires s.entryQuantity > 0.0
    ensures Sum(Quantity, xs + [x]) == Sum(Quantity, xs) + x.quantity
    ensures Sum(StopQuantity(s), xs + [x]) == Sum(StopQuantity(s), xs) + (if IsStop(s, x) then x.quantity else 0.0)
    ensures Sum(TpQuantity(s), xs + [x]) == Sum(TpQuantity(s), xs) + (if IsStop(s, x) then 0.0 else x.quantity)
    ensures Sum(Notional, xs + [x]) == Sum(Notional, xs) + Notional(x)
    ensures Sum(Fee, xs + [x]) == Sum(Fee, xs) + x.fee
    ensures Sum(DebtPart(s), xs + [x]) == Sum(DebtPart(s), xs) + (if IsStop(s, x) then StopDebt(s, x) else 0.0)
  {
    SumAppend(Quantity, xs, x);
    SumAppend(StopQuantity(s), xs, x);
    SumAppend(TpQuantity(s), xs, x);
    SumAppend(Notional, xs, x);
    SumAppend(Fee, xs, x);
    SumAppend(DebtPart(s), xs, x);
  }

  /** What a fill does depends on the entry and the exit orders only, which no fill changes. */
  lemma SameExits(s: ProtectionSnapshot, xs: seq<Fill>, x: Fill)
    requires s.entryQuantity > 0.0
    ensures var r := Absorbed(s, xs);
            && r.entryQuantity == s.entryQuantity && (Mine(r, x) <==> Mine(s, x)) && (IsStop(r, x) <==> IsStop(s, x))
            && StopDebt(r, x) == StopDebt(s, x)
  {}

  lemma AbsorbsOne(s: ProtectionSnapshot, xs: seq<Fill>, x: Fill)
    requires Fits(s, xs + [x])
    ensures Fits(s, xs)
    ensures ApplyExitExecution(Absorbed(s, xs), x) == Ok(Absorbed(s, xs + [x]))
  {
    FitsShrinks(s, xs, x);
    SameExits(s, xs, x);
    AbsorbsTaken(s, xs, x);
    AbsorbedIsValid(s, xs);
    AbsorbedIsValid(s, xs + [x]);
  }

  lemma AbsorbsTaken(s: ProtectionSnapshot, xs: seq<Fill>, x: Fill)
    requires s.entryQuantity > 0.0
    ensures Taken(Absorbed(s, xs), x) == Absorbed(s, xs + [x])
  {
    SumsGrow(s, xs, x);
    SameExits(s, xs, x);
  }

  function Deliveries(s: ProtectionSnapshot, seen: set<nat>, xs: seq<Fill>): Store<ProtectionSnapshot> {
    DeliverAll(ApplyExitExecution, Store(seen, s), xs)
  }

  /** All fills that fit are absorbed: none is refused or counted twice. */
  lemma ExitAbsorbsAll(s: ProtectionSnapshot, seen: set<nat>, xs: seq<Fill>)
    requires Consistent(xs) && Fits(s, News(seen, xs))
    ensures Deliveries(s, seen, xs) == Store(seen + IdsOf(News(seen, xs)), Absorbed(s, News(seen, xs)))
    ensures Deliveries(s, seen, xs).snapshot.Valid()
  {
    var absorbed := (ys: seq<Fill>) => if s.entryQuantity > 0.0 then Absorbed(s, ys) else s;
    var good := (ys: seq<Fill>) => Fits(s, ys);
    forall ys: seq<Fill>, y: Fill | good(ys + [y])
      ensures good(ys) && ApplyExitExecution(absorbed(ys), y) == Ok(absorbed(ys + [y]))
    {
      AbsorbsOne(s, ys, y);
    }
    DeliveredIsAbsorbed(ApplyExitExecution, absorbed, good, seen, xs);
    AbsorbedIsValid(s, News(seen, xs));
  }

  lemma SameFillsAbsorbAlike(s: ProtectionSnapshot, xs: seq<Fill>, ys: seq<Fill>)
    requires Distinct(xs) && Distinct(ys) && (forall x :: x in xs <==> x in ys) && Fits(s, xs)
    ensures Fits(s, ys) && Absorbed(s, xs) == Absorbed(s, ys) && IdsOf(xs) == IdsOf(ys)
  {
    SameFillsSameSums(Quantity, xs, ys);
    SameFillsSameSums(StopQuantity(s), xs, ys);
    SameFillsSameSums(TpQuantity(s), xs, ys);
    SameFillsSameSums(Notional, xs, ys);
    SameFillsSameSums(Fee, xs, ys);
    SameFillsSameSums(Rebate, xs, ys);
    SameFillsSameSums(DebtPart(s), xs, ys);
    IdsOfSameFills(xs, ys);
  }

  /** Confluence: two deliveries of the same exit fills, in any order and with
      any repetitions, end in the same store: same quantities, notional, fees,
      debt and terminal state. */
  lemma ExitConfluence(s: ProtectionSnapshot, seen: set<nat>, xs: seq<Fill>, ys: seq<Fill>)
    requires Consistent(xs) && (forall x :: x in xs <==> x in ys) && Fits(s, News(seen, xs))
    ensures Deliveries(s, seen, xs) == Deliveries(s, seen, ys)
  {
    NewsAreTheUnseen(seen, xs);
    NewsAreTheUnseen(seen, ys);
    SameFillsAbsorbAlike(s, News(seen, xs), News(seen, ys));
    ExitAbsorbsAll(s, seen, xs);
    ExitAbsorbsAll(s, seen, ys);
  }

  // ----- P&L and debt

  lemma TimesLess(average: real, x: Fill)
    ensures Times(average - x.price, x.quantity) == Times(average, x.quantity) - Notional(x)
  {}

  lemma ShareAdds(fees: real, a: real, b: real, whole: real)
    requires whole > 0.0
    ensures Share(fees, a + b, whole) == Share(fees, a, whole) + Share(fees, b, whole)
  {
    TimesAdds(fees, a, b);
  }

  lemma {:induction false} GainsAdd(s: ProtectionSnapshot, xs: seq<Fill>)
    requires s.entryQuantity > 0.0
    ensures Sum(Gain(s), xs)
            == Times(s.average, Sum(Quantity, xs)) - Sum(Notional, xs)
               - Share(s.entryFees, Sum(Quantity, xs), s.entryQuantity) - Sum(Fee, xs)
  {
    if |xs| > 0 {
      var last := |xs| - 1;
      var x, before := xs[last], Sum(Quantity, xs[..last]);
      GainsAdd(s, xs[..last]);
      ShareAdds(s.entryFees, before, x.quantity, s.entryQuantity);
      TimesAdds(s.average, before, x.quantity);
      TimesLess(s.average, x);
    }
  }

  /** Realized P&L moves by exactly the contributions of the fills that were new. */
  lemma PnlIsSumOfContributions(s: ProtectionSnapshot, seen: set<nat>, xs: seq<Fill>)
    requires Consistent(xs) && Fits(s, News(seen, xs))
    ensures Deliveries(s, seen, xs).snapshot.Valid()
    ensures RealizedPnl(Deliveries(s, seen, xs).snapshot) == RealizedPnl(s) + Sum(Gain(s), News(seen, xs))
  {
    ExitAbsorbsAll(s, seen, xs);
    AbsorbedPnl(s, News(seen, xs));
  }

  lemma AbsorbedPnl(s: ProtectionSnapshot, xs: seq<Fill>)
    requires Fits(s, xs)
    ensures Absorbed(s, xs).entryQuantity > 0.0
    ensures RealizedPnl(Absorbed(s, xs)) == RealizedPnl(s) + Sum(Gain(s), xs)
  {
    ExitSums(s, xs);
    GainsAdd(s, xs);
    PnlAfter(s, Absorbed(s, xs), Sum(Quantity, xs), Sum(Notional, xs), Sum(Fee, xs));
  }

  lemma PnlAfter(s: ProtectionSnapshot, r: ProtectionSnapshot, quantity: real, notional: real, fee: real)
    requires s.entryQuantity > 0.0 && r.entryQuantity == s.entryQuantity
    requires r.average == s.average && r.entryFees == s.entryFees
    requires r.ClosedQuantity() == s.ClosedQuantity() + quantity
    requires r.exitNotional == s.exitNotional + notional && r.exitFees == s.exitFees + fee
    ensures RealizedPnl(r) == RealizedPnl(s) + Times(s.average, quantity) - notional
            - Share(s.entryFees, quantity, s.entryQuantity) - fee
  {
    ShareAdds(s.entryFees, s.ClosedQuantity(), quantity, s.entryQuantity);
    TimesAdds(s.average, s.ClosedQuantity(), quantity);
  }

  /** A position closed by stops alone owes at least its realized loss, and
      exactly that loss when no stop fill made money. */
  lemma StopOnlyCloseOwesItsLoss(s: ProtectionSnapshot, seen: set<nat>, xs: seq<Fill>)
    requires Consistent(xs) && Fits(s, News(seen, xs)) && (forall x | x in xs :: IsStop(s, x))
    requires s.ClosedQuantity() == 0.0 && s.exitFees == 0.0 && s.debt == 0.0
    ensures var r := Deliveries(s, seen, xs).snapshot;
            && r.Valid() && r.debt >= -RealizedPnl(r)
            && ((forall x | x in xs :: Contribution(s, x) <= 0.0) ==> r.debt == -RealizedPnl(r))
  {
    var news := News(seen, xs);
    PnlIsSumOfContributions(s, seen, xs);
    ExitAbsorbsAll(s, seen, xs);
    NewsAreTheUnseen(seen, xs);
    NothingRealized(s);
    forall x | x in news
      ensures DebtPart(s)(x) >= Loss(s)(x) && (Contribution(s, x) <= 0.0 ==> DebtPart(s)(x) == Loss(s)(x))
    {
      StopDebtIsNotNegative(s, x);
    }
    LossesAreNegatedGains(s, news);
    SumMonotone(Loss(s), DebtPart(s), news);
    if forall x | x in xs :: Contribution(s, x) <= 0.0 {
      SumMonotone(DebtPart(s), Loss(s), news);
    }
  }

  function Loss(s: ProtectionSnapshot): Fill -> real {
    (x: Fill) => -Gain(s)(x)
  }

  lemma NothingRealized(s: ProtectionSnapshot)
    requires s.Valid() && s.ClosedQuantity() == 0.0 && s.exitFees == 0.0
    ensures RealizedPnl(s) == 0.0
  {
    assert Times(s.average, 0.0) == 0.0 && Times(s.entryFees, 0.0) == 0.0;
  }

  lemma {:induction false} LossesAreNegatedGains(s: ProtectionSnapshot, xs: seq<Fill>)
    ensures Sum(Loss(s), xs) == -Sum(Gain(s), xs)
  {
    if |xs| > 0 { LossesAreNegatedGains(s, xs[..|xs| - 1]); }
  }

  /** Once everything is closed, reconciliation ends in the state the fills
      decided: stopped as soon as any stop filled, taken profit otherwise. */
  lemma FullCloseIsConfirmed(s: ProtectionSnapshot, seen: set<nat>, xs: seq<Fill>)
    requires Consistent(xs) && Fits(s, News(seen, xs)) && |News(seen, xs)| > 0
    requires Sum(Quantity, News(seen, xs)) == s.openQuantity
    ensures var r := Deliveries(s, seen, xs).snapshot;
            && r.openQuantity == 0.0 && ConfirmExitReconciliation(r).Ok?
            && ConfirmExitReconciliation(r).value.state == Closed(if r.stopFilled > 0.0 then ClosedStop else ClosedTp)
  {
    ExitAbsorbsAll(s, seen, xs);
  }
}
