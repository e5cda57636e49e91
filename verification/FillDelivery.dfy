/** Fills as the exchange reports them, and a store that takes each of them in
    once: what is known of an execution ID decides whether a fill is new. */
module FillDelivery {
  import opened Sums
  import opened InstrumentRules

  type OrderId = nat
  type LinkId = nat

  datatype FillRecord = Fill(id: nat, orderId: OrderId, link: LinkId, isEth: bool, side: Side, price: real,
                             quantity: real, fee: real)

  type Fill = f: FillRecord | f.price > 0.0 && f.quantity > 0.0
    witness FillRecord.Fill(0, 0, 0, true, Sell, 1.0, 1.0, 0.0)

  datatype Refusal =
    | WrongLink | WrongInstrument | WrongOrder | TooMuch | InvalidSnapshot

  datatype Outcome<S> = Ok(value: S) | Refused(why: Refusal)

  type Reducer<!S> = (S, Fill) -> Outcome<S>

  /** The seen execution IDs and the snapshot. */
  datatype Store<S> = Store(seen: set<nat>, snapshot: S)

  /** A known fill changes nothing, a refused one is not recorded. */
  function Deliver<S>(reduce: Reducer<S>, store: Store<S>, x: Fill): Store<S> {
    if x.id in store.seen then store
    else
      match reduce(store.snapshot, x)
      case Ok(next) => Store(store.seen + {x.id}, next)
      case Refused(_) => store
  }

  function DeliverAll<S>(reduce: Reducer<S>, store: Store<S>, xs: seq<Fill>): Store<S> {
    if |xs| == 0 then store
    else Deliver(reduce, DeliverAll(reduce, store, xs[..|xs| - 1]), xs[|xs| - 1])
  }

  function IdsOf(xs: seq<Fill>): set<nat> {
    set i | 0 <= i < |xs| :: xs[i].id
  }

  /** The fills that are new when they arrive, in order of arrival. */
  function News(seen: set<nat>, xs: seq<Fill>): seq<Fill> {
    if |xs| == 0 then []
    else
      var before := News(seen, xs[..|xs| - 1]);
      var x := xs[|xs| - 1];
      if x.id in seen + IdsOf(before) then before else before + [x]
  }

  /** One ID, one fill. */
  ghost predicate Consistent(xs: seq<Fill>) {
    forall x, y | x in xs && y in xs && x.id == y.id :: x == y
  }

  ghost predicate Distinct(xs: seq<Fill>) {
    forall i, j | 0 <= i < j < |xs| :: xs[i] != xs[j]
  }

  /** The news are exactly the unseen fills, each once. */
  lemma {:induction false} NewsAreTheUnseen(seen: set<nat>, xs: seq<Fill>)
    requires Consistent(xs)
    ensures forall x :: x in News(seen, xs) <==> x in xs && x.id !in seen
    ensures Distinct(News(seen, xs))
  {
    if |xs| > 0 {
      var last := |xs| - 1;
      var before, x := News(seen, xs[..last]), xs[last];
      assert xs == xs[..last] + [x];
      NewsAreTheUnseen(seen, xs[..last]);
      if x.id in IdsOf(before) {
        var i :| 0 <= i < |before| && before[i].id == x.id;
        assert before[i] in before && before[i] in xs && x in xs;
        assert before[i] == x;
      }
    }
  }

  function Without(xs: seq<Fill>, i: nat): seq<Fill>
    requires i < |xs|
  {
    xs[..i] + xs[i + 1..]
  }

  lemma {:induction false} SumWithout(weight: Fill -> real, xs: seq<Fill>, i: nat)
    requires i < |xs|
    ensures Sum(weight, xs) == Sum(weight, Without(xs, i)) + weight(xs[i])
  {
    var last := |xs| - 1;
    if i == last {
      assert Without(xs, i) == xs[..last];
    } else {
      SumWithout(weight, xs[..last], i);
      assert Without(xs, i) == Without(xs[..last], i) + [xs[last]];
      SumAppend(weight, Without(xs[..last], i), xs[last]);
    }
  }

  lemma HeadIsIn(xs: seq<Fill>)
    ensures |xs| > 0 ==> xs[0] in xs
  {}

  /** Two lists of the same different fills have the same sums and lengths. */
  lemma {:induction false} SameFillsSameSums(weight: Fill -> real, xs: seq<Fill>, ys: seq<Fill>)
    requires Distinct(xs) && Distinct(ys) && forall x :: x in xs <==> x in ys
    ensures Sum(weight, xs) == Sum(weight, ys) && |xs| == |ys|
    decreases |xs|
  {
    if |xs| == 0 {
      HeadIsIn(ys);
    } else {
      var last := |xs| - 1;
      var x := xs[last];
      assert x in xs;
      var i :| 0 <= i < |ys| && ys[i] == x;
      var rest := Without(ys, i);
      WithoutLacks(ys, i);
      assert xs == xs[..last] + [x];
      forall y ensures y in xs[..last] <==> y in rest {
        assert y in xs[..last] <==> y in xs && y != x;
      }
      SameFillsSameSums(weight, xs[..last], rest);
      SumWithout(weight, ys, i);
    }
  }

  lemma WithoutLacks(ys: seq<Fill>, i: nat)
    requires i < |ys| && Distinct(ys)
    ensures Distinct(Without(ys, i)) && forall y :: y in Without(ys, i) <==> y in ys && y != ys[i]
  {
    var rest := Without(ys, i);
    forall y | y in ys && y != ys[i] ensures y in rest {
      var k :| 0 <= k < |ys| && ys[k] == y;
      assert if k < i then rest[k] == y else rest[k - 1] == y;
    }
    forall y | y in rest ensures y in ys && y != ys[i] {
      var k :| 0 <= k < |rest| && rest[k] == y;
      assert y == if k < i then ys[k] else ys[k + 1];
    }
    forall j, k | 0 <= j < k < |rest| ensures rest[j] != rest[k] {
      assert rest[j] == (if j < i then ys[j] else ys[j + 1]) && rest[k] == if k < i then ys[k] else ys[k + 1];
    }
  }

  /** `absorbed` is the snapshot after any list of fills `good` allows, one fill at a time. */
  ghost predicate Absorbs<S>(reduce: Reducer<S>, absorbed: seq<Fill> -> S, good: seq<Fill> -> bool) {
    forall xs: seq<Fill>, x: Fill | good(xs + [x]) :: good(xs) && reduce(absorbed(xs), x) == Ok(absorbed(xs + [x]))
  }

  /** Delivering any list whose news are good leaves exactly the absorbed news. */
  lemma {:induction false} DeliveredIsAbsorbed<S>(reduce: Reducer<S>, absorbed: seq<Fill> -> S, good: seq<Fill> -> bool,
                                                 seen: set<nat>, xs: seq<Fill>)
    requires Absorbs(reduce, absorbed, good) && good(News(seen, xs))
    ensures DeliverAll(reduce, Store(seen, absorbed([])), xs)
            == Store(seen + IdsOf(News(seen, xs)), absorbed(News(seen, xs)))
  {
    if |xs| > 0 {
      var last := |xs| - 1;
      var before, x := News(seen, xs[..last]), xs[last];
      if x.id in seen + IdsOf(before) {
        DeliveredIsAbsorbed(reduce, absorbed, good, seen, xs[..last]);
      } else {
        assert good(before);
        DeliveredIsAbsorbed(reduce, absorbed, good, seen, xs[..last]);
        assert IdsOf(before + [x]) == IdsOf(before) + {x.id} by {
          assert (before + [x])[|before|] == x;
          assert forall i | 0 <= i < |before| :: (before + [x])[i] == before[i];
        }
      }
    }
  }

  function Quantity(x: Fill): real {
    x.quantity
  }

  function Notional(x: Fill): real {
    x.price * x.quantity
  }

  function Fee(x: Fill): real {
    x.fee
  }

  lemma IdsOfSameFills(xs: seq<Fill>, ys: seq<Fill>)
    requires forall x :: x in xs <==> x in ys
    ensures IdsOf(xs) == IdsOf(ys)
  {
    forall id | id in IdsOf(xs) ensures id in IdsOf(ys) {
      var i :| 0 <= i < |xs| && xs[i].id == id;
      assert xs[i] in ys;
    }
    forall id | id in IdsOf(ys) ensures id in IdsOf(xs) {
      var i :| 0 <= i < |ys| && ys[i].id == id;
      assert ys[i] in xs;
    }
  }

  // ----- fills that are not taken in

  /** Fill k is new and accepted when its turn comes. */
  predicate AcceptedAt<S>(reduce: Reducer<S>, store: Store<S>, xs: seq<Fill>, k: nat) {
    && k < |xs|
    && var before := DeliverAll(reduce, store, xs[..k]);
       xs[k].id !in before.seen && reduce(before.snapshot, xs[k]).Ok?
  }

  /** A fill that is known or refused might as well not have come: it leaves no trace, so
      a refused one can be delivered again. */
  lemma {:induction false} OthersLeaveNoTrace<S>(reduce: Reducer<S>, store: Store<S>, xs: seq<Fill>, k: nat)
    requires k < |xs| && !AcceptedAt(reduce, store, xs, k)
    ensures DeliverAll(reduce, store, Without(xs, k)) == DeliverAll(reduce, store, xs)
  {
    var last := |xs| - 1;
    if k == last {
      assert Without(xs, k) == xs[..last];
    } else {
      assert xs[..last][..k] == xs[..k];
      OthersLeaveNoTrace(reduce, store, xs[..last], k);
      assert Without(xs, k) == Without(xs[..last], k) + [xs[last]];
      assert (Without(xs[..last], k) + [xs[last]])[..last - 1] == Without(xs[..last], k);
    }
  }

  /** The store has seen exactly what it knew before and the fills it accepted. */
  lemma {:induction false} SeenAreTheAccepted<S>(reduce: Reducer<S>, store: Store<S>, xs: seq<Fill>, id: nat)
    ensures id in DeliverAll(reduce, store, xs).seen
            <==> id in store.seen || exists k | 0 <= k < |xs| :: xs[k].id == id && AcceptedAt(reduce, store, xs, k)
  {
    if |xs| > 0 {
      var last := |xs| - 1;
      SeenAreTheAccepted(reduce, store, xs[..last], id);
      forall k: nat | k < last
        ensures AcceptedAt(reduce, store, xs[..last], k) <==> AcceptedAt(reduce, store, xs, k)
      {
        assert xs[..last][..k] == xs[..k];
      }
      if k :| 0 <= k < last && xs[..last][k].id == id && AcceptedAt(reduce, store, xs[..last], k) {
        assert xs[k].id == id && AcceptedAt(reduce, store, xs, k);
      }
    }
  }
}
