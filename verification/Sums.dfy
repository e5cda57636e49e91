/** Sums of a real or integer weight over a sequence, and how one update, one
    append or one pointwise relation moves them. */
module Sums {

  function Sum<T>(weight: T -> real, items: seq<T>): real {
    if |items| == 0 then 0.0
    else Sum(weight, items[..|items| - 1]) + weight(items[|items| - 1])
  }

  function Count<T>(weight: T -> int, items: seq<T>): int {
    if |items| == 0 then 0
    else Count(weight, items[..|items| - 1]) + weight(items[|items| - 1])
  }

  lemma {:induction false} SumUpdate<T>(weight: T -> real, items: seq<T>, i: nat, x: T)
    requires i < |items|
    ensures Sum(weight, items[i := x]) == Sum(weight, items) - weight(items[i]) + weight(x)
  {
    var last := |items| - 1;
    if i == last {
      assert items[i := x][..last] == items[..last];
    } else {
      assert items[i := x][..last] == items[..last][i := x];
      SumUpdate(weight, items[..last], i, x);
    }
  }

  lemma {:induction false} CountUpdate<T>(weight: T -> int, items: seq<T>, i: nat, x: T)
    requires i < |items|
    ensures Count(weight, items[i := x]) == Count(weight, items) - weight(items[i]) + weight(x)
  {
    var last := |items| - 1;
    if i == last {
      assert items[i := x][..last] == items[..last];
    } else {
      assert items[i := x][..last] == items[..last][i := x];
      CountUpdate(weight, items[..last], i, x);
    }
  }

  /** Items of the same weight have the same sum. */
  lemma {:induction false} SumAlike<T>(weight: T -> real, a: seq<T>, b: seq<T>)
    requires |a| == |b| && forall i | 0 <= i < |a| :: weight(a[i]) == weight(b[i])
    ensures Sum(weight, a) == Sum(weight, b)
  {
    if |a| > 0 { SumAlike(weight, a[..|a| - 1], b[..|b| - 1]); }
  }

  lemma SumAppend<T>(weight: T -> real, items: seq<T>, x: T)
    ensures Sum(weight, items + [x]) == Sum(weight, items) + weight(x)
  {
    assert (items + [x])[..|items|] == items;
  }

  /** A weight that is the sum of two others sums to the sum of the two sums. */
  lemma {:induction false} SumSplits<T>(whole: T -> real, left: T -> real, right: T -> real, items: seq<T>)
    requires forall x <- items :: whole(x) == left(x) + right(x)
    ensures Sum(whole, items) == Sum(left, items) + Sum(right, items)
  {
    if |items| > 0 {
      var last := |items| - 1;
      forall x | x in items[..last] ensures x in items {}
      SumSplits(whole, left, right, items[..last]);
      assert items[last] in items;
    }
  }

  lemma {:induction false} SumMonotone<T>(low: T -> real, high: T -> real, items: seq<T>)
    requires forall x <- items :: low(x) <= high(x)
    ensures Sum(low, items) <= Sum(high, items)
  {
    if |items| > 0 {
      var last := |items| - 1;
      forall x | x in items[..last] ensures x in items {}
      SumMonotone(low, high, items[..last]);
      assert items[last] in items;
    }
  }

  lemma {:induction false} SumNonnegative<T>(weight: T -> real, items: seq<T>)
    requires forall x <- items :: weight(x) >= 0.0
    ensures Sum(weight, items) >= 0.0
  {
    if |items| > 0 {
      var last := |items| - 1;
      forall x | x in items[..last] ensures x in items {}
      SumNonnegative(weight, items[..last]);
      assert items[last] in items;
    }
  }

  /** In a sum of non-negative weights each single weight is at most the sum. */
  lemma {:induction false} SumBoundsEach<T>(weight: T -> real, items: seq<T>, i: nat)
    requires i < |items|
    requires forall x <- items :: weight(x) >= 0.0
    ensures weight(items[i]) <= Sum(weight, items)
  {
    var last := |items| - 1;
    forall x | x in items[..last] ensures x in items {}
    assert items[last] in items;
    SumNonnegative(weight, items[..last]);
    if i < last {
      SumBoundsEach(weight, items[..last], i);
      assert items[..last][i] == items[i];
    }
  }

  /** Non-negative weights add up to zero exactly when all of them are zero. */
  lemma SumIsZeroIff<T>(weight: T -> real, items: seq<T>)
    requires forall x <- items :: weight(x) >= 0.0
    ensures Sum(weight, items) == 0.0 <==> forall i | 0 <= i < |items| :: weight(items[i]) == 0.0
  {
    if forall i | 0 <= i < |items| :: weight(items[i]) == 0.0 {
      SumZero(weight, items);
    } else {
      var i :| 0 <= i < |items| && weight(items[i]) != 0.0;
      assert items[i] in items;
      SumBoundsEach(weight, items, i);
    }
  }

  lemma {:induction false} SumZero<T>(weight: T -> real, items: seq<T>)
    requires forall x <- items :: weight(x) == 0.0
    ensures Sum(weight, items) == 0.0
  {
    if |items| > 0 {
      var last := |items| - 1;
      forall x | x in items[..last] ensures x in items {}
      SumZero(weight, items[..last]);
      assert items[last] in items;
    }
  }

  lemma OneMoreTime(k: int, n: int)
    ensures k * n + k == k * (n + 1)
  {}

  lemma {:induction false} CountBounds<T>(weight: T -> int, items: seq<T>, low: int, high: int)
    requires forall x <- items :: low <= weight(x) <= high
    ensures low * |items| <= Count(weight, items) <= high * |items|
  {
    if |items| > 0 {
      var last := |items| - 1;
      forall x | x in items[..last] ensures x in items {}
      CountBounds(weight, items[..last], low, high);
      assert items[last] in items;
      OneMoreTime(low, last);
      OneMoreTime(high, last);
    }
  }
}
