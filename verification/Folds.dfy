/** Feeding a sequence of inputs, numbered from some start, to a state machine:
    the end state, the outputs gathered on the way, and induction over both. */
module Folds {

  function Fold<S, X>(step: (S, X, int) -> S, s: S, inputs: seq<X>, from: int): S {
    if |inputs| == 0 then s
    else
      var last := |inputs| - 1;
      step(Fold(step, s, inputs[..last], from), inputs[last], from + last)
  }

  function Gather<S, X, Y>(step: (S, X, int) -> S, emit: (S, X, int) -> seq<Y>, s: S, inputs: seq<X>,
                           from: int): seq<Y> {
    if |inputs| == 0 then []
    else
      var last := |inputs| - 1;
      Gather(step, emit, s, inputs[..last], from) + emit(Fold(step, s, inputs[..last], from), inputs[last], from + last)
  }

  /** Feeding two sequences one after the other is feeding their concatenation. */
  lemma {:induction false} FoldConcat<S, X>(step: (S, X, int) -> S, s: S, a: seq<X>, b: seq<X>, from: int)
    ensures Fold(step, s, a + b, from) == Fold(step, Fold(step, s, a, from), b, from + |a|)
  {
    if |b| == 0 {
      assert a + b == a;
    } else {
      var last := |b| - 1;
      FoldConcat(step, s, a, b[..last], from);
      assert (a + b)[..|a + b| - 1] == a + b[..last];
    }
  }

  lemma {:induction false} GatherConcat<S, X, Y>(step: (S, X, int) -> S, emit: (S, X, int) -> seq<Y>, s: S, a: seq<X>,
                                                 b: seq<X>, from: int)
    ensures Gather(step, emit, s, a + b, from)
            == Gather(step, emit, s, a, from) + Gather(step, emit, Fold(step, s, a, from), b, from + |a|)
  {
    if |b| == 0 {
      assert a + b == a;
    } else {
      var last := |b| - 1;
      GatherConcat(step, emit, s, a, b[..last], from);
      FoldConcat(step, s, a, b[..last], from);
      assert (a + b)[..|a + b| - 1] == a + b[..last];
    }
  }

  /** What every step keeps, every run keeps. */
  lemma {:induction false} FoldKeeps<S(!new), X(!new)>(step: (S, X, int) -> S, s: S, inputs: seq<X>, from: int,
                                       kept: S -> bool)
    requires kept(s)
    requires forall r, x, n | kept(r) :: kept(step(r, x, n))
    ensures kept(Fold(step, s, inputs, from))
  {
    if |inputs| > 0 {
      FoldKeeps(step, s, inputs[..|inputs| - 1], from, kept);
    }
  }

  /** All outputs of a run are fine at its end if each step emits outputs that are
      fine after it and keeps the earlier ones fine. */
  lemma {:induction false} GatherKeeps<S(!new), X(!new), Y(!new)>(step: (S, X, int) -> S, emit: (S, X, int) -> seq<Y>,
                                                                  s: S, inputs: seq<X>, from: int,
                                                                  kept: S -> bool, fine: (S, Y) -> bool)
    requires kept(s)
    requires forall r, x, n | kept(r) :: kept(step(r, x, n))
    requires forall r, x, n, y | kept(r) && y in emit(r, x, n) :: fine(step(r, x, n), y)
    requires forall r, x, n, y | kept(r) && fine(r, y) :: fine(step(r, x, n), y)
    ensures forall y | y in Gather(step, emit, s, inputs, from) :: fine(Fold(step, s, inputs, from), y)
  {
    if |inputs| > 0 {
      var before := inputs[..|inputs| - 1];
      GatherKeeps(step, emit, s, before, from, kept, fine);
      FoldKeeps(step, s, before, from, kept);
    }
  }

  /** The same when the first step starts outside the kept states. */
  lemma GatherKeepsFromSecond<S(!new), X(!new), Y(!new)>(step: (S, X, int) -> S, emit: (S, X, int) -> seq<Y>,
                                                         s: S, inputs: seq<X>, from: int,
                                                         kept: S -> bool, fine: (S, Y) -> bool)
    requires |inputs| > 0 && kept(step(s, inputs[0], from))
    requires forall y | y in emit(s, inputs[0], from) :: fine(step(s, inputs[0], from), y)
    requires forall r, x, n | kept(r) :: kept(step(r, x, n))
    requires forall r, x, n, y | kept(r) && y in emit(r, x, n) :: fine(step(r, x, n), y)
    requires forall r, x, n, y | kept(r) && fine(r, y) :: fine(step(r, x, n), y)
    ensures kept(Fold(step, s, inputs, from))
    ensures forall y | y in Gather(step, emit, s, inputs, from) :: fine(Fold(step, s, inputs, from), y)
  {
    var head, tail := [inputs[0]], inputs[1..];
    var start := step(s, inputs[0], from);
    assert inputs == head + tail;
    assert Fold(step, s, head[..0], from) == s && Gather(step, emit, s, head[..0], from) == [];
    assert Fold(step, s, head, from) == start;
    FoldConcat(step, s, head, tail, from);
    GatherConcat(step, emit, s, head, tail, from);
    FoldKeeps(step, start, tail, from + 1, kept);
    GatherKeeps(step, emit, start, tail, from + 1, kept, fine);
    forall y | y in Gather(step, emit, s, head, from) ensures fine(Fold(step, start, tail, from + 1), y) {
      FoldKeeps(step, start, tail, from + 1, (r: S) => kept(r) && fine(r, y));
    }
  }

  /** What each single step emits is part of what the run gathers. */
  lemma {:induction false} GatherContains<S, X, Y>(step: (S, X, int) -> S, emit: (S, X, int) -> seq<Y>, s: S,
                                                   inputs: seq<X>, from: int, k: nat)
    requires k < |inputs|
    ensures forall y | y in emit(Fold(step, s, inputs[..k], from), inputs[k], from + k) ::
              y in Gather(step, emit, s, inputs, from)
  {
    var last := |inputs| - 1;
    if k < last {
      GatherContains(step, emit, s, inputs[..last], from, k);
      assert inputs[..last][..k] == inputs[..k];
    }
  }

  /** Everything gathered was emitted by some step. */
  lemma {:induction false} GatheredAt<S, X, Y>(step: (S, X, int) -> S, emit: (S, X, int) -> seq<Y>, s: S,
                                               inputs: seq<X>, from: int, y: Y)
    returns (k: nat)
    requires y in Gather(step, emit, s, inputs, from)
    ensures k < |inputs| && y in emit(Fold(step, s, inputs[..k], from), inputs[k], from + k)
  {
    var last := |inputs| - 1;
    if y in emit(Fold(step, s, inputs[..last], from), inputs[last], from + last) {
      k := last;
    } else {
      k := GatheredAt(step, emit, s, inputs[..last], from, y);
      assert inputs[..last][..k] == inputs[..k];
    }
  }
}
