/**
 Finding how much later one recording is than another
 (src/emulator/audio_analysis.c, lines 190-267), over real numbers.
 */
module LagSearch {
  import opened Basics

  function Abs(x: real): real {
    if x < 0.0 then -x else x
  }

  // ----- envelope() -----

  /** |x[first]| + ... + |x[end - 1]| */
  function AbsSum(x: seq<real>, first: nat, end: nat): real
    requires first <= end <= |x|
  {
    if first == end then 0.0 else AbsSum(x, first, end - 1) + Abs(x[end - 1])
  }

  lemma {:induction false} AbsSumDropsFirst(x: seq<real>, first: nat, end: nat)
    requires first < end <= |x|
    ensures AbsSum(x, first, end) == Abs(x[first]) + AbsSum(x, first + 1, end)
    decreases end
  {
    if first + 1 < end { AbsSumDropsFirst(x, first, end - 1); }
  }

  /** One new value in, the oldest out: the running sum is the sum of the window at every position. */
  method Envelope(x: seq<real>, w: nat) returns (e: seq<real>)
    ensures e == [] <==> |x| < w || w == 0
    ensures e != [] ==> |e| == |x| - w + 1 && forall i :: 0 <= i < |e| ==> e[i] == AbsSum(x, i, i + w) / w as real
  {
    e := [];
    if |x| < w || w == 0 {
      return;
    }
    var m := |x| - w + 1;
    var s := 0.0;
    for i := 0 to w
      invariant s == AbsSum(x, 0, i)
    {
      s := s + Abs(x[i]);
    }
    for i := 0 to m
      invariant |e| == i && forall j :: 0 <= j < i ==> e[j] == AbsSum(x, j, j + w) / w as real
      invariant i < m ==> s == AbsSum(x, i, i + w)
    {
      e := e + [s / w as real];
      if i + w < |x| {
        AbsSumDropsFirst(x, i, i + w + 1);
        s := s + (Abs(x[i + w]) - Abs(x[i]));
      }
    }
  }

  // ----- mean_sq() -----

  /** How many values are compared at a lag; 0 when the signals do not overlap there. */
  function Overlap(na: nat, nb: nat, lag: nat, window: nat): nat {
    if lag >= nb then 0
    else
      var n := Min(na, nb - lag);
      if window != 0 then Min(n, window) else n
  }

  function Product(x: real, y: real): (p: real)
    requires x > 0.0 && y > 0.0
    ensures p > 0.0
  {
    x * y
  }

  /** x * x; only of 0 is it 0. */
  function Square(x: real): (q: real)
    ensures x != 0.0 ==> q > 0.0
    ensures x == 0.0 ==> q == 0.0
  {
    if x == 0.0 then 0.0 else Product(Abs(x), Abs(x))
  }

  lemma SquareIsProduct(x: real)
    ensures Square(x) == x * x
  {
    assert (-x) * (-x) == x * x;
  }

  function SquareSum(a: seq<real>, b: seq<real>, lag: nat, n: nat): (s: real)
    requires n <= |a| && lag + n <= |b|
    ensures s >= 0.0
  {
    if n == 0 then 0.0 else SquareSum(a, b, lag, n - 1) + Square(a[n - 1] - b[n - 1 + lag])
  }

  /** The mean squared difference at a lag with overlap. */
  function MeanSquare(a: seq<real>, b: seq<real>, lag: nat, window: nat): (v: real)
    requires Overlap(|a|, |b|, lag, window) > 0
    ensures v >= 0.0
  {
    var n := Overlap(|a|, |b|, lag, window);
    SquareSum(a, b, lag, n) / n as real
  }

  method MeanSq(a: seq<real>, b: seq<real>, lag: nat, window: nat) returns (v: real, n: nat)
    ensures n == Overlap(|a|, |b|, lag, window)
    ensures v == if n == 0 then -1.0 else MeanSquare(a, b, lag, window)
  {
    if lag >= |b| {
      return -1.0, 0;
    }
    n := |a|;
    if |b| - lag < n {
      n := |b| - lag;
    }
    if window != 0 && n > window {
      n := window;
    }
    if n == 0 {
      return -1.0, 0;
    }
    var s := 0.0;
    for i := 0 to n
      invariant s == SquareSum(a, b, lag, i)
    {
      var d := a[i] - b[i + lag];
      SquareIsProduct(d);
      s := s + d * d;
    }
    v := s / n as real;
  }

  // ----- best_lag() -----

  /** Once the signals have stopped overlapping they do not overlap at any greater lag. */
  lemma NoOverlapIsUpward(na: nat, nb: nat, window: nat, lag: nat, later: nat)
    requires lag <= later && Overlap(na, nb, lag, window) == 0
    ensures Overlap(na, nb, later, window) == 0
  {
  }

  ghost predicate Overlapping(a: seq<real>, b: seq<real>, l: nat, window: nat) {
    Overlap(|a|, |b|, l, window) > 0
  }

  /** The earliest of the lags in [lo, hi] with the least mean square; none of the others is as good before it. */
  ghost predicate IsBest(a: seq<real>, b: seq<real>, lo: nat, hi: int, window: nat, best: nat) {
    && lo <= best <= hi && Overlapping(a, b, best, window)
    && (forall l: nat :: lo <= l <= hi && Overlapping(a, b, l, window) ==>
          MeanSquare(a, b, best, window) <= MeanSquare(a, b, l, window))
    && (forall l: nat :: lo <= l < best && Overlapping(a, b, l, window) ==>
          MeanSquare(a, b, best, window) < MeanSquare(a, b, l, window))
  }

  /** One more lag, no better: the best stays. */
  lemma BestStays(a: seq<real>, b: seq<real>, lo: nat, l: nat, window: nat, best: nat)
    requires l > lo && IsBest(a, b, lo, l - 1, window, best) && Overlapping(a, b, l, window)
    requires MeanSquare(a, b, best, window) <= MeanSquare(a, b, l, window)
    ensures IsBest(a, b, lo, l, window, best)
  {
  }

  /** One more lag, and a better one. */
  lemma BestMoves(a: seq<real>, b: seq<real>, lo: nat, l: nat, window: nat, best: nat)
    requires l > lo && IsBest(a, b, lo, l - 1, window, best) && Overlapping(a, b, l, window)
    requires MeanSquare(a, b, l, window) < MeanSquare(a, b, best, window)
    ensures IsBest(a, b, lo, l, window, l)
  {
    forall m: nat | lo <= m < l && Overlapping(a, b, m, window)
      ensures MeanSquare(a, b, l, window) < MeanSquare(a, b, m, window)
    {
      assert MeanSquare(a, b, best, window) <= MeanSquare(a, b, m, window);
    }
  }

  /** Nothing overlaps any more: the best is that of the whole range. */
  lemma BestOfAll(a: seq<real>, b: seq<real>, lo: nat, l: nat, hi: nat, window: nat, best: nat)
    requires IsBest(a, b, lo, l - 1, window, best) && l <= hi && !Overlapping(a, b, l, window)
    ensures IsBest(a, b, lo, hi, window, best)
  {
    forall m: nat | l <= m ensures !Overlapping(a, b, m, window) {
      NoOverlapIsUpward(|a|, |b|, window, l, m);
    }
  }

  /** -1 exactly when no lag of the range overlaps, although the search breaks off at the first that does not. */
  method BestLag(a: seq<real>, b: seq<real>, lo: nat, hi: nat, window: nat) returns (best: int)
    ensures best == -1 <==> forall l: nat :: lo <= l <= hi ==> !Overlapping(a, b, l, window)
    ensures best != -1 ==> best >= 0 && IsBest(a, b, lo, hi, window, best)
  {
    best := -1;
    var bv := -1.0;
    var l := lo;
    while l <= hi
      invariant lo <= l && (l > lo <==> best >= 0) && (l == lo ==> best == -1 && bv == -1.0)
      invariant l > lo ==> l - 1 <= hi && IsBest(a, b, lo, l - 1, window, best) && bv == MeanSquare(a, b, best, window)
      decreases hi + 1 - l
    {
      var v, n := MeanSq(a, b, l, window);
      if n == 0 {
        if l > lo {
          BestOfAll(a, b, lo, l, hi, window, best);
          assert Overlapping(a, b, best, window);
        } else {
          forall m: nat | l <= m ensures !Overlapping(a, b, m, window) {
            NoOverlapIsUpward(|a|, |b|, window, l, m);
          }
        }
        return;
      }
      assert Overlapping(a, b, l, window);
      if bv < 0.0 || v < bv {
        if l > lo { BestMoves(a, b, lo, l, window, best); }
        bv := v;
        best := l;
      } else {
        BestStays(a, b, lo, l, window, best);
      }
      l := l + 1;
    }
    if l > lo { assert Overlapping(a, b, best, window); }
  }

  // ----- what the search finds -----

  /** No sample is louder than the envelope times its width says, and the sum is never negative. */
  lemma {:induction false} AbsSumCovers(x: seq<real>, first: nat, end: nat, k: nat)
    requires first <= end <= |x|
    ensures AbsSum(x, first, end) >= 0.0
    ensures first <= k < end ==> x[k] <= AbsSum(x, first, end) && -x[k] <= AbsSum(x, first, end)
    decreases end
  {
    if first < end { AbsSumCovers(x, first, end - 1, k); }
  }

  function Sum(x: seq<real>, first: nat, end: nat): real
    requires first <= end <= |x|
  {
    if first == end then 0.0 else Sum(x, first, end - 1) + x[end - 1]
  }

  lemma {:induction false} AbsSumSigned(x: seq<real>, first: nat, end: nat)
    requires first <= end <= |x|
    ensures (forall i :: first <= i < end ==> x[i] >= 0.0) ==> AbsSum(x, first, end) == Sum(x, first, end)
    ensures (forall i :: first <= i < end ==> x[i] <= 0.0) ==> AbsSum(x, first, end) == -Sum(x, first, end)
    decreases end
  {
    if first < end { AbsSumSigned(x, first, end - 1); }
  }

  /** Sample `i` of the one is compared if the other has a sample `lag` later, within the window if there is one. */
  lemma OverlapIs(na: nat, nb: nat, lag: nat, window: nat, i: nat)
    ensures i < Overlap(na, nb, lag, window) <==> i < na && i + lag < nb && (window == 0 || i < window)
  {
  }

  /** The samples compared at a lag are all the same. */
  ghost predicate Agrees(a: seq<real>, b: seq<real>, lag: nat, window: nat) {
    forall i :: 0 <= i < |a| && i + lag < |b| && (window == 0 || i < window) ==> a[i] == b[i + lag]
  }

  lemma {:induction false} NoSquares(a: seq<real>, b: seq<real>, lag: nat, n: nat)
    requires n <= |a| && lag + n <= |b|
    ensures SquareSum(a, b, lag, n) == 0.0 <==> forall i :: 0 <= i < n ==> a[i] == b[i + lag]
  {
    if n > 0 {
      NoSquares(a, b, lag, n - 1);
    }
  }

  lemma Divided(s: real, n: nat)
    requires n > 0
    ensures s / n as real == 0.0 <==> s == 0.0
  {
    assert s / n as real * n as real == s;
  }

  lemma NoDifference(a: seq<real>, b: seq<real>, lag: nat, window: nat)
    requires Overlapping(a, b, lag, window)
    ensures MeanSquare(a, b, lag, window) == 0.0 <==> Agrees(a, b, lag, window)
  {
    var n := Overlap(|a|, |b|, lag, window);
    NoSquares(a, b, lag, n);
    Divided(SquareSum(a, b, lag, n), n);
  }

  lemma DividedBack(x: real, n: nat)
    requires n > 0
    ensures n as real * x / n as real == x
  {
  }

  lemma {:induction false} SquareSumOfSame(a: seq<real>, b: seq<real>, lag: nat, n: nat, d: real)
    requires n <= |a| && lag + n <= |b| && forall i :: 0 <= i < n ==> a[i] - b[i + lag] == d
    ensures SquareSum(a, b, lag, n) == n as real * Square(d)
  {
    if n > 0 {
      SquareSumOfSame(a, b, lag, n - 1, d);
      assert n as real * Square(d) == (n - 1) as real * Square(d) + Square(d);
    }
  }

  /** If all compared samples differ by the same amount, the mean square is its square, at any overlap. */
  lemma {:induction false} SameDifference(a: seq<real>, b: seq<real>, lag: nat, window: nat, d: real)
    requires Overlapping(a, b, lag, window)
    requires forall i :: 0 <= i < |a| && i + lag < |b| ==> a[i] - b[i + lag] == d
    ensures MeanSquare(a, b, lag, window) == Square(d)
  {
    var n := Overlap(|a|, |b|, lag, window);
    SquareSumOfSame(a, b, lag, n, d);
    DividedBack(Square(d), n);
  }

  /**
   When the second signal is the first one delayed, the search finds the delay: the
   best lag is the least at which the signals agree.
   */
  lemma DelayIsFound(a: seq<real>, b: seq<real>, lo: nat, hi: int, window: nat, best: nat, delay: nat)
    requires IsBest(a, b, lo, hi, window, best)
    requires lo <= delay <= hi && Overlapping(a, b, delay, window) && Agrees(a, b, delay, window)
    ensures best <= delay && Agrees(a, b, best, window)
    ensures forall l: nat :: lo <= l < best && Overlapping(a, b, l, window) ==> !Agrees(a, b, l, window)
  {
    NoDifference(a, b, delay, window);
    NoDifference(a, b, best, window);
    forall l: nat | lo <= l < best && Overlapping(a, b, l, window) ensures !Agrees(a, b, l, window) {
      NoDifference(a, b, l, window);
    }
  }
}
