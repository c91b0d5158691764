/**
 Resampling by averaging windows (audio_resample_frames and audio_resample_s16 in
 src/emulator/audio_analysis.c, lines 130-160). Products are assumed to fit the
 64-bit integers of the source.
 */
module Resample {

  type int16 = x: int | -0x8000 <= x < 0x8000

  /** Integer division of the source: towards zero. */
  function Quotient(a: int, b: int): int
    requires b > 0
  {
    if a >= 0 then a / b else -((-a) / b)
  }

  function Frames(inFrames: nat, inRate: nat, outRate: nat): nat {
    if inRate == 0 || outRate == 0 then 0 else inFrames * outRate / inRate
  }

  /** The window of output frame `j` starts here. */
  function From(j: nat, inRate: nat, outRate: nat): nat
    requires outRate > 0
  {
    j * inRate / outRate
  }

  /** And ends before this frame. */
  function Until(j: nat, inFrames: nat, inRate: nat, outRate: nat): nat
    requires outRate > 0
  {
    var a, b := From(j, inRate, outRate), From(j + 1, inRate, outRate);
    var b' := if b <= a then a + 1 else b;
    if b' > inFrames then inFrames else b'
  }

  // ----- arithmetic of the windows -----

  lemma MulKeepsOrder(a: int, b: int, c: nat)
    requires a <= b
    ensures a * c <= b * c
  {
  }

  lemma FloorBelow(p: nat, q: nat, n: nat)
    requires q > 0 && p < n * q
    ensures p / q < n
  {
    if p / q >= n { MulKeepsOrder(n, p / q, q); }
  }

  lemma FloorAtLeast(p: nat, q: nat, n: nat)
    requires q > 0 && n * q <= p
    ensures n <= p / q
  {
    if p / q < n { MulKeepsOrder(p / q + 1, n, q); }
  }

  lemma FloorTimes(p: nat, q: nat)
    requires q > 0
    ensures p / q * q <= p < (p / q + 1) * q
  {
  }

  /** Every output frame has its window inside the input, at any pair of rates. */
  lemma WindowIsInside(j: nat, inFrames: nat, inRate: nat, outRate: nat)
    requires inRate > 0 && outRate > 0 && j < Frames(inFrames, inRate, outRate)
    ensures From(j, inRate, outRate) < Until(j, inFrames, inRate, outRate) <= inFrames
  {
    var n := Frames(inFrames, inRate, outRate);
    FloorTimes(inFrames * outRate, inRate);
    assert n * inRate <= inFrames * outRate;
    MulKeepsOrder(j + 1, n, inRate);
    assert (j + 1) * inRate == j * inRate + inRate;
    FloorBelow(j * inRate, outRate, inFrames);
  }

  /** When the rate is not raised the windows follow each other without gap or overlap. */
  lemma WindowsAreConsecutive(j: nat, inFrames: nat, inRate: nat, outRate: nat)
    requires 1 <= outRate <= inRate && j < Frames(inFrames, inRate, outRate)
    ensures Until(j, inFrames, inRate, outRate) == From(j + 1, inRate, outRate)
  {
    var a := From(j, inRate, outRate);
    FloorTimes(j * inRate, outRate);
    assert (j + 1) * inRate == j * inRate + inRate;
    assert (a + 1) * outRate == a * outRate + outRate;
    FloorAtLeast((j + 1) * inRate, outRate, a + 1);
    var n := Frames(inFrames, inRate, outRate);
    FloorTimes(inFrames * outRate, inRate);
    MulKeepsOrder(j + 1, n, inRate);
    FloorBelow((j + 1) * inRate, outRate, inFrames + 1) by {
      assert (inFrames + 1) * outRate == inFrames * outRate + outRate;
    }
  }

  /**
   As many frames as the time of the input holds at the output rate, and each window
   starts with the input frame that is playing when the output frame starts.
   */
  lemma FramesKeepTheTime(inFrames: nat, inRate: nat, outRate: nat, j: nat)
    requires inRate > 0 && outRate > 0
    ensures var n := Frames(inFrames, inRate, outRate);
            n * inRate <= inFrames * outRate < (n + 1) * inRate
    ensures var a := From(j, inRate, outRate);
            a * outRate <= j * inRate < (a + 1) * outRate
    ensures Frames(inFrames, 0, outRate) == 0 && Frames(inFrames, inRate, 0) == 0
  {
    FloorTimes(inFrames * outRate, inRate);
    FloorTimes(j * inRate, outRate);
  }

  /** When the rate is raised each window is the one frame that is playing. */
  lemma RaisedRateRepeats(j: nat, inFrames: nat, inRate: nat, outRate: nat)
    requires 0 < inRate <= outRate && j < Frames(inFrames, inRate, outRate)
    ensures Until(j, inFrames, inRate, outRate) == From(j, inRate, outRate) + 1
  {
    var a := From(j, inRate, outRate);
    FloorTimes(j * inRate, outRate);
    assert (j + 1) * inRate == j * inRate + inRate;
    assert (a + 2) * outRate == (a + 1) * outRate + outRate;
    FloorBelow((j + 1) * inRate, outRate, a + 2);
    WindowIsInside(j, inFrames, inRate, outRate);
  }

  // ----- sums and averages -----

  /** One side (0 or 1) of a frame of an interleaved signal. */
  function Sample(s: seq<int16>, side: nat, k: nat): int
    requires side < 2 && 2 * (k + 1) <= |s|
  {
    s[2 * k + side]
  }

  function SideSum(s: seq<int16>, side: nat, a: nat, b: nat): int
    requires side < 2 && a <= b && 2 * b <= |s|
  {
    if a == b then 0 else SideSum(s, side, a, b - 1) + Sample(s, side, b - 1)
  }

  /** All samples of the side in the window lie in [lo, hi]. */
  ghost predicate Within(s: seq<int16>, side: nat, a: nat, b: nat, lo: int, hi: int)
    requires side < 2 && a <= b && 2 * b <= |s|
  {
    forall k :: a <= k < b ==> lo <= Sample(s, side, k) <= hi
  }

  lemma {:induction false} SumIsBetween(s: seq<int16>, side: nat, a: nat, b: nat, lo: int, hi: int)
    requires side < 2 && a <= b && 2 * b <= |s| && Within(s, side, a, b, lo, hi)
    ensures lo * (b - a) <= SideSum(s, side, a, b) <= hi * (b - a)
    decreases b
  {
    if a < b {
      SumIsBetween(s, side, a, b - 1, lo, hi);
      assert lo * (b - a) == lo * (b - 1 - a) + lo && hi * (b - a) == hi * (b - 1 - a) + hi;
    }
  }

  lemma NegatedBounds(sum: int, n: nat, lo: int, hi: int)
    requires lo * n <= sum <= hi * n
    ensures (-hi) * n <= -sum <= (-lo) * n
  {
    assert (-hi) * n == -(hi * n) && (-lo) * n == -(lo * n);
  }

  lemma NotNegative(hi: int, n: nat)
    requires n > 0 && 0 <= hi * n
    ensures 0 <= hi
  {
  }

  lemma FloorIsBetween(sum: nat, n: nat, lo: int, hi: int)
    requires n > 0 && lo * n <= sum <= hi * n
    ensures lo <= sum / n <= hi
  {
    if lo > 0 { FloorAtLeast(sum, n, lo); }
    NotNegative(hi, n);
    assert (hi + 1) * n == hi * n + n;
    FloorBelow(sum, n, hi + 1);
  }

  /** Rounding towards zero does not leave the range of the values. */
  lemma QuotientIsBetween(sum: int, n: nat, lo: int, hi: int)
    requires n > 0 && lo * n <= sum <= hi * n
    ensures lo <= Quotient(sum, n) <= hi
  {
    if sum >= 0 {
      FloorIsBetween(sum, n, lo, hi);
    } else {
      NegatedBounds(sum, n, lo, hi);
      FloorIsBetween(-sum, n, -hi, -lo);
    }
  }

  /** The two averages of a window, or the one of both sides. */
  function Average(s: seq<int16>, a: nat, b: nat, stereo: bool): (r: seq<int>)
    requires a < b && 2 * b <= |s|
    ensures |r| == if stereo then 2 else 1
  {
    var left, right, n := SideSum(s, 0, a, b), SideSum(s, 1, a, b), b - a;
    if stereo then [Quotient(left, n), Quotient(right, n)] else [Quotient(left + right, 2 * n)]
  }

  /** The samples of output frame `j`. */
  function OutFrame(s: seq<int16>, j: nat, inFrames: nat, inRate: nat, outRate: nat, stereo: bool): (r: seq<int>)
    requires inRate > 0 && outRate > 0 && |s| == 2 * inFrames && j < Frames(inFrames, inRate, outRate)
    ensures |r| == if stereo then 2 else 1
  {
    WindowIsInside(j, inFrames, inRate, outRate);
    Average(s, From(j, inRate, outRate), Until(j, inFrames, inRate, outRate), stereo)
  }

  /** `q` is `sum` divided by `n` and rounded towards zero. */
  predicate Rounds(sum: int, n: nat, q: int) {
    if sum >= 0 then q >= 0 && q * n <= sum < q * n + n else q <= 0 && q * n - n < sum <= q * n
  }

  lemma RoundsBetween(sum: nat, n: nat, q: nat)
    requires q * n <= sum < (q + 1) * n
    ensures Rounds(sum, n, q)
  {
    assert (q + 1) * n == q * n + n;
  }

  lemma RoundsNegated(sum: int, n: nat, q: int)
    requires Rounds(sum, n, q) && sum > 0
    ensures Rounds(-sum, n, -q)
  {
    assert (-q) * n == -(q * n);
  }

  lemma FloorRounds(p: nat, n: nat) returns (q: int)
    requires n > 0
    ensures q == p / n && Rounds(p, n, q)
  {
    FloorAtLeast(p, n, 0);
    FloorTimes(p, n);
    RoundsBetween(p, n, p / n);
    q := p / n;
  }

  lemma QuotientRounds(sum: int, n: nat)
    requires n > 0
    ensures Rounds(sum, n, Quotient(sum, n))
  {
    if sum >= 0 {
      var q := FloorRounds(sum, n);
      assert Quotient(sum, n) == q;
    } else {
      var q := FloorRounds(-sum, n);
      RoundsNegated(-sum, n, q);
      assert Quotient(sum, n) == -q;
    }
  }

  /** Mixing takes the mean of all samples of both sides; a stereo signal has the mean of each. */
  lemma {:induction false} AveragesAreMeans(s: seq<int16>, a: nat, b: nat)
    requires a < b && 2 * b <= |s|
    ensures Rounds(SideSum(s, 0, a, b) + SideSum(s, 1, a, b), 2 * (b - a), Average(s, a, b, false)[0])
    ensures forall side :: 0 <= side < 2 ==> Rounds(SideSum(s, side, a, b), b - a, Average(s, a, b, true)[side])
  {
    QuotientRounds(SideSum(s, 0, a, b) + SideSum(s, 1, a, b), 2 * (b - a));
    QuotientRounds(SideSum(s, 0, a, b), b - a);
    QuotientRounds(SideSum(s, 1, a, b), b - a);
  }

  lemma OneMoreTimes(p: int, q: int, n: nat)
    requires n > 0
    ensures p < q ==> p * n + n <= q * n
  {
    if p < q { MulKeepsOrder(p + 1, q, n); }
    assert (p + 1) * n == p * n + n;
  }

  lemma OneRounding(sum: int, n: nat, p: int, q: int)
    requires n > 0 && Rounds(sum, n, p) && Rounds(sum, n, q)
    ensures p == q
  {
    OneMoreTimes(p, q, n);
    OneMoreTimes(q, p, n);
  }

  lemma RoundsHalf(sum: int, n: nat, p: int)
    requires Rounds(sum + sum, 2 * n, p)
    ensures Rounds(sum, n, p)
  {
    assert p * (2 * n) == 2 * (p * n);
  }

  lemma {:induction false} SidesAlike(s: seq<int16>, a: nat, b: nat)
    requires a <= b && 2 * b <= |s| && forall k :: a <= k < b ==> s[2 * k] == s[2 * k + 1]
    ensures SideSum(s, 0, a, b) == SideSum(s, 1, a, b)
    decreases b
  {
    if a < b { SidesAlike(s, a, b - 1); }
  }

  /** A signal with equal sides is mixed to what either side gives alone. */
  lemma EqualSidesMix(s: seq<int16>, a: nat, b: nat)
    requires a < b && 2 * b <= |s| && forall k :: a <= k < b ==> s[2 * k] == s[2 * k + 1]
    ensures Average(s, a, b, false) == [Average(s, a, b, true)[0]] == [Average(s, a, b, true)[1]]
  {
    SidesAlike(s, a, b);
    AveragesAreMeans(s, a, b);
    var sum, n := SideSum(s, 0, a, b), b - a;
    RoundsHalf(sum, n, Average(s, a, b, false)[0]);
    OneRounding(sum, n, Average(s, a, b, false)[0], Average(s, a, b, true)[0]);
    assert Rounds(sum, n, Average(s, a, b, true)[1]);
    OneRounding(sum, n, Average(s, a, b, false)[0], Average(s, a, b, true)[1]);
  }

  lemma WindowAverage(s: seq<int16>, a: nat, b: nat, stereo: bool, c: nat, lo: int, hi: int)
    requires a < b && 2 * b <= |s| && c < if stereo then 2 else 1
    requires forall side :: 0 <= side < 2 && (stereo ==> side == c) ==> Within(s, side, a, b, lo, hi)
    ensures lo <= Average(s, a, b, stereo)[c] <= hi
  {
    if stereo {
      SumIsBetween(s, c, a, b, lo, hi);
      QuotientIsBetween(SideSum(s, c, a, b), b - a, lo, hi);
    } else {
      assert Within(s, 0, a, b, lo, hi) && Within(s, 1, a, b, lo, hi);
      SumIsBetween(s, 0, a, b, lo, hi);
      SumIsBetween(s, 1, a, b, lo, hi);
      assert lo * (2 * (b - a)) == lo * (b - a) + lo * (b - a);
      assert hi * (2 * (b - a)) == hi * (b - a) + hi * (b - a);
      QuotientIsBetween(SideSum(s, 0, a, b) + SideSum(s, 1, a, b), 2 * (b - a), lo, hi);
    }
  }

  /**
   Every average lies between bounds of the window it is taken over: the least and
   the greatest sample of its side, or of both sides when they are mixed. So the
   cast to 16 bits changes nothing.
   */
  lemma AverageIsBetween(s: seq<int16>, j: nat, inFrames: nat, inRate: nat, outRate: nat, stereo: bool, c: nat,
                         lo: int, hi: int)
    requires inRate > 0 && outRate > 0 && |s| == 2 * inFrames && j < Frames(inFrames, inRate, outRate)
    requires c < if stereo then 2 else 1
    requires From(j, inRate, outRate) < Until(j, inFrames, inRate, outRate) <= inFrames
    requires forall side {:trigger Within(s, side, From(j, inRate, outRate), Until(j, inFrames, inRate, outRate), lo, hi)} ::
               0 <= side < 2 && (stereo ==> side == c) ==>
                 Within(s, side, From(j, inRate, outRate), Until(j, inFrames, inRate, outRate), lo, hi)
    ensures lo <= OutFrame(s, j, inFrames, inRate, outRate, stereo)[c] <= hi
  {
    WindowAverage(s, From(j, inRate, outRate), Until(j, inFrames, inRate, outRate), stereo, c, lo, hi);
  }

  lemma OutFrameFits(s: seq<int16>, j: nat, inFrames: nat, inRate: nat, outRate: nat, stereo: bool, c: nat)
    requires inRate > 0 && outRate > 0 && |s| == 2 * inFrames && j < Frames(inFrames, inRate, outRate)
    requires c < if stereo then 2 else 1
    ensures -0x8000 <= OutFrame(s, j, inFrames, inRate, outRate, stereo)[c] < 0x8000
  {
    WindowIsInside(j, inFrames, inRate, outRate);
    AverageIsBetween(s, j, inFrames, inRate, outRate, stereo, c, -0x8000, 0x7FFF);
  }

  lemma WholeQuotient(n: nat, q: nat)
    requires q > 0
    ensures n * q / q == n
  {
    FloorTimes(n * q, q);
    FloorAtLeast(n * q, q, n);
    assert (n + 1) * q == n * q + q;
    FloorBelow(n * q, q, n + 1);
  }

  /** At equal rates a stereo signal is returned as it is. */
  lemma EqualRatesChangeNothing(s: seq<int16>, j: nat, inFrames: nat, rate: nat)
    requires rate > 0 && |s| == 2 * inFrames
    ensures Frames(inFrames, rate, rate) == inFrames
    ensures j < inFrames ==> OutFrame(s, j, inFrames, rate, rate, true) == [s[2 * j], s[2 * j + 1]]
  {
    WholeQuotient(inFrames, rate);
    WholeQuotient(j, rate);
    WholeQuotient(j + 1, rate);
    if j < inFrames {
      assert SideSum(s, 0, j, j + 1) == s[2 * j] && SideSum(s, 1, j, j + 1) == s[2 * j + 1];
    }
  }

  // ----- the loops -----

  /** The two sums of one window. */
  method Sums(s: seq<int16>, a: nat, b: nat) returns (sl: int, sr: int)
    requires a <= b && 2 * b <= |s|
    ensures sl == SideSum(s, 0, a, b) && sr == SideSum(s, 1, a, b)
  {
    sl, sr := 0, 0;
    for k := a to b
      invariant sl == SideSum(s, 0, a, k) && sr == SideSum(s, 1, a, k)
    {
      sl := sl + s[k * 2];
      sr := sr + s[k * 2 + 1];
    }
  }

  function Width(stereo: bool): nat {
    if stereo then 2 else 1
  }

  /** Frame `j` of the output array. */
  predicate Holds(out: seq<int>, s: seq<int16>, j: nat, inFrames: nat, inRate: nat, outRate: nat, stereo: bool)
    requires inRate > 0 && outRate > 0 && |s| == 2 * inFrames && j < Frames(inFrames, inRate, outRate)
    requires Width(stereo) * Frames(inFrames, inRate, outRate) <= |out|
  {
    var r := OutFrame(s, j, inFrames, inRate, outRate, stereo);
    if stereo then out[2 * j] == r[0] && out[2 * j + 1] == r[1] else out[j] == r[0]
  }

  /** The output up to frame `j`. */
  ghost predicate Done(out: seq<int>, s: seq<int16>, j: nat, inFrames: nat, inRate: nat, outRate: nat, stereo: bool)
    requires |s| == 2 * inFrames && j <= Frames(inFrames, inRate, outRate)
    requires Width(stereo) * Frames(inFrames, inRate, outRate) <= |out|
  {
    forall i :: 0 <= i < j ==> Holds(out, s, i, inFrames, inRate, outRate, stereo)
  }

  lemma OneMore(before: seq<int>, after: seq<int>, s: seq<int16>, j: nat, inFrames: nat, inRate: nat, outRate: nat,
                stereo: bool)
    requires |s| == 2 * inFrames && j < Frames(inFrames, inRate, outRate)
    requires |before| == |after| && Width(stereo) * Frames(inFrames, inRate, outRate) <= |after|
    requires Done(before, s, j, inFrames, inRate, outRate, stereo)
    requires forall k :: 0 <= k < Width(stereo) * j ==> after[k] == before[k]
    requires Holds(after, s, j, inFrames, inRate, outRate, stereo)
    ensures Done(after, s, j + 1, inFrames, inRate, outRate, stereo)
  {
    forall i | 0 <= i < j ensures Holds(after, s, i, inFrames, inRate, outRate, stereo) {
      assert Holds(before, s, i, inFrames, inRate, outRate, stereo);
    }
  }

  /** audio_resample_s16(): the output array gets the averages of the windows. */
  method ResampleS16(s: seq<int16>, inFrames: nat, inRate: nat, outRate: nat, stereo: bool,
                     out: array<int>) returns (n: nat)
    requires |s| == 2 * inFrames && Width(stereo) * Frames(inFrames, inRate, outRate) <= out.Length
    modifies out
    ensures n == Frames(inFrames, inRate, outRate)
    ensures Done(out[..], s, n, inFrames, inRate, outRate, stereo)
    ensures forall k :: Width(stereo) * n <= k < out.Length ==> out[k] == old(out[k])
  {
    n := Frames(inFrames, inRate, outRate);
    for j := 0 to n
      invariant Done(out[..], s, j, inFrames, inRate, outRate, stereo)
      invariant forall k :: Width(stereo) * n <= k < out.Length ==> out[k] == old(out[k])
    {
      WindowIsInside(j, inFrames, inRate, outRate);
      ghost var before := out[..];
      var a := j * inRate / outRate;
      var b := (j + 1) * inRate / outRate;
      if b <= a {
        b := a + 1;
      }
      if b > inFrames {
        b := inFrames;
      }
      var sl, sr := Sums(s, a, b);
      var cnt := b - a;
      if stereo {
        out[j * 2] := Quotient(sl, cnt);
        out[j * 2 + 1] := Quotient(sr, cnt);
      } else {
        out[j] := Quotient(sl + sr, 2 * cnt);
      }
      OneMore(before, out[..], s, j, inFrames, inRate, outRate, stereo);
    }
  }
}
