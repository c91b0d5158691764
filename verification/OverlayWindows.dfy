/**
 The time windows that switch the state indicators on inside one segment
 (overlay_filters in docs/tools/videorec_export.py, lines 533-554). Times are
 real numbers; "%.3f" is any rounding to within half a millisecond.
 */
module OverlayWindows {
  import opened Basics
  import opened StateTimeline

  /** Printed with three decimals: off by at most half a unit of the last one. */
  predicate Rounded(printed: real, exact: real) {
    exact - 0.0005 <= printed <= exact + 0.0005
  }

  function Millis(m: int): real {
    m as real / 1000.0
  }

  /** A whole number of thousandths. */
  ghost predicate InMillis(printed: real) {
    exists m: int :: Millis(m) == printed
  }

  /** The time of segment frame `j`. */
  function FrameTime(j: int, fps: real): real
    requires fps > 0.0
  {
    j as real / fps
  }

  /** Half a frame before segment frame `k`. */
  function BoundaryTime(k: int, fps: real): real
    requires fps > 0.0
  {
    (k as real - 0.5) / fps
  }

  lemma DivideKeepsOrder(a: real, b: real, fps: real)
    requires fps > 0.0 && a <= b
    ensures a / fps <= b / fps
  {
    assert (b - a) / fps >= 0.0;
    assert (b - a) / fps == b / fps - a / fps;
  }

  /** Below 1000 frames per second half a frame is more than the rounding. */
  lemma HalfFrame(fps: real)
    requires 0.0 < fps < 1000.0
    ensures 0.5 / fps > 0.0005
  {
    assert (0.5 / fps) * fps == 0.5;
  }

  /** A printed boundary puts every frame on the right side of it. */
  lemma BoundarySeparates(k: int, j: int, fps: real, printed: real)
    requires 0.0 < fps < 1000.0 && Rounded(printed, BoundaryTime(k, fps))
    ensures printed <= FrameTime(j, fps) <==> k <= j
  {
    HalfFrame(fps);
    assert BoundaryTime(k, fps) == FrameTime(k, fps) - 0.5 / fps;
    if k <= j {
      DivideKeepsOrder(k as real, j as real, fps);
    } else {
      DivideKeepsOrder(j as real, k as real - 1.0, fps);
      assert (k as real - 1.0) / fps == BoundaryTime(k, fps) - 0.5 / fps;
    }
  }

  lemma ZeroIsPrinted(fps: real)
    requires fps >= 1000.0
    ensures Rounded(0.0, BoundaryTime(1, fps)) && InMillis(0.0) && FrameTime(0, fps) == 0.0
  {
    assert Millis(0) == 0.0;
    assert BoundaryTime(1, fps) == 0.5 / fps;
    assert (0.5 / fps) * fps == 0.5;
  }

  /**
   The printed boundary is right for every frame if and only if the recording has
   fewer than 1000 frames per second: from there on the boundary before frame 1
   may print as 0.000 and takes in frame 0.
   */
  lemma BoundaryIsExactIff(fps: real)
    requires fps > 0.0
    ensures (forall k: int, j: int, printed: real {:trigger Rounded(printed, BoundaryTime(k, fps)), FrameTime(j, fps)} ::
               Rounded(printed, BoundaryTime(k, fps)) && InMillis(printed) ==> (printed <= FrameTime(j, fps) <==> k <= j))
            <==> fps < 1000.0
  {
    if fps < 1000.0 {
      forall k: int, j: int, printed: real | Rounded(printed, BoundaryTime(k, fps))
        ensures printed <= FrameTime(j, fps) <==> k <= j
      {
        BoundarySeparates(k, j, fps, printed);
      }
    } else {
      ZeroIsPrinted(fps);
      assert Rounded(0.0, BoundaryTime(1, fps)) && 0.0 <= FrameTime(0, fps);
    }
  }

  /** enable='gte(t,from)*lt(t,to)' with the indicator it switches on. */
  datatype Filter = Filter(from: real, to: real, mark: Mark)

  predicate Enabled(f: Filter, t: real) {
    f.from <= t < f.to
  }

  /** Frame `k` of the recording carries the mark. */
  ghost predicate Carries(intervals: seq<Overlay>, k: int, m: Mark) {
    exists i :: 0 <= i < |intervals| && Covers(intervals[i], k) && intervals[i].mark == m
  }

  /** A filter with the mark is on at time `t` of the segment. */
  ghost predicate Burns(out: seq<Filter>, t: real, m: Mark) {
    exists i :: 0 <= i < |out| && Enabled(out[i], t) && out[i].mark == m
  }

  /** One interval: clipped to the segment and printed, or dropped when nothing is left. */
  function AddFilter(out: seq<Filter>, o: Overlay, start: int, end: int, fps: real, format: real -> real): seq<Filter>
    requires fps > 0.0
  {
    var a, b := Max(o.start, start), Min(o.end, end);
    if a >= b then out
    else out + [Filter(format(BoundaryTime(a - start, fps)), format(BoundaryTime(b - start, fps)), o.mark)]
  }

  lemma AddFilterBurns(out: seq<Filter>, o: Overlay, start: int, end: int, fps: real,
                       format: real -> real, j: nat, m: Mark)
    requires 0.0 < fps < 1000.0 && start + j < end
    requires forall x: real :: Rounded(format(x), x)
    ensures Burns(AddFilter(out, o, start, end, fps, format), FrameTime(j, fps), m)
            <==> Burns(out, FrameTime(j, fps), m) || (Covers(o, start + j) && o.mark == m)
  {
    var a, b := Max(o.start, start), Min(o.end, end);
    var t, r := FrameTime(j, fps), AddFilter(out, o, start, end, fps, format);
    if a < b {
      BoundarySeparates(a - start, j, fps, format(BoundaryTime(a - start, fps)));
      BoundarySeparates(b - start, j, fps, format(BoundaryTime(b - start, fps)));
      assert Enabled(r[|out|], t) <==> Covers(o, start + j);
      if Burns(out, t, m) {
        var i :| 0 <= i < |out| && Enabled(out[i], t) && out[i].mark == m;
        assert r[i] == out[i];
      }
    }
  }

  lemma CarriesOneMore(intervals: seq<Overlay>, i: nat, k: int, m: Mark)
    requires i < |intervals|
    ensures Carries(intervals[..i + 1], k, m)
            <==> Carries(intervals[..i], k, m) || (Covers(intervals[i], k) && intervals[i].mark == m)
  {
    var before, after := intervals[..i], intervals[..i + 1];
    assert after[i] == intervals[i];
    if Carries(before, k, m) {
      var n :| 0 <= n < |before| && Covers(before[n], k) && before[n].mark == m;
      assert after[n] == before[n];
    }
    if Carries(after, k, m) {
      var n :| 0 <= n < |after| && Covers(after[n], k) && after[n].mark == m;
      if n < i { assert before[n] == after[n]; }
    }
  }

  /**
   overlay_filters(). At the time of every frame of the segment the filters that
   are on are exactly the indicators of that frame in the recording.
   */
  method OverlayFilters(intervals: seq<Overlay>, start: int, end: int, fps: real, format: real -> real)
      returns (out: seq<Filter>)
    requires 0.0 < fps < 1000.0
    requires forall x: real :: Rounded(format(x), x)
    ensures forall j: nat, m: Mark :: start + j < end ==> (Burns(out, FrameTime(j, fps), m) <==> Carries(intervals, start + j, m))
  {
    out := [];
    for i := 0 to |intervals|
      invariant forall j: nat, m: Mark :: start + j < end ==>
        (Burns(out, FrameTime(j, fps), m) <==> Carries(intervals[..i], start + j, m))
    {
      forall j: nat, m: Mark | start + j < end
        ensures Burns(AddFilter(out, intervals[i], start, end, fps, format), FrameTime(j, fps), m)
                <==> Carries(intervals[..i + 1], start + j, m)
      {
        AddFilterBurns(out, intervals[i], start, end, fps, format, j, m);
        CarriesOneMore(intervals, i, start + j, m);
      }
      out := AddFilter(out, intervals[i], start, end, fps, format);
    }
    assert intervals[..|intervals|] == intervals;
  }

  lemma OnlyItsMark(intervals: seq<Overlay>, k: int, own: Mark, m: Mark)
    requires Separate(intervals) && Draws(intervals, k, own)
    ensures Carries(intervals, k, m) <==> Visible(m) && m == own
  {
    if Carries(intervals, k, m) {
      var i :| 0 <= i < |intervals| && Covers(intervals[i], k) && intervals[i].mark == m;
      if Visible(own) {
        var n :| 0 <= n < |intervals| && Covers(intervals[n], k) && intervals[n].mark == own;
        assert i == n;
      }
    }
  }

  /**
   The indicators of one segment, from the events to the windows: frame `k` is
   drawn with an indicator if and only if the state at `k` has one, and with
   that one only.
   */
  method SegmentOverlays(total: int, events: seq<Event>, caption: string -> string,
                         start: int, end: int, fps: real, format: real -> real) returns (out: seq<Filter>)
    requires 0 <= start && end <= total && 0.0 < fps < 1000.0
    requires forall x: real :: Rounded(format(x), x)
    ensures forall j: nat, m: Mark :: start + j < end ==>
      (Burns(out, FrameTime(j, fps), m) <==> Visible(m) && m == MarkOf(StateAt(events, start + j), caption))
  {
    var intervals := OverlayIntervals(total, events, caption);
    out := OverlayFilters(intervals, start, end, fps, format);
    forall j: nat, m: Mark {:trigger Carries(intervals, start + j, m)} | start + j < end
      ensures Carries(intervals, start + j, m) <==> Visible(m) && m == MarkOf(StateAt(events, start + j), caption)
    {
      OnlyItsMark(intervals, start + j, MarkOf(StateAt(events, start + j), caption), m);
    }
  }
}
