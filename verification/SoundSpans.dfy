/**
 Stretches of frames with and without sound (audio_spans in
 src/emulator/audio_analysis.c, lines 65-87).
 */
module SoundSpans {
  import opened NoteRuns

  /** First and last frame. */
  datatype Span = Span(first: nat, last: nat)

  /** A frame whose flag is `value` sounds; one note only. */
  function Trace(flags: seq<nat>, value: bool): (t: seq<Sound>)
    ensures |t| == |flags|
    ensures forall i :: 0 <= i < |flags| ==> t[i] == if (flags[i] != 0) == value then Playing(0) else Silent
  {
    seq(|flags|, i requires 0 <= i < |flags| => if (flags[i] != 0) == value then Playing(0) else Silent)
  }

  function AllRuns(flags: seq<nat>, value: bool): seq<Run> {
    if flags == [] then [] else Runs(Trace(flags, value))
  }

  function SpanOf(base: nat, r: Run): Span
    requires r.first < r.last
  {
    Span(base + r.first, base + r.last - 1)
  }

  /** The runs found when the scan has come to `i`. */
  function Found(t: seq<Sound>, i: nat): seq<Run>
    requires i <= |t|
  {
    if i < |t| then Closed(t, i) else if t == [] then [] else Runs(t)
  }

  /** No run goes on across `i`. */
  predicate Boundary(t: seq<Sound>, i: nat)
    requires i <= |t|
  {
    0 < i < |t| ==> !SameNote(t, i)
  }

  lemma {:induction false} PassSilence(t: seq<Sound>, i: nat)
    requires i < |t| && t[i].Silent?
    ensures Found(t, i + 1) == Found(t, i) && Boundary(t, i + 1)
  {
    assert Closed(t, i) + [] == Closed(t, i);
  }

  lemma {:induction false} PassRun(t: seq<Sound>, i: nat, j: nat)
    requires i <= j < |t| && t[j].Playing? && Start(t, j) == i && Closed(t, j) == Closed(t, i)
    requires j + 1 < |t| ==> t[j + 1] != t[j]
    ensures Found(t, j + 1) == Found(t, i) + [Run(i, j + 1)] && Boundary(t, j + 1)
  {
  }

  /** Going on inside a run finds nothing new. */
  lemma {:induction false} InsideRun(t: seq<Sound>, i: nat, j: nat)
    requires i <= j && j + 1 < |t| && t[j].Playing? && t[j + 1] == t[j] && Start(t, j) == i
    ensures Start(t, j + 1) == i && Closed(t, j + 1) == Closed(t, j)
  {
    assert Closed(t, j) + [] == Closed(t, j);
  }

  /** How many of `count` spans fit. */
  function Fitting(out: array?<Span>, count: nat, max: nat): nat {
    if out == null then 0 else if count < max then count else max
  }

  /** The array holds the first spans; the rest of it is as it was. */
  ghost predicate Holds(out: array?<Span>, before: seq<Span>, runs: seq<Run>, base: nat, max: nat)
    requires out != null ==> max <= out.Length == |before|
    reads out
  {
    && (forall k :: 0 <= k < |runs| ==> runs[k].first < runs[k].last)
    && (out != null ==>
          && (forall k :: 0 <= k < Fitting(out, |runs|, max) ==> out[k] == SpanOf(base, runs[k]))
          && (forall k :: Fitting(out, |runs|, max) <= k < out.Length ==> out[k] == before[k]))
  }

  /** One more span, written when there is room for it. */
  method Put(out: array?<Span>, written: nat, max: nat, base: nat, i: nat, j: nat, ghost before: seq<Span>,
             ghost runs: seq<Run>)
      returns (now: nat)
    requires out != null ==> max <= out.Length == |before|
    requires Holds(out, before, runs, base, max) && written == Fitting(out, |runs|, max) && i <= j
    modifies out
    ensures Holds(out, before, runs + [Run(i, j + 1)], base, max) && now == Fitting(out, |runs| + 1, max)
  {
    now := written;
    if written < max && out != null {
      out[written] := Span(base + i, base + j);
      now := written + 1;
    }
  }

  /** The inner loop: the last frame of the run that begins at `i`. */
  method LastOf(flags: seq<nat>, value: bool, i: nat) returns (j: nat)
    requires i < |flags| && (flags[i] != 0) == value && Boundary(Trace(flags, value), i)
    ensures i <= j < |flags|
    ensures var t := Trace(flags, value);
            && t[j].Playing? && Start(t, j) == i && Closed(t, j) == Closed(t, i)
            && (j + 1 < |t| ==> t[j + 1] != t[j])
  {
    ghost var t := Trace(flags, value);
    j := i;
    while j + 1 < |flags| && (flags[j + 1] != 0) == value
      invariant i <= j < |flags| && t[j].Playing? && Start(t, j) == i && Closed(t, j) == Closed(t, i)
    {
      InsideRun(t, i, j);
      j := j + 1;
    }
  }

  /** The run that begins at `i` is found, and written when there is room for it. */
  method TakeRun(flags: seq<nat>, base: nat, value: bool, out: array?<Span>, max: nat, i: nat, written: nat,
                 ghost before: seq<Span>, ghost runs: seq<Run>)
      returns (j: nat, now: nat)
    requires i < |flags| && (flags[i] != 0) == value && Boundary(Trace(flags, value), i)
    requires out != null ==> max <= out.Length == |before|
    requires runs == Found(Trace(flags, value), i)
    requires Holds(out, before, runs, base, max) && written == Fitting(out, |runs|, max)
    modifies out
    ensures i <= j < |flags| && Boundary(Trace(flags, value), j + 1)
    ensures Found(Trace(flags, value), j + 1) == runs + [Run(i, j + 1)]
    ensures Holds(out, before, runs + [Run(i, j + 1)], base, max) && now == Fitting(out, |runs| + 1, max)
  {
    j := LastOf(flags, value, i);
    PassRun(Trace(flags, value), i, j);
    now := Put(out, written, max, base, i, j, before, runs);
  }

  /**
   audio_spans(). The total counts all runs of the value whatever the capacity, and
   the first of them, as many as fit, are written.
   */
  method Spans(flags: seq<nat>, base: nat, value: bool, out: array?<Span>, max: nat) returns (written: nat, total: nat)
    requires out != null ==> max <= out.Length
    modifies out
    ensures total == |AllRuns(flags, value)| && written == Fitting(out, total, max)
    ensures written == if out == null then 0 else if total < max then total else max
    ensures Holds(out, old(if out == null then [] else out[..]), AllRuns(flags, value), base, max)
  {
    ghost var t := Trace(flags, value);
    ghost var before := if out == null then [] else out[..];
    ghost var runs: seq<Run> := [];
    var n := |flags|;
    written, total := 0, 0;
    var i := 0;
    while i < n
      invariant 0 <= i <= n && runs == Found(t, i) && Boundary(t, i) && total == |runs|
      invariant written == Fitting(out, total, max) && Holds(out, before, runs, base, max)
    {
      if (flags[i] != 0) != value {
        PassSilence(t, i);
        i := i + 1;
        continue;
      }
      var j;
      j, written := TakeRun(flags, base, value, out, max, i, written, before, runs);
      runs := runs + [Run(i, j + 1)];
      total := total + 1;
      i := j + 1;
    }
  }

  // ----- the spans of both values -----

  predicate In(i: nat, r: Run) {
    r.first <= i < r.last
  }

  lemma {:induction false} RunAround(t: seq<Sound>, i: nat) returns (r: Run)
    requires i < |t| && t[i].Playing?
    ensures r in Runs(t) && In(i, r)
  {
    StartIsFirst(t, i);
    var e := i + 1;
    while e < |t| && t[e] == t[i]
      invariant i < e <= |t| && forall k :: Start(t, i) <= k < e ==> t[k] == t[i]
    {
      e := e + 1;
    }
    r := Run(Start(t, i), e);
    RunsExactly(t, r);
  }

  lemma {:induction false} OneRunAround(t: seq<Sound>, i: nat, r: Run, s: Run)
    requires i < |t| && r in Runs(t) && s in Runs(t) && In(i, r) && In(i, s)
    ensures r == s
  {
    RunsExactly(t, r);
    RunsExactly(t, s);
    RunStart(t, r, i);
    RunStart(t, s, i);
    assert r.first == s.first;
  }

  /** Every frame is in exactly one span, of the one value or of the other. */
  lemma {:induction false} SpansPartition(flags: seq<nat>, i: nat) returns (value: bool, r: Run)
    requires i < |flags|
    ensures r in AllRuns(flags, value) && In(i, r)
    ensures forall v, s :: s in AllRuns(flags, v) && In(i, s) ==> v == value && s == r
  {
    value := flags[i] != 0;
    var t := Trace(flags, value);
    r := RunAround(t, i);
    forall v, s | s in AllRuns(flags, v) && In(i, s) ensures v == value && s == r {
      var u := Trace(flags, v);
      RunsExactly(u, s);
      assert u[i] == u[s.first];
      OneRunAround(t, i, r, s);
    }
  }

  /** A written span begins and ends with the first and the last frame of its run, and all its frames have the value. */
  lemma SpanHasItsFrames(flags: seq<nat>, value: bool, base: nat, r: Run, frame: nat)
    requires r in AllRuns(flags, value)
    ensures r.first < r.last <= |flags|
    ensures var s := SpanOf(base, r);
            && (s.first <= frame <= s.last <==> base <= frame && In(frame - base, r))
            && (s.first <= frame <= s.last ==> (flags[frame - base] != 0) == value)
            && (s.first > base ==> (flags[s.first - base - 1] != 0) != value)
            && (s.last + 1 < base + |flags| ==> (flags[s.last - base + 1] != 0) != value)
  {
    RunsExactly(Trace(flags, value), r);
  }
}
