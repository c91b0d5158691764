/**
 One sound source of the audio event log: a run-length list of (ticks, value)
 events written by audio_changed() and moved across a frame cut by
 audiolog_finish_20ms_frame() (src/emulator/audio.c).

 Time stamps are unbounded here; the 32-bit width of count_ticks and of
 ticks_remaining is written out with Wrap.
 */
module SourceLogs {

  const WORD: nat := 0x1_0000_0000

  /** The uint32_t truncation of a difference of two 64-bit time stamps. */
  function Wrap(x: int): nat {
    x % 0x1_0000_0000
  }

  /** A change of the source to `value` at the absolute tick `time`. */
  datatype Change = Change(time: int, value: int)

  datatype Event = Event(count: nat, value: int)

  datatype Source = Source(lastTs: int, lastValue: int, samples: seq<Event>)

  // ----- the operations on one source -----

  /** A source of a log created at `first` and initialised with `value`. */
  function Fresh(first: int, value: int): Source {
    Source(first, value, [])
  }

  function SetLast(es: seq<Event>, count: nat): seq<Event>
    requires es != []
  {
    es[|es| - 1 := Event(count, es[|es| - 1].value)]
  }

  /** audio_changed(): close the open event and open a new one. */
  function Changed(s: Source, value: int, t: int): Source {
    if s.lastValue == value then s
    else
      var open := if s.samples == [] then [Event(0, s.lastValue)] else s.samples;
      Source(t, value, SetLast(open, Wrap(t - s.lastTs)) + [Event(0, value)])
  }

  /** The end of a frame closes the open event of a source that has one. */
  function Closed(s: Source, total: int): Source {
    if s.samples == [] then s else s.(samples := SetLast(s.samples, Wrap(total - s.lastTs)))
  }

  /**
   The backward walk of audiolog_finish_20ms_frame(): the index of the event
   that spans the cut and the ticks of it that lie past the cut.
   */
  function Walk(es: seq<Event>, k: nat, remaining: nat): (r: (nat, nat))
    requires k < |es|
    ensures r.0 <= k
  {
    if k == 0 || es[k].count >= remaining then (k, remaining)
    else Walk(es, k - 1, remaining - es[k].count)
  }

  /** The copy loop: each event becomes a change of the new log at a running time stamp. */
  function Replay(s: Source, es: seq<Event>, stamp: int): Source
    decreases |es|
  {
    if es == [] then s
    else Replay(Changed(s, es[0].value, stamp), es[1..], stamp + es[0].count)
  }

  /** Does the cut at `cut` of a frame ending at `total` split the source? */
  predicate Splits(s: Source, cut: int, total: int) {
    Wrap(total - cut) != 0 && s.samples != []
  }

  /** The index of the event of `s` that spans the cut. */
  function SplitIndex(s: Source, cut: int, total: int): (k: nat)
    requires Splits(s, cut, total)
    ensures k < |s.samples|
  {
    Walk(s.samples, |s.samples| - 1, Wrap(total - cut)).0
  }

  /**
   The time stamp given to the first moved event. The walk assigns it only
   when it stops at an index above 0; otherwise it keeps its initial 0.
   */
  function SplitStamp(s: Source, cut: int, total: int): int
    requires Splits(s, cut, total)
  {
    var (k, remaining) := Walk(s.samples, |s.samples| - 1, Wrap(total - cut));
    if k > 0 then cut + remaining else 0
  }

  /** The part of a closed source that stays in the finished log. */
  function Kept(s: Source, cut: int, total: int): Source {
    if Splits(s, cut, total) then s.(samples := s.samples[..SplitIndex(s, cut, total) + 1]) else s
  }

  /** The source the next log starts with. */
  function Carried(s: Source, cut: int, total: int): Source {
    if Splits(s, cut, total) then
      var k := SplitIndex(s, cut, total);
      Replay(Fresh(cut, s.samples[k].value), s.samples[k + 1..], SplitStamp(s, cut, total))
    else
      Fresh(cut, s.lastValue)
  }

  // ----- what a source means -----

  /** The changes a list of events stands for, the first event starting at `t`. */
  function Starts(t: int, es: seq<Event>): seq<Change>
    decreases |es|
  {
    if |es| <= 1 then []
    else [Change(t + es[0].count, es[1].value)] + Starts(t + es[0].count, es[1..])
  }

  /** The value a reader of the log finds at tick `at`: the last event that has started. */
  function Decode(t: int, es: seq<Event>, at: int): int
    requires es != []
    decreases |es|
  {
    if |es| == 1 || at < t + es[0].count then es[0].value
    else Decode(t + es[0].count, es[1..], at)
  }

  /** The value of a source at tick `at`; a source without events is constant. */
  function SourceAt(s: Source, first: int, at: int): int {
    if s.samples == [] then s.lastValue else Decode(first, s.samples, at)
  }

  /** The reference: the value last written at or before tick `at`. */
  function WaveAt(init: int, h: seq<Change>, at: int): int {
    if h == [] then init
    else if h[|h| - 1].time <= at then h[|h| - 1].value
    else WaveAt(init, h[..|h| - 1], at)
  }

  /** The value in force after the first `i` changes. */
  function ValueAfter(init: int, h: seq<Change>, i: nat): int
    requires i <= |h|
  {
    if i == 0 then init else h[i - 1].value
  }

  /** The tick of the last of the first `i` changes. */
  function TimeAfter(first: int, h: seq<Change>, i: nat): int
    requires i <= |h|
  {
    if i == 0 then first else h[i - 1].time
  }

  function LastValue(init: int, h: seq<Change>): int {
    ValueAfter(init, h, |h|)
  }

  function LastTime(first: int, h: seq<Change>): int {
    TimeAfter(first, h, |h|)
  }

  /** A write of `value` at `t`; a write of the current value is no change. */
  function Note(init: int, h: seq<Change>, value: int, t: int): seq<Change> {
    if LastValue(init, h) == value then h else h + [Change(t, value)]
  }

  ghost predicate Ordered(first: int, h: seq<Change>) {
    && (forall i :: 0 <= i < |h| ==> first <= h[i].time)
    && (forall i, j :: 0 <= i < j < |h| ==> h[i].time <= h[j].time)
  }

  ghost predicate Alternating(init: int, h: seq<Change>) {
    forall i {:trigger ValueAfter(init, h, i)} :: 0 <= i < |h| ==> h[i].value != ValueAfter(init, h, i)
  }

  /** How many changes of `h` happen at or before `cut`. */
  function Upto(h: seq<Change>, cut: int): (k: nat)
    ensures k <= |h|
  {
    if h == [] || h[|h| - 1].time <= cut then |h| else Upto(h[..|h| - 1], cut)
  }

  // ----- the representation invariant -----

  ghost predicate Spells(es: seq<Event>, first: int, init: int, h: seq<Change>) {
    && |es| == |h| + 1
    && (forall i {:trigger es[i]} :: 0 <= i <= |h| ==> es[i].value == ValueAfter(init, h, i))
    && (forall i {:trigger es[i]} :: 0 <= i < |h| ==> es[i].count == Wrap(h[i].time - TimeAfter(first, h, i)))
  }

  /** `s`, in a log created at `first`, is the run-length form of the changes `h` after `init`. */
  ghost predicate Describes(s: Source, first: int, init: int, h: seq<Change>) {
    && s.lastValue == LastValue(init, h)
    && (s.lastTs - LastTime(first, h)) % 0x1_0000_0000 == 0
    && (h == [] ==> s.samples == [])
    && (h != [] ==> Spells(s.samples, first, init, h))
  }

  // ----- lemmas -----

  lemma WrapCongruent(t: int, a: int, b: int)
    requires (a - b) % 0x1_0000_0000 == 0
    ensures Wrap(t - a) == Wrap(t - b)
  {
    var q := (a - b) / 0x1_0000_0000;
    assert t - b == (t - a) + q * 0x1_0000_0000;
  }

  lemma WrapSmall(x: int)
    requires 0 <= x < WORD
    ensures Wrap(x) == x
  {
  }

  lemma PrefixOfPrefix<T>(h: seq<T>, i: nat, j: nat)
    requires i <= j <= |h|
    ensures h[..j][..i] == h[..i]
  {
  }

  lemma SpellsMore(es: seq<Event>, first: int, init: int, h: seq<Change>, c: Change)
    requires Spells(es, first, init, h)
    ensures Spells(SetLast(es, Wrap(c.time - LastTime(first, h))) + [Event(0, c.value)], first, init, h + [c])
  {
    var h' := h + [c];
    assert forall i {:trigger ValueAfter(init, h', i)} :: 0 <= i <= |h| ==> ValueAfter(init, h', i) == ValueAfter(init, h, i);
    assert forall i {:trigger TimeAfter(first, h', i)} :: 0 <= i <= |h| ==> TimeAfter(first, h', i) == TimeAfter(first, h, i);
  }

  /** audio_changed() refines the abstract write: nothing but the written value enters the log. */
  lemma ChangedDescribes(s: Source, first: int, init: int, h: seq<Change>, value: int, t: int)
    requires Describes(s, first, init, h)
    ensures Describes(Changed(s, value, t), first, init, Note(init, h, value, t))
  {
    if s.lastValue != value {
      var open := if s.samples == [] then [Event(0, s.lastValue)] else s.samples;
      WrapCongruent(t, s.lastTs, LastTime(first, h));
      SpellsMore(open, first, init, h, Change(t, value));
    }
  }

  lemma SpellsTail(es: seq<Event>, first: int, init: int, h: seq<Change>)
    requires Spells(es, first, init, h) && Ordered(first, h) && h != []
    ensures Spells(es[1..], h[0].time, h[0].value, h[1..])
    ensures Ordered(h[0].time, h[1..])
    ensures LastTime(h[0].time, h[1..]) == LastTime(first, h)
  {
  }

  /** Reading the counts back gives the changes at their own ticks. */
  lemma {:induction false} StartsOfSpelling(es: seq<Event>, first: int, init: int, h: seq<Change>)
    requires Spells(es, first, init, h) && Ordered(first, h)
    requires LastTime(first, h) - first < WORD
    ensures Starts(first, es) == h
    decreases |h|
  {
    if h != [] {
      WrapSmall(h[0].time - first);
      SpellsTail(es, first, init, h);
      StartsOfSpelling(es[1..], h[0].time, h[0].value, h[1..]);
    }
  }

  lemma {:induction false} WaveTail(init: int, h: seq<Change>, at: int)
    requires h != [] && (forall i :: 0 <= i < |h| ==> h[0].time <= h[i].time)
    ensures WaveAt(init, h, at) == if at < h[0].time then init else WaveAt(h[0].value, h[1..], at)
  {
    if h[|h| - 1].time > at && |h| > 1 {
      WaveTail(init, h[..|h| - 1], at);
      assert h[..|h| - 1][1..] == h[1..][..|h| - 2];
    }
  }

  /** Decoding the run lengths gives the last value written at or before every tick. */
  lemma {:induction false} DecodeIsWave(es: seq<Event>, first: int, init: int, h: seq<Change>, at: int)
    requires Spells(es, first, init, h) && Ordered(first, h)
    requires LastTime(first, h) - first < WORD
    ensures Decode(first, es, at) == WaveAt(init, h, at)
    decreases |h|
  {
    if h != [] {
      WrapSmall(h[0].time - first);
      SpellsTail(es, first, init, h);
      DecodeIsWave(es[1..], h[0].time, h[0].value, h[1..], at);
      WaveTail(init, h, at);
    }
  }

  function TotalTicks(es: seq<Event>): nat {
    if es == [] then 0 else es[0].count + TotalTicks(es[1..])
  }

  /** The run-length invariant of a live source, in the terms of the source itself. */
  lemma {:induction false} CountsSpanTheLog(es: seq<Event>, first: int, init: int, h: seq<Change>)
    requires Spells(es, first, init, h) && Ordered(first, h)
    requires LastTime(first, h) - first < WORD
    ensures TotalTicks(es[..|h|]) == LastTime(first, h) - first
    decreases |h|
  {
    if h != [] {
      WrapSmall(h[0].time - first);
      SpellsTail(es, first, init, h);
      CountsSpanTheLog(es[1..], h[0].time, h[0].value, h[1..]);
      assert es[..|h|][1..] == es[1..][..|h| - 1];
    }
  }

  lemma {:induction false} TotalTicksSplit(es: seq<Event>, last: Event)
    ensures TotalTicks(es + [last]) == TotalTicks(es) + last.count
  {
    if es != [] {
      TotalTicksSplit(es[1..], last);
      assert (es + [last])[1..] == es[1..] + [last];
    }
  }

  /** After a frame is closed, the counts of a source with events sum to the frame length. */
  lemma ClosedFillsTheFrame(s: Source, first: int, init: int, h: seq<Change>, total: int)
    requires Describes(s, first, init, h) && Ordered(first, h) && h != []
    requires LastTime(first, h) <= total && total - first < WORD
    ensures Spells(Closed(s, total).samples, first, init, h)
    ensures TotalTicks(Closed(s, total).samples) == total - first
  {
    var es := Closed(s, total).samples;
    WrapCongruent(total, s.lastTs, LastTime(first, h));
    WrapSmall(total - LastTime(first, h));
    CountsSpanTheLog(es, first, init, h);
    TotalTicksSplit(es[..|h|], es[|h|]);
    assert es[..|h|] + [es[|h|]] == es;
  }

  // ----- the cut -----

  lemma {:induction false} UptoSplits(first: int, h: seq<Change>, cut: int)
    requires Ordered(first, h)
    ensures var k := Upto(h, cut);
            (forall i :: 0 <= i < k ==> h[i].time <= cut) && (forall i :: k <= i < |h| ==> cut < h[i].time)
  {
    if h != [] && h[|h| - 1].time > cut {
      var h' := h[..|h| - 1];
      UptoSplits(first, h', cut);
      var k := Upto(h', cut);
      forall i | 0 <= i < |h| ensures (i < k ==> h[i].time <= cut) && (k <= i ==> cut < h[i].time) {
        if i < |h'| { assert h[i] == h'[i]; }
      }
    }
  }

  /** The walk stops at the last event that has started by the cut and measures its rest. */
  lemma {:induction false} WalkFinds(es: seq<Event>, first: int, init: int, h: seq<Change>, k: nat, cut: int, end: int)
    requires Spells(es, first, init, h) && Ordered(first, h)
    requires k <= |h| && first <= cut < end && end - first < WORD
    requires k < |h| ==> end == h[k].time
    requires k == |h| ==> LastTime(first, h) <= end && es[k].count == Wrap(end - LastTime(first, h))
    ensures Upto(h[..k], cut) <= k
    ensures var (j, remaining) := Walk(es, k, end - cut);
            && j == Upto(h[..k], cut)
            && remaining == (if j == k then end else h[j].time) - cut
    decreases k
  {
    if k > 0 {
      var before := h[k - 1].time;
      assert TimeAfter(first, h, k) == before;
      WrapSmall(end - before);
      assert es[k].count == end - before;
      if before > cut {
        assert h[..k][..k - 1] == h[..k - 1];
        WalkFinds(es, first, init, h, k - 1, cut, before);
      }
    }
  }

  /** Events whose counts are the distances between the changes they stand for. */
  ghost predicate Mirrors(es: seq<Event>, m: seq<Change>) {
    && |es| == |m|
    && (forall i {:trigger es[i]} :: 0 <= i < |m| ==> es[i].value == m[i].value)
    && (forall i {:trigger es[i]} :: 0 <= i < |m| - 1 ==> es[i].count == m[i + 1].time - m[i].time)
  }

  lemma AlternatingShift(init: int, h: seq<Change>, m: seq<Change>, c: Change)
    requires Alternating(init, h + m) && m != [] && c.value == m[0].value
    ensures Alternating(init, h + [c] + m[1..])
  {
    var a, b := h + m, h + [c] + m[1..];
    forall i | 0 <= i < |b| ensures b[i].value != ValueAfter(init, b, i) {
      assert a[i].value == b[i].value && a[i].value != ValueAfter(init, a, i);
      assert i > 0 ==> a[..i][i - 1].value == b[..i][i - 1].value;
    }
  }

  lemma ReplayHead(s: Source, first: int, init: int, h: seq<Change>, m: seq<Change>, stamp: int)
    requires Describes(s, first, init, h) && m != [] && Alternating(init, h + m)
    ensures var h' := h + [Change(stamp, m[0].value)];
            Describes(Changed(s, m[0].value, stamp), first, init, h') && Alternating(init, h' + m[1..])
  {
    assert (h + m)[|h|] == m[0] && ValueAfter(init, h + m, |h|) == LastValue(init, h);
    ChangedDescribes(s, first, init, h, m[0].value, stamp);
    AlternatingShift(init, h, m, Change(stamp, m[0].value));
  }

  lemma MirrorsTail(es: seq<Event>, m: seq<Change>)
    requires Mirrors(es, m) && m != []
    ensures es[0].value == m[0].value && Mirrors(es[1..], m[1..])
    ensures |m| > 1 ==> es[0].count == m[1].time - m[0].time
  {
    assert forall i {:trigger es[1..][i]} :: 0 <= i < |m| - 1 ==> es[1..][i] == es[i + 1];
  }

  function Shifted(m: seq<Change>, shift: int): seq<Change> {
    seq(|m|, i requires 0 <= i < |m| => Change(m[i].time + shift, m[i].value))
  }

  /** Copying events puts the changes they stand for into the new log, all shifted by the same distance. */
  lemma {:induction false} ReplayDescribes(s: Source, first: int, init: int, h: seq<Change>,
                                           es: seq<Event>, m: seq<Change>, stamp: int, shift: int)
    requires Describes(s, first, init, h)
    requires Mirrors(es, m) && Alternating(init, h + m)
    requires m != [] ==> stamp == m[0].time + shift
    ensures Describes(Replay(s, es, stamp), first, init, h + Shifted(m, shift))
    decreases |m|
  {
    if m == [] {
      assert h + Shifted(m, shift) == h;
    } else {
      var c := Change(stamp, m[0].value);
      ReplayHead(s, first, init, h, m, stamp);
      MirrorsTail(es, m);
      ReplayDescribes(Changed(s, m[0].value, stamp), first, init, h + [c], es[1..], m[1..], stamp + es[0].count, shift);
      assert h + [c] + Shifted(m[1..], shift) == h + Shifted(m, shift);
    }
  }

  /** What the walk of the code finds in a closed source. */
  lemma {:induction false} SplitFinds(s: Source, first: int, init: int, h: seq<Change>, cut: int, total: int)
    requires Describes(s, first, init, h) && Ordered(first, h)
    requires first <= cut < total && LastTime(first, h) <= total && total - first < WORD
    requires h != []
    ensures var c := Closed(s, total);
            && Splits(c, cut, total)
            && Spells(c.samples, first, init, h)
            && SplitIndex(c, cut, total) == Upto(h, cut)
            && (0 < Upto(h, cut) < |h| ==> SplitStamp(c, cut, total) == h[Upto(h, cut)].time)
            && (Upto(h, cut) == 0 ==> SplitStamp(c, cut, total) == 0)
  {
    var c := Closed(s, total);
    WrapCongruent(total, s.lastTs, LastTime(first, h));
    WrapSmall(total - cut);
    ClosedFillsTheFrame(s, first, init, h, total);
    assert h[..|h|] == h;
    WalkFinds(c.samples, first, init, h, |h|, cut, total);
  }

  /** The finished log keeps exactly the changes up to the cut, whatever happens to the rest. */
  lemma {:induction false} KeptIsPrefix(s: Source, first: int, init: int, h: seq<Change>, cut: int, total: int)
    requires Describes(s, first, init, h) && Ordered(first, h)
    requires first <= cut <= total && LastTime(first, h) <= total && total - first < WORD
    ensures var kept := Kept(Closed(s, total), cut, total).samples;
            if h == [] then kept == [] else Spells(kept, first, init, h[..Upto(h, cut)])
  {
    if h != [] {
      var k := Upto(h, cut);
      WrapSmall(total - cut);
      UptoSplits(first, h, cut);
      if cut < total {
        SplitFinds(s, first, init, h, cut, total);
        forall i | 0 <= i < k ensures h[..k][..i] == h[..i] { PrefixOfPrefix(h, i, k); }
      } else {
        assert k == |h| && h[..k] == h;
        ClosedFillsTheFrame(s, first, init, h, total);
      }
    }
  }

  /** The guard under which the moved changes get their own time stamps. */
  predicate CutIsSafe(h: seq<Change>, cut: int) {
    h == [] || h[0].time <= cut || h[0].time % 0x1_0000_0000 == 0
  }

  /** The time stamp the walk would assign at index 0 as well, had it not stopped before. */
  function IntendedStamp(h: seq<Change>, cut: int): int
    requires Upto(h, cut) < |h|
  {
    h[Upto(h, cut)].time
  }

  /** The source the next log would start with if the stamp were assigned in every case. */
  function CarriedWith(s: Source, cut: int, total: int, stamp: int): Source
    requires Splits(s, cut, total)
  {
    var k := SplitIndex(s, cut, total);
    Replay(Fresh(cut, s.samples[k].value), s.samples[k + 1..], stamp)
  }

  /** The events past index `k` are the changes past `k`, with their distances as counts. */
  lemma SuffixMirrors(es: seq<Event>, first: int, init: int, h: seq<Change>, k: nat)
    requires Spells(es, first, init, h) && Ordered(first, h) && k < |h|
    requires LastTime(first, h) - first < WORD
    ensures Mirrors(es[k + 1..], h[k..])
  {
    var fs, m := es[k + 1..], h[k..];
    forall i | 0 <= i < |m| - 1 ensures fs[i].count == m[i + 1].time - m[i].time {
      assert fs[i] == es[k + 1 + i];
      WrapSmall(h[k + 1 + i].time - h[k + i].time);
    }
    assert forall i {:trigger fs[i]} :: 0 <= i < |m| ==> fs[i] == es[k + 1 + i];
  }

  lemma SuffixAlternates(init: int, h: seq<Change>, k: nat)
    requires Alternating(init, h) && k <= |h|
    ensures Alternating(ValueAfter(init, h, k), [] + h[k..])
  {
    var init', m := ValueAfter(init, h, k), h[k..];
    assert [] + m == m;
    assert forall i {:trigger ValueAfter(init', m, i)} :: 0 <= i < |m| ==> ValueAfter(init', m, i) == ValueAfter(init, h, k + i);
  }

  /** Replaying the events past index `k` from the tick of change `k` gives the changes from `k` on. */
  lemma {:induction false} MovedDescribes(es: seq<Event>, first: int, init: int, h: seq<Change>, k: nat, cut: int)
    requires Spells(es, first, init, h) && Ordered(first, h) && Alternating(init, h) && k < |h|
    requires LastTime(first, h) - first < WORD
    ensures Describes(Replay(Fresh(cut, es[k].value), es[k + 1..], h[k].time), cut, ValueAfter(init, h, k), h[k..])
  {
    var init' := ValueAfter(init, h, k);
    SuffixMirrors(es, first, init, h, k);
    SuffixAlternates(init, h, k);
    ReplayDescribes(Fresh(cut, init'), cut, init', [], es[k + 1..], h[k..], h[k].time, 0);
    assert [] + Shifted(h[k..], 0) == h[k..];
  }

  /**
   With the intended stamp the cut is right in every case; above index 0 it is
   the stamp the code uses.
   */
  lemma {:induction false} CarriedMoves(s: Source, first: int, init: int, h: seq<Change>, cut: int, total: int)
    requires Describes(s, first, init, h) && Ordered(first, h) && Alternating(init, h)
    requires first <= cut < total && LastTime(first, h) <= total && total - first < WORD
    requires Upto(h, cut) < |h|
    ensures Splits(Closed(s, total), cut, total)
    ensures var k := Upto(h, cut);
            var c := Closed(s, total);
            && Describes(CarriedWith(c, cut, total, IntendedStamp(h, cut)), cut, ValueAfter(init, h, k), h[k..])
            && (k > 0 ==> SplitStamp(c, cut, total) == IntendedStamp(h, cut))
  {
    SplitFinds(s, first, init, h, cut, total);
    MovedDescribes(Closed(s, total).samples, first, init, h, Upto(h, cut), cut);
  }

  lemma ReplayUnstamped(es: seq<Event>, first: int, init: int, h: seq<Change>, cut: int)
    requires Spells(es, first, init, h) && Ordered(first, h) && Alternating(init, h) && h != []
    requires LastTime(first, h) - first < WORD
    ensures Describes(Replay(Fresh(cut, init), es[1..], 0), cut, init, Shifted(h, -h[0].time))
  {
    assert h[0..] == h;
    SuffixMirrors(es, first, init, h, 0);
    SuffixAlternates(init, h, 0);
    ReplayDescribes(Fresh(cut, init), cut, init, [], es[1..], h, 0, -h[0].time);
    assert [] + Shifted(h, -h[0].time) == Shifted(h, -h[0].time);
  }

  lemma MultipleIsZero(q: int, t: int)
    requires t == q * 0x1_0000_0000
    ensures t % 0x1_0000_0000 == 0
  {
  }

  lemma WrapShift(cut: int, t: int)
    ensures Wrap(0 - cut) == Wrap(t - cut) <==> t % 0x1_0000_0000 == 0
  {
    var a, b := (0 - cut) / 0x1_0000_0000, (t - cut) / 0x1_0000_0000;
    if Wrap(0 - cut) == Wrap(t - cut) {
      assert t == (t - cut) - (0 - cut) == (b - a) * 0x1_0000_0000;
      MultipleIsZero(b - a, t);
    }
    if t % 0x1_0000_0000 == 0 {
      WrapCongruent(t - cut, t, 0);
    }
  }

  lemma LastCongruent(ts: int, last: int, step: int)
    requires step % 0x1_0000_0000 == 0
    requires (ts - (last - step)) % 0x1_0000_0000 == 0
    ensures (ts - last) % 0x1_0000_0000 == 0
  {
    var a, b := (ts - (last - step)) / 0x1_0000_0000, step / 0x1_0000_0000;
    MultipleIsZero(a - b, ts - last);
  }

  /** Only the distances and the 32-bit rest of the first one are stored. */
  lemma ShiftDescribes(c: Source, cut: int, init: int, h: seq<Change>, shift: int)
    requires h != [] && shift == -h[0].time
    requires Describes(c, cut, init, Shifted(h, shift))
    ensures Describes(c, cut, init, h) <==> h[0].time % 0x1_0000_0000 == 0
  {
    var sh := Shifted(h, shift);
    WrapShift(cut, h[0].time);
    assert forall i {:trigger ValueAfter(init, sh, i)} :: 0 <= i <= |h| ==> ValueAfter(init, sh, i) == ValueAfter(init, h, i);
    if h[0].time % 0x1_0000_0000 == 0 {
      assert forall i {:trigger TimeAfter(cut, sh, i)} :: 0 < i <= |h| ==> TimeAfter(cut, sh, i) == TimeAfter(cut, h, i) + shift;
      LastCongruent(c.lastTs, h[|h| - 1].time, h[0].time);
    }
  }

  lemma {:induction false} UnstampedReplays(s: Source, first: int, init: int, h: seq<Change>, cut: int, total: int)
    requires Describes(s, first, init, h) && Ordered(first, h)
    requires first <= cut < total && LastTime(first, h) <= total && total - first < WORD
    requires h != [] && Upto(h, cut) == 0
    ensures var es := Closed(s, total).samples;
            && Spells(es, first, init, h)
            && Carried(Closed(s, total), cut, total) == Replay(Fresh(cut, init), es[1..], 0)
  {
    SplitFinds(s, first, init, h, cut, total);
  }

  /** The case of the missing stamp: every moved change lands at its distance from the first one. */
  lemma UnstampedMoves(s: Source, first: int, init: int, h: seq<Change>, cut: int, total: int)
    requires Describes(s, first, init, h) && Ordered(first, h) && Alternating(init, h)
    requires first <= cut < total && LastTime(first, h) <= total && total - first < WORD
    requires h != [] && Upto(h, cut) == 0
    ensures var c := Carried(Closed(s, total), cut, total);
            && Describes(c, cut, init, Shifted(h, -h[0].time))
            && (Describes(c, cut, init, h) <==> h[0].time % 0x1_0000_0000 == 0)
  {
    UnstampedReplays(s, first, init, h, cut, total);
    ReplayUnstamped(Closed(s, total).samples, first, init, h, cut);
    ShiftDescribes(Carried(Closed(s, total), cut, total), cut, init, h, -h[0].time);
  }

  /**
   The cut of audiolog_finish_20ms_frame(), exactly: the next log describes the
   changes past the cut if and only if the frame has no change of the source,
   or its first change is not past the cut, or that change is at a multiple of
   2^32 ticks. In the remaining case event_timestamp is still 0 when the events
   are copied.
   */
  lemma {:induction false} CarriedIffSafe(s: Source, first: int, init: int, h: seq<Change>, cut: int, total: int)
    requires Describes(s, first, init, h) && Ordered(first, h) && Alternating(init, h)
    requires first <= cut <= total && LastTime(first, h) <= total && total - first < WORD
    ensures var k := Upto(h, cut);
            Describes(Carried(Closed(s, total), cut, total), cut, ValueAfter(init, h, k), h[k..])
            <==> CutIsSafe(h, cut)
  {
    var k := Upto(h, cut);
    UptoSplits(first, h, cut);
    WrapSmall(total - cut);
    if h == [] || cut == total {
      assert k == |h| && h[..k] == h && h[k..] == [];
    } else {
      SplitFinds(s, first, init, h, cut, total);
      if k == |h| {
        assert h[..k] == h && h[k..] == [];
      } else if k == 0 {
        assert h[0..] == h;
        UnstampedMoves(s, first, init, h, cut, total);
      } else {
        CarriedMoves(s, first, init, h, cut, total);
        var c := Closed(s, total);
        assert Carried(c, cut, total) == CarriedWith(c, cut, total, IntendedStamp(h, cut));
      }
    }
  }

  /** After an unsafe cut already the first change is read back at another tick. */
  lemma {:induction false} UnsafeReadsBackWrong(s: Source, first: int, init: int, h: seq<Change>, cut: int, total: int)
    requires Describes(s, first, init, h) && Ordered(first, h) && Alternating(init, h)
    requires first <= cut <= total && LastTime(first, h) <= total && total - first < WORD
    requires !CutIsSafe(h, cut) && Upto(h, cut) == 0
    ensures Starts(cut, Carried(Closed(s, total), cut, total).samples) != h
  {
    var c := Carried(Closed(s, total), cut, total);
    UnstampedMoves(s, first, init, h, cut, total);
    assert c.samples[0].count == Wrap(0 - cut);
    WrapShift(cut, h[0].time);
    WrapSmall(h[0].time - cut);
  }

  /**
   The same condition in the terms of a reader of the logs: the changes read
   back from the next log are the changes past the cut, at their own ticks, if
   and only if the cut is safe.
   */
  lemma {:induction false} ReadBackIffSafe(s: Source, first: int, init: int, h: seq<Change>, cut: int, total: int)
    requires Describes(s, first, init, h) && Ordered(first, h) && Alternating(init, h)
    requires first <= cut <= total && LastTime(first, h) <= total && total - first < WORD
    ensures Starts(cut, Carried(Closed(s, total), cut, total).samples) == h[Upto(h, cut)..] <==> CutIsSafe(h, cut)
  {
    var k := Upto(h, cut);
    var c := Carried(Closed(s, total), cut, total);
    CarriedIffSafe(s, first, init, h, cut, total);
    UptoSplits(first, h, cut);
    if CutIsSafe(h, cut) {
      if k < |h| {
        StartsOfSpelling(c.samples, cut, ValueAfter(init, h, k), h[k..]);
      }
    } else {
      UnsafeReadsBackWrong(s, first, init, h, cut, total);
    }
  }
}
