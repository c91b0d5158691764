/**
 What the audio log means over a whole run: the finished logs, each read up to
 the start of its successor, followed by the current log, against the history of
 everything that was written to each source.
 */
module AudioHistory {
  import opened SourceLogs
  import opened AudioMachine
  import opened AudioLaziness
  import Psg

  /** One list of changes per source, all sources starting at value 0. */
  type History = seq<seq<Change>>

  // ----- the reference: what an operation writes, and when -----

  function WrittenByStep(b: Board, m: Machine, hist: History): History
    requires WellFormed(b, m) && |hist| == |m.log.src|
  {
    var psg := Psg.Step(m.psg);
    seq(|hist|, i requires 0 <= i < |hist| =>
          if Driven(b, psg, i) then Note(0, hist[i], DrivenLevel(b, psg, i), m.log.lastPsg) else hist[i])
  }

  function WrittenByFill(b: Board, m: Machine, hist: History, t: int): (r: History)
    requires WellFormed(b, m) && |hist| == |m.log.src|
    ensures |r| == |hist|
    decreases t - m.log.lastPsg
  {
    if b.havePsg != 0 && t - m.log.lastPsg >= b.divider then
      StepFillWellFormed(b, m);
      WrittenByFill(b, StepFill(b, m), WrittenByStep(b, m, hist), t)
    else hist
  }

  function WrittenByChipWrite(b: Board, m: Machine, hist: History, c: nat, value: Psg.byte, t: int): (r: History)
    requires WellFormed(b, m) && |hist| == |m.log.src| && c < 2
    ensures |r| == |hist|
  {
    if Psg.NeedsFill(m.psg.chips[c], value) then WrittenByFill(b, m, hist, t) else hist
  }

  lemma ChipWriteKeepsShape(b: Board, m: Machine, c: nat, value: Psg.byte, t: int)
    requires WellFormed(b, m) && m.log.first <= t && c < 2
    ensures |WriteChip(b, m, c, value, t).log.src| == |m.log.src|
  {
    FillKeepsFirst(b, m, t);
  }

  function Written(b: Board, m: Machine, hist: History, op: Op): (r: History)
    requires WellFormed(b, m) && |hist| == |m.log.src| && m.log.first <= op.at
    ensures |r| == |hist|
  {
    match op
    case Ctc0(on, at) => hist[CTC0 := Note(0, hist[CTC0], if on then Psg.MAX_LEVEL else 0, at)]
    case Write(left, right, value, at) =>
      if !m.psg.stereo then WrittenByChipWrite(b, m, hist, 0, value, at)
      else
        var h1 := if left then WrittenByChipWrite(b, m, hist, 0, value, at) else hist;
        var m1 := if left then WriteChip(b, m, 0, value, at) else m;
        ChipWriteKeepsShape(b, m, 0, value, at);
        if right then WrittenByChipWrite(b, m1, h1, 1, value, at) else h1
    case Fill(at) => WrittenByFill(b, m, hist, at)
    case Finish(at) => WrittenByFill(b, m, hist, at)
  }

  // ----- reading the logs back -----

  /** All changes of source `i` in the finished logs, in order. */
  function ReadBack(closed: seq<Log>, i: nat): seq<Change>
    requires forall l :: l in closed ==> i < |l.src|
  {
    if closed == [] then []
    else
      var l := closed[|closed| - 1];
      ReadBack(closed[..|closed| - 1], i) + Starts(l.first, l.src[i].samples)
  }

  /** The value of source `i` at tick `at`, each log being read from its start to the start of the next one. */
  function PlayAt(closed: seq<Log>, log: Log, i: nat, at: int): int
    requires i < |log.src| && forall l :: l in closed ==> i < |l.src|
    decreases |closed|
  {
    if closed == [] || log.first <= at then SourceAt(log.src[i], log.first, at)
    else PlayAt(closed[..|closed| - 1], closed[|closed| - 1], i, at)
  }

  // ----- the invariant -----

  ghost predicate Before(h: seq<Change>, t: int) {
    forall k :: 0 <= k < |h| ==> h[k].time <= t
  }

  /**
   Source `i` of the machine holds the history `h`: the finished logs give back a
   prefix of it, none of it after the start of the current log, and the current
   log is the run-length form of the rest.
   */
  ghost predicate Keeps(closed: seq<Log>, log: Log, i: nat, h: seq<Change>, now: int)
    requires i < |log.src| && forall l :: l in closed ==> i < |l.src|
  {
    var past := ReadBack(closed, i);
    var n := |past|;
    && n <= |h| && past == h[..n]
    && Alternating(0, h)
    && Before(h[..n], log.first)
    && Ordered(log.first, h[n..])
    && LastTime(log.first, h[n..]) <= now
    && Describes(log.src[i], log.first, ValueAfter(0, h, n), h[n..])
  }

  /** CTC0 is written live, the PSG sources up to the grid. */
  function Horizon(log: Log, i: nat, now: int): int {
    if i == CTC0 then now else log.lastPsg
  }

  ghost predicate Conserved(b: Board, m: Machine, hist: History, now: int) {
    && WellFormed(b, m) && |hist| == b.Sources()
    && m.log.lastPsg <= now
    && now - m.log.first < WORD
    && forall i :: 0 <= i < b.Sources() ==> Keeps(m.closed, m.log, i, hist[i], Horizon(m.log, i, now))
  }

  // ----- the invariant along a fill -----

  lemma NoteAlternates(h: seq<Change>, value: int, t: int)
    requires Alternating(0, h)
    ensures Alternating(0, Note(0, h, value, t))
  {
    var h' := Note(0, h, value, t);
    assert forall k {:trigger ValueAfter(0, h', k)} :: 0 <= k <= |h| ==> ValueAfter(0, h', k) == ValueAfter(0, h, k);
  }

  lemma NoteOrdered(first: int, init: int, h: seq<Change>, value: int, t: int)
    requires Ordered(first, h) && LastTime(first, h) <= t && first <= t
    ensures Ordered(first, Note(init, h, value, t)) && LastTime(first, Note(init, h, value, t)) <= t
  {
  }

  lemma {:induction false} KeepsNote(closed: seq<Log>, log: Log, i: nat, h: seq<Change>, now: int, value: int,
                                     t: int, s: Source)
    requires i < |log.src| && forall l :: l in closed ==> i < |l.src|
    requires Keeps(closed, log, i, h, now) && log.first <= now <= t
    requires s == Changed(log.src[i], value, t)
    ensures var n := |ReadBack(closed, i)|;
            var h' := Note(0, h, value, t);
            && n <= |h'| && h'[..n] == h[..n] && Alternating(0, h')
            && Ordered(log.first, h'[n..]) && LastTime(log.first, h'[n..]) <= t
            && ValueAfter(0, h', n) == ValueAfter(0, h, n)
            && Describes(s, log.first, ValueAfter(0, h, n), h'[n..])
  {
    var n := |ReadBack(closed, i)|;
    var cur := h[n..];
    var init := ValueAfter(0, h, n);
    assert LastValue(init, cur) == LastValue(0, h);
    ChangedDescribes(log.src[i], log.first, init, cur, value, t);
    NoteAlternates(h, value, t);
    NoteOrdered(log.first, init, cur, value, t);
    var h' := Note(0, h, value, t);
    assert h'[n..] == Note(init, cur, value, t);
  }

  lemma StepConserves(b: Board, m: Machine, hist: History, now: int)
    requires Conserved(b, m, hist, now) && m.log.lastPsg + b.divider <= now
    ensures Conserved(b, StepFill(b, m), WrittenByStep(b, m, hist), now)
  {
    var m', hist' := StepFill(b, m), WrittenByStep(b, m, hist);
    StepFillWellFormed(b, m);
    var psg := Psg.Step(m.psg);
    forall i | 0 <= i < b.Sources() ensures Keeps(m'.closed, m'.log, i, hist'[i], Horizon(m'.log, i, now)) {
      assert Keeps(m.closed, m.log, i, hist[i], Horizon(m.log, i, now));
      if Driven(b, psg, i) {
        KeepsNote(m.closed, m.log, i, hist[i], m.log.lastPsg, DrivenLevel(b, psg, i), m.log.lastPsg, m'.log.src[i]);
      }
    }
  }

  lemma {:induction false} FillConserves(b: Board, m: Machine, hist: History, now: int, t: int)
    requires Conserved(b, m, hist, now) && t <= now && (b.havePsg == 0 ==> m.log.lastPsg <= t)
    ensures Conserved(b, FillTo(b, m, t), WrittenByFill(b, m, hist, t), now)
    decreases t - m.log.lastPsg
  {
    if b.havePsg != 0 && t - m.log.lastPsg >= b.divider {
      StepConserves(b, m, hist, now);
      FillConserves(b, StepFill(b, m), WrittenByStep(b, m, hist), now, t);
    } else if b.havePsg == 0 {
      var f := FillTo(b, m, t);
      assert Keeps(m.closed, m.log, 0, hist[0], now);
      assert Keeps(f.closed, f.log, 0, hist[0], now);
    }
  }

  lemma KeepsLater(b: Board, m: Machine, hist: History, now: int, t: int)
    requires Conserved(b, m, hist, now) && now <= t && t - m.log.first < WORD
    ensures Conserved(b, m, hist, t)
  {
    forall i | 0 <= i < b.Sources() ensures Keeps(m.closed, m.log, i, hist[i], Horizon(m.log, i, t)) {
      assert Keeps(m.closed, m.log, i, hist[i], Horizon(m.log, i, now));
    }
  }

  // ----- the cut -----

  predicate SafeSource(s: Source, first: int, cut: int) {
    s.samples == [] || first + s.samples[0].count <= cut || (first + s.samples[0].count) % 0x1_0000_0000 == 0
  }

  /**
   The guard a caller can evaluate on the filled log: CTC0 has not changed in
   this frame, or its first change is not past the last PSG grid point, or that
   change is at a multiple of 2^32 ticks.
   */
  predicate SafeCut(log: Log)
    requires log.src != []
  {
    SafeSource(log.src[CTC0], log.first, log.lastPsg)
  }

  lemma GuardMeasuresFirstChange(s: Source, first: int, init: int, h: seq<Change>, cut: int)
    requires Describes(s, first, init, h) && Ordered(first, h)
    requires LastTime(first, h) - first < WORD
    ensures CutIsSafe(h, cut) <==> SafeSource(s, first, cut)
  {
    if h != [] {
      WrapSmall(h[0].time - first);
      assert s.samples[0].count == Wrap(h[0].time - TimeAfter(first, h, 0));
    }
  }

  lemma {:induction false} ReadBackMore(closed: seq<Log>, l: Log, i: nat)
    requires forall k :: k in closed + [l] ==> i < |k.src|
    ensures ReadBack(closed + [l], i) == ReadBack(closed, i) + Starts(l.first, l.src[i].samples)
  {
    assert (closed + [l])[..|closed|] == closed;
  }

  /** What a closed source gives back on its own. */
  lemma {:induction false} ClosedGivesBack(s: Source, first: int, init: int, h: seq<Change>, t: int)
    requires Describes(s, first, init, h) && Ordered(first, h)
    requires LastTime(first, h) <= t && t - first < WORD
    ensures Starts(first, Closed(s, t).samples) == h
  {
    if h != [] {
      ClosedFillsTheFrame(s, first, init, h, t);
      StartsOfSpelling(Closed(s, t).samples, first, init, h);
    }
  }

  lemma {:induction false} KeptGivesBack(s: Source, first: int, init: int, h: seq<Change>, cut: int, t: int)
    requires Describes(s, first, init, h) && Ordered(first, h)
    requires first <= cut <= t && LastTime(first, h) <= t && t - first < WORD
    ensures Starts(first, Kept(Closed(s, t), cut, t).samples) == h[..Upto(h, cut)]
  {
    KeptIsPrefix(s, first, init, h, cut, t);
    if h != [] {
      var k := Upto(h, cut);
      UptoSplits(first, h, cut);
      StartsOfSpelling(Kept(Closed(s, t), cut, t).samples, first, init, h[..k]);
    }
  }

  lemma AllBefore(h: seq<Change>, n: nat, first: int, now: int)
    requires n <= |h| && Before(h[..n], first) && Ordered(first, h[n..])
    requires first <= now && LastTime(first, h[n..]) <= now
    ensures Before(h, now)
  {
    var past, cur := h[..n], h[n..];
    forall k | 0 <= k < |h| ensures h[k].time <= now {
      if k < n { assert past[k] == h[k]; } else { assert cur[k - n] == h[k]; }
    }
  }

  lemma {:induction false} CutReadsPsg(b: Board, m: Machine, i: nat, h: seq<Change>, t: int)
    requires WellFormed(b, m) && 1 <= i < b.Sources() && m.log.lastPsg <= t && t - m.log.first < WORD
    requires Keeps(m.closed, m.log, i, h, m.log.lastPsg)
    ensures ReadBack(Cut(m, t).closed, i) == h
  {
    var n := |ReadBack(m.closed, i)|;
    ClosedGivesBack(m.log.src[i], m.log.first, ValueAfter(0, h, n), h[n..], t);
    ReadBackMore(m.closed, Finished(m.log, t), i);
    assert h[..n] + h[n..] == h;
  }

  /** A source that starts a log after everything of its history has been handed over. */
  lemma {:induction false} NothingOpen(closed: seq<Log>, log: Log, i: nat, h: seq<Change>, now: int)
    requires i < |log.src| && forall l :: l in closed ==> i < |l.src|
    requires ReadBack(closed, i) == h && Alternating(0, h) && Before(h, log.first) && log.first <= now
    requires log.src[i] == Fresh(log.first, LastValue(0, h))
    ensures Keeps(closed, log, i, h, now)
  {
    assert h[..|h|] == h && h[|h|..] == [];
  }

  lemma CutKeepsPsg(b: Board, m: Machine, i: nat, h: seq<Change>, t: int)
    requires WellFormed(b, m) && 1 <= i < b.Sources() && m.log.lastPsg <= t && t - m.log.first < WORD
    requires Keeps(m.closed, m.log, i, h, m.log.lastPsg)
    ensures Keeps(Cut(m, t).closed, Cut(m, t).log, i, h, m.log.lastPsg)
  {
    var n := |ReadBack(m.closed, i)|;
    CutReadsPsg(b, m, i, h, t);
    AllBefore(h, n, m.log.first, m.log.lastPsg);
    assert LastValue(ValueAfter(0, h, n), h[n..]) == LastValue(0, h);
    NothingOpen(Cut(m, t).closed, Cut(m, t).log, i, h, m.log.lastPsg);
  }

  lemma {:induction false} SplitAtCut(h: seq<Change>, n: nat, first: int, cut: int)
    requires n <= |h| && Before(h[..n], first) && Ordered(first, h[n..]) && first <= cut
    ensures var n' := n + Upto(h[n..], cut);
            n' <= |h| && h[..n] + h[n..][..Upto(h[n..], cut)] == h[..n'] && Before(h[..n'], cut) && Ordered(cut, h[n'..])
  {
    var cur := h[n..];
    var k := Upto(cur, cut);
    UptoSplits(first, cur, cut);
    assert h[..n] + cur[..k] == h[..n + k] && cur[k..] == h[n + k..];
    forall j | 0 <= j < n + k ensures h[j].time <= cut {
      if j < n { assert h[..n][j] == h[j]; } else { assert cur[j - n] == h[j]; }
    }
  }

  /** For CTC0 the finished log always gives back the changes up to the cut. */
  lemma CutGivesBackCtc0(b: Board, m: Machine, h: seq<Change>, t: int)
    requires WellFormed(b, m) && m.log.lastPsg <= t && t - m.log.first < WORD
    requires Keeps(m.closed, m.log, CTC0, h, t)
    ensures var n := |ReadBack(m.closed, CTC0)|;
            var n' := n + Upto(h[n..], m.log.lastPsg);
            && n' <= |h|
            && ReadBack(Cut(m, t).closed, CTC0) == h[..n']
            && Before(h[..n'], m.log.lastPsg)
            && Ordered(m.log.lastPsg, h[n'..])
  {
    var n := |ReadBack(m.closed, CTC0)|;
    KeptGivesBack(m.log.src[CTC0], m.log.first, ValueAfter(0, h, n), h[n..], m.log.lastPsg, t);
    ReadBackMore(m.closed, Finished(m.log, t), CTC0);
    SplitAtCut(h, n, m.log.first, m.log.lastPsg);
  }

  lemma RestIsInTime(first: int, h: seq<Change>, k: nat, cut: int, t: int)
    requires k <= |h| && cut <= t && LastTime(first, h) <= t
    ensures LastTime(cut, h[k..]) <= t
  {
  }

  lemma RestOfRest(h: seq<Change>, n: nat, k: nat)
    requires n + k <= |h|
    ensures h[n..][k..] == h[n + k..]
    ensures ValueAfter(ValueAfter(0, h, n), h[n..], k) == ValueAfter(0, h, n + k)
  {
  }

  lemma {:induction false} CarriedIffGuard(s: Source, first: int, init: int, h: seq<Change>, cut: int, t: int)
    requires Describes(s, first, init, h) && Ordered(first, h) && Alternating(init, h)
    requires first <= cut <= t && LastTime(first, h) <= t && t - first < WORD
    ensures var k := Upto(h, cut);
            Describes(Carried(Closed(s, t), cut, t), cut, ValueAfter(init, h, k), h[k..]) <==> SafeSource(s, first, cut)
  {
    CarriedIffSafe(s, first, init, h, cut, t);
    GuardMeasuresFirstChange(s, first, init, h, cut);
  }

  lemma CurrentAlternates(h: seq<Change>, n: nat)
    requires n <= |h| && Alternating(0, h)
    ensures Alternating(ValueAfter(0, h, n), h[n..])
  {
    SuffixAlternates(0, h, n);
    assert [] + h[n..] == h[n..];
  }

  /** The rest of its history is in the next log exactly under the guard. */
  lemma {:induction false} RestIsCarriedIff(s: Source, first: int, h: seq<Change>, n: nat, cut: int, t: int)
    requires n <= |h| && Alternating(0, h)
    requires Describes(s, first, ValueAfter(0, h, n), h[n..]) && Ordered(first, h[n..])
    requires first <= cut <= t && LastTime(first, h[n..]) <= t && t - first < WORD
    ensures var n' := n + Upto(h[n..], cut);
            && n' <= |h|
            && LastTime(cut, h[n'..]) <= t
            && (Describes(Carried(Closed(s, t), cut, t), cut, ValueAfter(0, h, n'), h[n'..]) <==> SafeSource(s, first, cut))
  {
    var k := Upto(h[n..], cut);
    CurrentAlternates(h, n);
    CarriedIffGuard(s, first, ValueAfter(0, h, n), h[n..], cut, t);
    RestOfRest(h, n, k);
    RestIsInTime(first, h[n..], k, cut, t);
  }

  lemma CutKeepsCtc0Iff(b: Board, m: Machine, h: seq<Change>, t: int)
    requires WellFormed(b, m) && m.log.lastPsg <= t && t - m.log.first < WORD
    requires Keeps(m.closed, m.log, CTC0, h, t)
    ensures Keeps(Cut(m, t).closed, Cut(m, t).log, CTC0, h, t) <==> SafeCut(m.log)
  {
    var n := |ReadBack(m.closed, CTC0)|;
    CutGivesBackCtc0(b, m, h, t);
    RestIsCarriedIff(m.log.src[CTC0], m.log.first, h, n, m.log.lastPsg, t);
    var n' := n + Upto(h[n..], m.log.lastPsg);
    var m' := Cut(m, t);
    assert |ReadBack(m'.closed, CTC0)| == n';
    assert m'.log.src[CTC0] == Carried(Closed(m.log.src[CTC0], t), m.log.lastPsg, t);
  }

  /**
   The cut at the end of a frame conserves every source if and only if the
   guard holds: for CTC0 nothing is lost, duplicated or moved in time.
   */
  lemma CutConservesIff(b: Board, m: Machine, hist: History, t: int)
    requires Conserved(b, m, hist, t)
    ensures Conserved(b, Cut(m, t), hist, t) <==> SafeCut(m.log)
  {
    var m' := Cut(m, t);
    forall i | 1 <= i < b.Sources() ensures Keeps(m'.closed, m'.log, i, hist[i], Horizon(m'.log, i, t)) {
      assert Keeps(m.closed, m.log, i, hist[i], Horizon(m.log, i, t));
      CutKeepsPsg(b, m, i, hist[i], t);
    }
    assert Keeps(m.closed, m.log, CTC0, hist[CTC0], Horizon(m.log, CTC0, t));
    CutKeepsCtc0Iff(b, m, hist[CTC0], t);
  }

  // ----- one operation -----

  lemma Ctc0Conserves(b: Board, m: Machine, hist: History, on: bool, t: int)
    requires Conserved(b, m, hist, t)
    ensures Conserved(b, Ctc0Changed(m, on, t), Written(b, m, hist, Ctc0(on, t)), t)
  {
    var m', hist' := Ctc0Changed(m, on, t), Written(b, m, hist, Ctc0(on, t));
    forall i | 0 <= i < b.Sources() ensures Keeps(m'.closed, m'.log, i, hist'[i], Horizon(m'.log, i, t)) {
      assert Keeps(m.closed, m.log, i, hist[i], Horizon(m.log, i, t));
      if i == CTC0 {
        KeepsNote(m.closed, m.log, i, hist[i], t, if on then Psg.MAX_LEVEL else 0, t, m'.log.src[i]);
      }
    }
  }

  lemma RegistersDoNotMatter(b: Board, m: Machine, hist: History, c: nat, value: Psg.byte, t: int)
    requires Conserved(b, m, hist, t) && c < 2
    ensures Conserved(b, Poke(m, c, value), hist, t)
  {
    var m' := Poke(m, c, value);
    forall i | 0 <= i < b.Sources() ensures Keeps(m'.closed, m'.log, i, hist[i], Horizon(m'.log, i, t)) {
      assert Keeps(m.closed, m.log, i, hist[i], Horizon(m.log, i, t));
    }
  }

  lemma ChipWriteConserves(b: Board, m: Machine, hist: History, c: nat, value: Psg.byte, t: int)
    requires Conserved(b, m, hist, t) && c < 2
    ensures Conserved(b, WriteChip(b, m, c, value, t), WrittenByChipWrite(b, m, hist, c, value, t), t)
  {
    if Psg.NeedsFill(m.psg.chips[c], value) {
      FillConserves(b, m, hist, t, t);
      RegistersDoNotMatter(b, FillTo(b, m, t), WrittenByFill(b, m, hist, t), c, value, t);
    } else {
      RegistersDoNotMatter(b, m, hist, c, value, t);
    }
  }

  /** The caller's side of an operation: it is not late, and the frame is shorter than 2^32 ticks. */
  predicate Admissible(m: Machine, now: int, op: Op) {
    now <= op.at && op.at - m.log.first < WORD
  }

  predicate Safe(b: Board, m: Machine, op: Op)
    requires WellFormed(b, m) && m.log.first <= op.at
  {
    FillKeepsFirst(b, m, op.at);
    op.Finish? ==> SafeCut(FillTo(b, m, op.at).log)
  }

  /** Every operation conserves the history, the end of a frame exactly under its guard. */
  lemma OperationConservesIff(b: Board, m: Machine, hist: History, now: int, op: Op)
    requires Conserved(b, m, hist, now) && Admissible(m, now, op)
    ensures Conserved(b, Apply(b, m, op), Written(b, m, hist, op), op.at) <==> Safe(b, m, op)
  {
    var t := op.at;
    KeepsLater(b, m, hist, now, t);
    match op
    case Ctc0(on, at) =>
      Ctc0Conserves(b, m, hist, on, at);
    case Write(left, right, value, at) =>
      ChipWriteKeepsShape(b, m, 0, value, at);
      ChipWriteConserves(b, m, hist, 0, value, at);
      if m.psg.stereo && right {
        var m1 := if left then WriteChip(b, m, 0, value, at) else m;
        var h1 := if left then WrittenByChipWrite(b, m, hist, 0, value, at) else hist;
        ChipWriteConserves(b, m1, h1, 1, value, at);
      }
    case Fill(at) =>
      FillConserves(b, m, hist, at, at);
    case Finish(at) =>
      FillConserves(b, m, hist, at, at);
      FillKeepsFirst(b, m, at);
      CutConservesIff(b, FillTo(b, m, at), WrittenByFill(b, m, hist, at), at);
  }
}
