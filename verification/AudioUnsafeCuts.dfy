/**
 The cut that is not safe: what it does to an ordinary frame, and why no later
 operation repairs it.
 */
module AudioUnsafeCuts {
  import opened SourceLogs
  import opened AudioMachine
  import opened AudioLaziness
  import opened AudioHistory
  import opened AudioRuns
  import Psg

  // ----- an ordinary frame -----

  lemma {:induction false} FillKeepsCtc0(b: Board, m: Machine, t: int)
    requires WellFormed(b, m)
    ensures |FillTo(b, m, t).log.src| == |m.log.src| && FillTo(b, m, t).log.src[CTC0] == m.log.src[CTC0]
    decreases t - m.log.lastPsg
  {
    if b.havePsg != 0 && t - m.log.lastPsg >= b.divider {
      StepFillWellFormed(b, m);
      FillKeepsCtc0(b, StepFill(b, m), t);
    }
  }

  lemma NegativeWrap(cut: int)
    requires 0 < cut < WORD
    ensures Wrap(0 - cut) == WORD - cut
  {
  }

  /** The source of the next log when CTC0 goes up at `u`, past the last grid point `cut`. */
  lemma LateRise(cut: int, u: int, t: int)
    requires 0 < cut < u <= t < WORD
    ensures var s := Changed(Fresh(0, 0), 15, u);
            && s.samples == [Event(u, 0), Event(0, 15)]
            && SourceAt(Carried(Closed(s, t), cut, t), cut, u) == 0
  {
    var s := Changed(Fresh(0, 0), 15, u);
    assert s.samples == [Event(u, 0), Event(0, 15)];
    var c := Closed(s, t);
    assert c.samples == [Event(u, 0), Event(t - u, 15)];
    assert SplitIndex(c, cut, t) == 0 && SplitStamp(c, cut, t) == 0;
    assert c.samples[1..] == [Event(t - u, 15)];
    var n := Changed(Fresh(cut, 0), 15, 0);
    assert n.samples == [Event(Wrap(0 - cut), 0), Event(0, 15)];
    NegativeWrap(cut);
    assert [Event(t - u, 15)][1..] == [];
    assert Replay(Fresh(cut, 0), [Event(t - u, 15)], 0) == Replay(n, [], t - u) == n;
  }

  /** The frame ends at `t`, after its fill. */
  lemma RiseIsLost(log: Log, stereo: bool, u: int, t: int)
    requires log.src != [] && log.first == 0 && log.src[CTC0] == Changed(Fresh(0, 0), 15, u)
    requires 0 < log.lastPsg < u <= t < WORD
    ensures !SafeCut(log) && SourceAt(NextLog(log, stereo, t).src[CTC0], log.lastPsg, u) == 0
  {
    LateRise(log.lastPsg, u, t);
  }

  lemma GridPointIsLater(b: Board, t: int)
    requires 0 < b.divider <= t
    ensures 0 < LastPoint(b, 0, t)
  {
  }

  lemma {:induction false} FilledAfterRise(b: Board, m: Machine, t: int)
    requires WellFormed(b, m) && b.havePsg > 0 && m.log.lastPsg == m.log.first == 0 && b.divider <= t
    ensures var f := FillTo(b, m, t);
            && WellFormed(b, f) && f.log.first == 0 && 0 < f.log.lastPsg == LastPoint(b, 0, t)
            && f.log.src[CTC0] == m.log.src[CTC0]
  {
    FillKeepsFirst(b, m, t);
    FillKeepsCtc0(b, m, t);
    FillEndsOnGrid(b, m, t);
    GridPointIsLater(b, t);
  }

  lemma {:induction false} FinishLosesRise(b: Board, m: Machine, u: int, t: int)
    requires WellFormed(b, m) && b.havePsg > 0 && m.log.lastPsg == m.log.first == 0
    requires m.log.src[CTC0] == Changed(Fresh(0, 0), 15, u)
    requires b.divider <= t < WORD && LastPoint(b, 0, t) < u <= t
    ensures !Safe(b, m, Finish(t))
    ensures var m2 := Apply(b, m, Finish(t));
            |m2.log.src| > 0 && SourceAt(m2.log.src[CTC0], m2.log.first, u) == 0
  {
    FilledAfterRise(b, m, t);
    var f := FillTo(b, m, t);
    RiseIsLost(f.log, f.psg.stereo, u, t);
  }

  lemma RiseIsWritten(b: Board, m: Machine, u: int)
    requires WellFormed(b, m) && m.log.first <= u && m.log.src[CTC0] == Fresh(m.log.first, 0)
    ensures var m1 := Apply(b, m, Ctc0(true, u));
            && m1.log == m.log.(src := m1.log.src) && |m1.log.src| == |m.log.src|
            && m1.log.src[CTC0] == Changed(Fresh(m.log.first, 0), 15, u)
    ensures Written(b, m, seq(|m.log.src|, _ => []), Ctc0(true, u))[CTC0] == [Change(u, 15)]
  {
  }

  /**
   An ordinary frame: the log starts at 0, the frame ends at any later `t`, and CTC0
   first goes up at any `u` after the last PSG step of the frame. The walk stops
   at index 0 with the stamp still 0, so the next log plays silence at `u`, where
   the output is at its highest level.
   */
  lemma {:induction false} UnsafeCutLosesTheWave(b: Board, psg: Psg.PsgModule, t: int, u: int)
    requires b.Valid() && b.havePsg > 0 && Psg.Valid(psg)
    requires b.divider <= t < WORD && LastPoint(b, 0, t) < u <= t
    ensures var m := Machine(Created(b, psg.stereo, 0), [], psg, false);
            var m1 := Apply(b, m, Ctc0(true, u));
            var m2 := Apply(b, m1, Finish(t));
            && !Safe(b, m1, Finish(t))
            && Written(b, m, seq(b.Sources(), _ => []), Ctc0(true, u))[CTC0] == [Change(u, 15)]
            && WaveAt(0, [Change(u, 15)], u) == 15
            && |m2.log.src| > 0 && SourceAt(m2.log.src[CTC0], m2.log.first, u) == 0
  {
    var m := Machine(Created(b, psg.stereo, 0), [], psg, false);
    RiseIsWritten(b, m, u);
    FinishLosesRise(b, Apply(b, m, Ctc0(true, u)), u, t);
  }

  // ----- an unsafe cut is not repaired -----

  /** The first change of the source was stamped 0: it is read back at a multiple of 2^32 ticks. */
  predicate Stamped(s: Source, first: int) {
    |s.samples| >= 2 && s.samples[0].value != s.samples[1].value && (first + s.samples[0].count) % 0x1_0000_0000 == 0
  }

  predicate OnWord(c: Change) {
    c.time % 0x1_0000_0000 == 0
  }

  /** Change `n` of CTC0 is not at a multiple of 2^32 ticks, but it is read back at one. */
  ghost predicate Broken(closed: seq<Log>, log: Log, h: seq<Change>, n: nat)
    requires log.src != [] && forall l :: l in closed ==> l.src != []
  {
    var past := ReadBack(closed, CTC0);
    && n < |h| && !OnWord(h[n])
    && if n < |past| then OnWord(past[n]) else n == |past| && Stamped(log.src[CTC0], log.first)
  }

  ghost function AllRead(closed: seq<Log>, log: Log): seq<Change>
    requires log.src != [] && forall l :: l in closed ==> l.src != []
  {
    ReadBack(closed, CTC0) + Starts(log.first, log.src[CTC0].samples)
  }

  lemma BrokenReadsWrong(closed: seq<Log>, log: Log, h: seq<Change>, n: nat)
    requires log.src != [] && forall l :: l in closed ==> l.src != []
    requires Broken(closed, log, h, n)
    ensures AllRead(closed, log) != h
  {
    var past, now := ReadBack(closed, CTC0), Starts(log.first, log.src[CTC0].samples);
    if n < |past| {
      assert (past + now)[n] == past[n];
    } else {
      assert (past + now)[n] == now[0];
    }
  }

  // ----- the cut -----

  /** Closing changes the last count only. */
  lemma ClosedStamped(s: Source, first: int, t: int)
    requires Stamped(s, first)
    ensures Stamped(Closed(s, t), first)
  {
  }

  /** Replaying never touches the first event of a source that has two. */
  lemma {:induction false} ReplayKeepsHead(s: Source, es: seq<Event>, stamp: int)
    requires |s.samples| >= 2
    ensures var r := Replay(s, es, stamp);
            |r.samples| >= 2 && r.samples[0] == s.samples[0] && r.samples[1].value == s.samples[1].value
    decreases |es|
  {
    if es != [] { ReplayKeepsHead(Changed(s, es[0].value, stamp), es[1..], stamp + es[0].count); }
  }

  lemma WrapCancels(cut: int)
    ensures (cut + Wrap(0 - cut)) % 0x1_0000_0000 == 0
  {
  }

  lemma ZeroStamp(cut: int, a: int, b: int)
    requires a != b
    ensures var s := Changed(Fresh(cut, a), b, 0);
            Stamped(s, cut) && s.samples == [Event(Wrap(0 - cut), a), Event(0, b)]
  {
    var s := Changed(Fresh(cut, a), b, 0);
    assert s.samples == [Event(Wrap(0 - cut), a), Event(0, b)];
    WrapCancels(cut);
  }

  /** A stamped source at a later cut: its first change is kept, or gets the stamp 0 again. */
  lemma {:induction false} CutStamped(s: Source, first: int, cut: int, t: int)
    requires Stamped(s, first)
    ensures var kept := Starts(first, Kept(s, cut, t).samples);
            if Splits(s, cut, t) && SplitIndex(s, cut, t) == 0 then kept == [] && Stamped(Carried(s, cut, t), cut)
            else kept != [] && OnWord(kept[0])
  {
    if Splits(s, cut, t) && SplitIndex(s, cut, t) == 0 {
      var es := s.samples[1..];
      ZeroStamp(cut, s.samples[0].value, es[0].value);
      ReplayKeepsHead(Changed(Fresh(cut, s.samples[0].value), es[0].value, 0), es[1..], es[0].count);
    }
  }

  lemma {:induction false} CutBroken(b: Board, m: Machine, h: seq<Change>, n: nat, t: int)
    requires WellFormed(b, m) && Broken(m.closed, m.log, h, n)
    ensures Broken(Cut(m, t).closed, Cut(m, t).log, h, n)
  {
    var f := Finished(m.log, t);
    ReadBackMore(m.closed, f, CTC0);
    var past := ReadBack(m.closed, CTC0);
    if n == |past| {
      ClosedStamped(m.log.src[CTC0], m.log.first, t);
      CutStamped(Closed(m.log.src[CTC0], t), m.log.first, m.log.lastPsg, t);
    }
  }

  lemma {:induction false} UnsafeStamps(s: Source, first: int, init: int, h: seq<Change>, cut: int, t: int)
    requires Describes(s, first, init, h) && Ordered(first, h) && Alternating(init, h)
    requires first <= cut <= t && LastTime(first, h) <= t && t - first < WORD
    requires !CutIsSafe(h, cut)
    ensures Upto(h, cut) == 0 && Stamped(Carried(Closed(s, t), cut, t), cut)
  {
    UptoSplits(first, h, cut);
    SplitFinds(s, first, init, h, cut, t);
    var c := Closed(s, t);
    assert c.samples[0].value == init && c.samples[1].value == h[0].value;
    var es := c.samples[1..];
    assert h[0].value != ValueAfter(init, h, 0);
    ZeroStamp(cut, init, es[0].value);
    ReplayKeepsHead(Changed(Fresh(cut, init), es[0].value, 0), es[1..], es[0].count);
  }

  /** An unsafe cut breaks the history. */
  lemma {:induction false} UnsafeCutBreaks(b: Board, m: Machine, hist: History, t: int)
    requires Conserved(b, m, hist, t) && !SafeCut(m.log)
    ensures Broken(Cut(m, t).closed, Cut(m, t).log, hist[CTC0], |ReadBack(m.closed, CTC0)|)
  {
    var h := hist[CTC0];
    var n := |ReadBack(m.closed, CTC0)|;
    var (s, first, cut) := (m.log.src[CTC0], m.log.first, m.log.lastPsg);
    assert Keeps(m.closed, m.log, CTC0, h, Horizon(m.log, CTC0, t));
    GuardMeasuresFirstChange(s, first, ValueAfter(0, h, n), h[n..], cut);
    CurrentAlternates(h, n);
    UptoSplits(first, h[n..], cut);
    CutGivesBackCtc0(b, m, h, t);
    UnsafeStamps(s, first, ValueAfter(0, h, n), h[n..], cut, t);
  }

  // ----- later operations -----

  lemma {:induction false} FillWritesNoCtc0(b: Board, m: Machine, hist: History, t: int)
    requires WellFormed(b, m) && |hist| == |m.log.src|
    ensures WrittenByFill(b, m, hist, t)[CTC0] == hist[CTC0]
    decreases t - m.log.lastPsg
  {
    if b.havePsg != 0 && t - m.log.lastPsg >= b.divider {
      StepFillWellFormed(b, m);
      FillWritesNoCtc0(b, StepFill(b, m), WrittenByStep(b, m, hist), t);
    }
  }

  /** What a fill or a register write leaves alone. */
  predicate SameCtc0(m: Machine, n: Machine) {
    && n.closed == m.closed && n.log.first == m.log.first && |n.log.src| == |m.log.src|
    && (m.log.src != [] ==> n.log.src[CTC0] == m.log.src[CTC0])
  }

  lemma {:induction false} FillSameCtc0(b: Board, m: Machine, t: int)
    requires WellFormed(b, m)
    ensures SameCtc0(m, FillTo(b, m, t))
  {
    FillKeepsFirst(b, m, t);
    FillKeepsCtc0(b, m, t);
  }

  lemma {:induction false} ChipWriteSameCtc0(b: Board, m: Machine, hist: History, c: nat, value: Psg.byte, t: int)
    requires WellFormed(b, m) && m.log.first <= t && c < 2 && |hist| == |m.log.src|
    ensures SameCtc0(m, WriteChip(b, m, c, value, t))
    ensures WrittenByChipWrite(b, m, hist, c, value, t)[CTC0] == hist[CTC0]
  {
    FillSameCtc0(b, m, t);
    FillWritesNoCtc0(b, m, hist, t);
  }

  lemma {:induction false} WriteSameCtc0(b: Board, m: Machine, hist: History, op: Op)
    requires WellFormed(b, m) && m.log.first <= op.at && |hist| == |m.log.src| && op.Write?
    ensures SameCtc0(m, Apply(b, m, op)) && Written(b, m, hist, op)[CTC0] == hist[CTC0]
  {
    ChipWriteSameCtc0(b, m, hist, 0, op.value, op.at);
    if m.psg.stereo && op.right {
      var m1 := if op.left then WriteChip(b, m, 0, op.value, op.at) else m;
      var h1 := if op.left then WrittenByChipWrite(b, m, hist, 0, op.value, op.at) else hist;
      ChipWriteSameCtc0(b, m1, h1, 1, op.value, op.at);
    }
  }

  lemma Ctc0Broken(closed: seq<Log>, log: Log, h: seq<Change>, n: nat, value: int, t: int)
    requires log.src != [] && forall l :: l in closed ==> l.src != []
    requires Broken(closed, log, h, n)
    ensures Broken(closed, log.(src := log.src[CTC0 := Changed(log.src[CTC0], value, t)]), Note(0, h, value, t), n)
  {
  }

  lemma {:induction false} OpBroken(b: Board, m: Machine, hist: History, op: Op, n: nat)
    requires WellFormed(b, m) && m.log.first <= op.at && |hist| == |m.log.src|
    requires Broken(m.closed, m.log, hist[CTC0], n)
    ensures Broken(Apply(b, m, op).closed, Apply(b, m, op).log, Written(b, m, hist, op)[CTC0], n)
  {
    if op.Ctc0? {
      Ctc0Broken(m.closed, m.log, hist[CTC0], n, if op.on then Psg.MAX_LEVEL else 0, op.at);
    } else if op.Write? {
      WriteSameCtc0(b, m, hist, op);
    } else {
      FillSameCtc0(b, m, op.at);
      FillWritesNoCtc0(b, m, hist, op.at);
      var f := FillTo(b, m, op.at);
      assert Broken(f.closed, f.log, hist[CTC0], n);
      if op.Finish? { CutBroken(b, f, hist[CTC0], n, op.at); }
    }
  }

  lemma {:induction false} RunBroken(b: Board, m: Machine, hist: History, ops: seq<Op>, now: int, n: nat)
    requires WellFormed(b, m) && m.log.lastPsg <= now && Timed(ops, now) && |hist| == |m.log.src|
    requires Broken(m.closed, m.log, hist[CTC0], n)
    ensures var r := Run(b, m, ops, now);
            var all := AllWritten(b, m, hist, ops, now);
            |all| == |r.log.src| && Broken(r.closed, r.log, all[CTC0], n)
    decreases |ops|
  {
    if ops != [] {
      OpAfterFill(b, m, ops[0]);
      OpBroken(b, m, hist, ops[0], n);
      RunBroken(b, Apply(b, m, ops[0]), Written(b, m, hist, ops[0]), ops[1..], ops[0].at, n);
    }
  }

  // ----- the exact condition over runs -----

  /** The caller's side of a run: every operation is admissible when it comes. */
  ghost predicate Admitted(b: Board, m: Machine, ops: seq<Op>, now: int)
    requires WellFormed(b, m) && m.log.lastPsg <= now
    decreases |ops|
  {
    ops != [] ==>
      && Admissible(m, now, ops[0])
      && Apply(b, m, ops[0]).log.lastPsg <= ops[0].at
      && Admitted(b, Apply(b, m, ops[0]), ops[1..], ops[0].at)
  }

  lemma {:induction false} AdmittedIsTimed(b: Board, m: Machine, ops: seq<Op>, now: int)
    requires WellFormed(b, m) && m.log.lastPsg <= now && Admitted(b, m, ops, now)
    ensures Timed(ops, now)
    decreases |ops|
  {
    if ops != [] { AdmittedIsTimed(b, Apply(b, m, ops[0]), ops[1..], ops[0].at); }
  }

  lemma {:induction false} UnsafeOpBreaks(b: Board, m: Machine, hist: History, now: int, op: Op)
    requires Conserved(b, m, hist, now) && Admissible(m, now, op) && !Safe(b, m, op)
    ensures exists n: nat :: Broken(Apply(b, m, op).closed, Apply(b, m, op).log, Written(b, m, hist, op)[CTC0], n)
  {
    var f := FillTo(b, m, op.at);
    KeepsLater(b, m, hist, now, op.at);
    FillConserves(b, m, hist, op.at, op.at);
    FillKeepsFirst(b, m, op.at);
    UnsafeCutBreaks(b, f, WrittenByFill(b, m, hist, op.at), op.at);
    var n := |ReadBack(f.closed, CTC0)|;
    assert Apply(b, m, op) == Cut(f, op.at);
    assert Broken(Apply(b, m, op).closed, Apply(b, m, op).log, Written(b, m, hist, op)[CTC0], n);
  }

  lemma {:induction false} DisorderBreaks(b: Board, m: Machine, hist: History, ops: seq<Op>, now: int)
    requires Conserved(b, m, hist, now) && Played(b, m, hist) && Admitted(b, m, ops, now) && !Orderly(b, m, ops, now)
    ensures Timed(ops, now)
    ensures var r := Run(b, m, ops, now);
            var all := AllWritten(b, m, hist, ops, now);
            |all| == |r.log.src| && exists n: nat :: Broken(r.closed, r.log, all[CTC0], n)
    decreases |ops|
  {
    AdmittedIsTimed(b, m, ops, now);
    var op := ops[0];
    var m1, h1 := Apply(b, m, op), Written(b, m, hist, op);
    OpAfterFill(b, m, op);
    if Safe(b, m, op) {
      OperationConservesIff(b, m, hist, now, op);
      OperationPlays(b, m, hist, now, op);
      DisorderBreaks(b, m1, h1, ops[1..], op.at);
    } else {
      UnsafeOpBreaks(b, m, hist, now, op);
      var n: nat :| Broken(m1.closed, m1.log, h1[CTC0], n);
      RunBroken(b, m1, h1, ops[1..], op.at, n);
    }
  }

  /**
   Over a whole run from a fresh log: the logs give back exactly what was written
   to every source if and only if every cut of the run was safe. An unsafe cut is
   never repaired later.
   */
  lemma {:induction false} LogsAreTheHistoryIff(b: Board, psg: Psg.PsgModule, ops: seq<Op>, start: int)
    requires b.Valid() && Psg.Valid(psg)
    requires Admitted(b, Machine(Created(b, psg.stereo, start), [], psg, false), ops, start)
    ensures Timed(ops, start)
    ensures var m := Machine(Created(b, psg.stereo, start), [], psg, false);
            var r := Run(b, m, ops, start);
            var h := AllWritten(b, m, seq(b.Sources(), _ => []), ops, start);
            && |h| == b.Sources() == |r.log.src| && (forall l :: l in r.closed ==> |l.src| == b.Sources())
            && ((forall i :: 0 <= i < b.Sources() ==>
                   ReadBack(r.closed, i) + Starts(r.log.first, r.log.src[i].samples) == h[i])
                <==> Orderly(b, m, ops, start))
  {
    var m := Machine(Created(b, psg.stereo, start), [], psg, false);
    var none := seq(b.Sources(), _ => []);
    AdmittedIsTimed(b, m, ops, start);
    if Orderly(b, m, ops, start) {
      LogsAreTheHistory(b, psg, ops, start, 0, start);
      forall i | 0 <= i < b.Sources()
        ensures var r := Run(b, m, ops, start);
                ReadBack(r.closed, i) + Starts(r.log.first, r.log.src[i].samples)
                == AllWritten(b, m, none, ops, start)[i]
      {
        LogsAreTheHistory(b, psg, ops, start, i, start);
      }
    } else {
      CreatedConserves(b, psg, start);
      DisorderBreaks(b, m, none, ops, start);
      var r, h := Run(b, m, ops, start), AllWritten(b, m, none, ops, start);
      var n: nat :| Broken(r.closed, r.log, h[CTC0], n);
      BrokenReadsWrong(r.closed, r.log, h[CTC0], n);
    }
  }
}
