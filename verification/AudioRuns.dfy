/**
 Whole runs of the audio log: conservation of the written history across any
 number of frame cuts, and the waveform a reader of the logs hears.
 */
module AudioRuns {
  import opened SourceLogs
  import opened AudioMachine
  import opened AudioLaziness
  import opened AudioHistory
  import Psg

  /** Every operation of the run is admissible and every frame end meets its guard. */
  ghost predicate Orderly(b: Board, m: Machine, ops: seq<Op>, now: int)
    requires WellFormed(b, m) && m.log.lastPsg <= now
    decreases |ops|
  {
    ops != [] ==>
      && Admissible(m, now, ops[0])
      && Safe(b, m, ops[0])
      && Apply(b, m, ops[0]).log.lastPsg <= ops[0].at
      && Orderly(b, Apply(b, m, ops[0]), ops[1..], ops[0].at)
  }

  lemma {:induction false} OrderlyIsTimed(b: Board, m: Machine, ops: seq<Op>, now: int)
    requires WellFormed(b, m) && m.log.lastPsg <= now && Orderly(b, m, ops, now)
    ensures Timed(ops, now)
    decreases |ops|
  {
    if ops != [] { OrderlyIsTimed(b, Apply(b, m, ops[0]), ops[1..], ops[0].at); }
  }

  /** Everything written during the run, per source. */
  ghost function AllWritten(b: Board, m: Machine, hist: History, ops: seq<Op>, now: int): History
    requires WellFormed(b, m) && m.log.lastPsg <= now && Timed(ops, now) && |hist| == |m.log.src|
    decreases |ops|
  {
    if ops == [] then hist
    else
      OpAfterFill(b, m, ops[0]);
      AllWritten(b, Apply(b, m, ops[0]), Written(b, m, hist, ops[0]), ops[1..], ops[0].at)
  }

  // ----- windows of a history -----

  /** Only the last change at or before a tick matters: later and superseded changes can be dropped. */
  lemma {:induction false} WaveWindow(h: seq<Change>, n: nat, k: nat, at: int)
    requires n <= k <= |h|
    requires Before(h[..n], at)
    requires forall j :: k <= j < |h| ==> at < h[j].time
    ensures WaveAt(0, h, at) == WaveAt(ValueAfter(0, h, n), h[n..k], at)
    decreases |h|
  {
    if |h| > k {
      var h' := h[..|h| - 1];
      assert h'[..n] == h[..n] && h'[n..k] == h[n..k];
      WaveWindow(h', n, k, at);
    } else if n < k {
      var h' := h[..|h| - 1];
      if h[|h| - 1].time > at {
        assert h'[..n] == h[..n] && h'[n..k - 1] == h[n..k][..k - n - 1];
        WaveWindow(h', n, k - 1, at);
      }
    } else if n > 0 {
      assert h[..n][n - 1] == h[n - 1];
    }
  }

  /** What a reader finds in one source of one log. */
  lemma {:induction false} SourceIsWave(s: Source, first: int, init: int, h: seq<Change>, at: int)
    requires Describes(s, first, init, h) && Ordered(first, h)
    requires LastTime(first, h) - first < WORD
    ensures SourceAt(s, first, at) == WaveAt(init, h, at)
  {
    if h != [] { DecodeIsWave(s.samples, first, init, h, at); }
  }

  // ----- playing the finished logs -----

  ghost predicate Plays(closed: seq<Log>, log: Log, i: nat, h: seq<Change>)
    requires i < |log.src| && forall l :: l in closed ==> i < |l.src|
  {
    closed != [] ==>
      forall at {:trigger WaveAt(0, h, at)} :: at < log.first ==>
        PlayAt(closed[..|closed| - 1], closed[|closed| - 1], i, at) == WaveAt(0, h, at)
  }

  /** The current log continues the finished ones: at every tick the logs play the history. */
  lemma {:induction false} PlayIsWave(closed: seq<Log>, log: Log, i: nat, h: seq<Change>, now: int, at: int)
    requires i < |log.src| && forall l :: l in closed ==> i < |l.src|
    requires Keeps(closed, log, i, h, now) && Plays(closed, log, i, h) && now - log.first < WORD
    ensures PlayAt(closed, log, i, at) == WaveAt(0, h, at)
  {
    var n := |ReadBack(closed, i)|;
    if closed == [] || log.first <= at {
      SourceIsWave(log.src[i], log.first, ValueAfter(0, h, n), h[n..], at);
      assert n > 0 ==> log.first <= at;
      WaveWindow(h, n, |h|, at);
      assert h[n..|h|] == h[n..];
    }
  }

  lemma NotePlays(closed: seq<Log>, log: Log, log': Log, i: nat, h: seq<Change>, value: int, t: int)
    requires i < |log.src| && i < |log'.src| && forall l :: l in closed ==> i < |l.src|
    requires Plays(closed, log, i, h) && log.first == log'.first <= t
    ensures Plays(closed, log', i, Note(0, h, value, t))
  {
    var h' := Note(0, h, value, t);
    forall at | at < log.first ensures WaveAt(0, h', at) == WaveAt(0, h, at) {
      assert h' != h ==> h'[..|h'| - 1] == h;
    }
  }

  lemma {:induction false} FinishedSourceIsWave(s: Source, first: int, init: int, h: seq<Change>, cut: int, t: int,
                                                i: nat, at: int)
    requires Describes(s, first, init, h) && Ordered(first, h)
    requires first <= cut <= t && t - first < WORD && at < cut
    requires LastTime(first, h) <= t && (i != CTC0 ==> Upto(h, cut) == |h| || LastTime(first, h) <= cut)
    ensures var c := Closed(s, t);
            SourceAt(if i == CTC0 then Kept(c, cut, t) else c, first, at) == WaveAt(init, h[..Upto(h, cut)], at)
  {
    var k := Upto(h, cut);
    if h != [] {
      ClosedFillsTheFrame(s, first, init, h, t);
      UptoSplits(first, h, cut);
      if i == CTC0 {
        KeptIsPrefix(s, first, init, h, cut, t);
        DecodeIsWave(Kept(Closed(s, t), cut, t).samples, first, init, h[..k], at);
      } else {
        assert h[..|h|] == h;
        DecodeIsWave(Closed(s, t).samples, first, init, h, at);
      }
    }
  }

  lemma {:induction false} FinishedSourcePlays(s: Source, first: int, h: seq<Change>, n: nat, cut: int, t: int,
                                               i: nat, at: int)
    requires n <= |h| && Before(h[..n], first) && (n > 0 ==> first <= at)
    requires Describes(s, first, ValueAfter(0, h, n), h[n..]) && Ordered(first, h[n..])
    requires first <= cut <= t && t - first < WORD && at < cut
    requires LastTime(first, h[n..]) <= (if i == CTC0 then t else cut)
    ensures var c := Closed(s, t);
            SourceAt(if i == CTC0 then Kept(c, cut, t) else c, first, at) == WaveAt(0, h, at)
  {
    var cur := h[n..];
    var k := Upto(cur, cut);
    FinishedSourceIsWave(s, first, ValueAfter(0, h, n), cur, cut, t, i, at);
    UptoSplits(first, cur, cut);
    assert cur[..k] == h[n..n + k];
    forall j | n + k <= j < |h| ensures at < h[j].time { assert h[j] == cur[j - n]; }
    WaveWindow(h, n, n + k, at);
  }

  /** The log a frame leaves behind plays the history up to its cut, whether or not the cut is safe. */
  lemma {:induction false} FinishedPlays(b: Board, m: Machine, i: nat, h: seq<Change>, t: int, at: int)
    requires WellFormed(b, m) && i < b.Sources() && m.log.lastPsg <= t && t - m.log.first < WORD
    requires Keeps(m.closed, m.log, i, h, Horizon(m.log, i, t)) && Plays(m.closed, m.log, i, h)
    requires at < m.log.lastPsg
    ensures PlayAt(m.closed, Finished(m.log, t), i, at) == WaveAt(0, h, at)
  {
    var f := Finished(m.log, t);
    if m.closed == [] || m.log.first <= at {
      var n := |ReadBack(m.closed, i)|;
      assert n > 0 ==> m.log.first <= at;
      FinishedSourcePlays(m.log.src[i], m.log.first, h, n, m.log.lastPsg, t, i, at);
    }
  }

  ghost predicate Played(b: Board, m: Machine, hist: History) {
    && WellFormed(b, m) && |hist| == b.Sources()
    && forall i :: 0 <= i < b.Sources() ==> Plays(m.closed, m.log, i, hist[i])
  }

  lemma StepPlays(b: Board, m: Machine, hist: History, now: int)
    requires Played(b, m, hist)
    ensures Played(b, StepFill(b, m), WrittenByStep(b, m, hist))
  {
    var m', hist' := StepFill(b, m), WrittenByStep(b, m, hist);
    var psg := Psg.Step(m.psg);
    forall i | 0 <= i < b.Sources() ensures Plays(m'.closed, m'.log, i, hist'[i]) {
      assert Plays(m.closed, m.log, i, hist[i]);
      if Driven(b, psg, i) {
        NotePlays(m.closed, m.log, m'.log, i, hist[i], DrivenLevel(b, psg, i), m.log.lastPsg);
      }
    }
  }

  lemma {:induction false} FillPlays(b: Board, m: Machine, hist: History, t: int)
    requires Played(b, m, hist) && (b.havePsg == 0 ==> m.log.lastPsg <= t)
    ensures Played(b, FillTo(b, m, t), WrittenByFill(b, m, hist, t))
    decreases t - m.log.lastPsg
  {
    if b.havePsg != 0 && t - m.log.lastPsg >= b.divider {
      StepPlays(b, m, hist, t);
      FillPlays(b, StepFill(b, m), WrittenByStep(b, m, hist), t);
    } else if b.havePsg == 0 {
      assert Plays(m.closed, m.log, 0, hist[0]);
      assert Plays(FillTo(b, m, t).closed, FillTo(b, m, t).log, 0, hist[0]);
    }
  }

  lemma CutPlays(b: Board, m: Machine, hist: History, t: int)
    requires Played(b, m, hist) && Conserved(b, m, hist, t)
    ensures Played(b, Cut(m, t), hist)
  {
    var m' := Cut(m, t);
    var f := Finished(m.log, t);
    forall i | 0 <= i < b.Sources() ensures Plays(m'.closed, m'.log, i, hist[i]) {
      assert Plays(m.closed, m.log, i, hist[i]);
      assert Keeps(m.closed, m.log, i, hist[i], Horizon(m.log, i, t));
      assert (m.closed + [f])[..|m.closed|] == m.closed;
      forall at | at < m'.log.first ensures PlayAt(m.closed, f, i, at) == WaveAt(0, hist[i], at) {
        FinishedPlays(b, m, i, hist[i], t, at);
      }
    }
  }

  lemma ChipWritePlays(b: Board, m: Machine, hist: History, c: nat, value: Psg.byte, t: int)
    requires Played(b, m, hist) && m.log.lastPsg <= t && c < 2
    ensures Played(b, WriteChip(b, m, c, value, t), WrittenByChipWrite(b, m, hist, c, value, t))
  {
    var f := if Psg.NeedsFill(m.psg.chips[c], value) then FillTo(b, m, t) else m;
    var hist' := WrittenByChipWrite(b, m, hist, c, value, t);
    FillPlays(b, m, hist, t);
    var m' := WriteChip(b, m, c, value, t);
    forall i | 0 <= i < b.Sources() ensures Plays(m'.closed, m'.log, i, hist'[i]) {
      assert Plays(f.closed, f.log, i, hist'[i]);
    }
  }

  /** Whatever happens at a cut, the finished logs play what was written up to it. */
  lemma OperationPlays(b: Board, m: Machine, hist: History, now: int, op: Op)
    requires Played(b, m, hist) && Conserved(b, m, hist, now) && Admissible(m, now, op)
    ensures Played(b, Apply(b, m, op), Written(b, m, hist, op))
  {
    match op
    case Ctc0(on, at) =>
      var m', hist' := Apply(b, m, op), Written(b, m, hist, op);
      forall i | 0 <= i < b.Sources() ensures Plays(m'.closed, m'.log, i, hist'[i]) {
        assert Plays(m.closed, m.log, i, hist[i]);
        if i == CTC0 {
          NotePlays(m.closed, m.log, m'.log, i, hist[i], if on then Psg.MAX_LEVEL else 0, at);
        }
      }
    case Write(left, right, value, at) =>
      ChipWritePlays(b, m, hist, 0, value, at);
      ChipWriteKeepsShape(b, m, 0, value, at);
      if m.psg.stereo && right {
        KeepsLater(b, m, hist, now, at);
        ChipWriteConserves(b, m, hist, 0, value, at);
        var m1 := if left then WriteChip(b, m, 0, value, at) else m;
        var h1 := if left then WrittenByChipWrite(b, m, hist, 0, value, at) else hist;
        ChipWritePlays(b, m1, h1, 1, value, at);
      }
    case Fill(at) =>
      FillPlays(b, m, hist, at);
    case Finish(at) =>
      FillPlays(b, m, hist, at);
      KeepsLater(b, m, hist, now, at);
      FillConserves(b, m, hist, at, at);
      FillKeepsFirst(b, m, at);
      CutPlays(b, FillTo(b, m, at), WrittenByFill(b, m, hist, at), at);
  }

  // ----- the main results -----

  lemma {:induction false} RunConserves(b: Board, m: Machine, hist: History, ops: seq<Op>, now: int)
    requires Conserved(b, m, hist, now) && Played(b, m, hist) && Orderly(b, m, ops, now)
    ensures Timed(ops, now)
    ensures var r := Run(b, m, ops, now);
            var all := AllWritten(b, m, hist, ops, now);
            Conserved(b, r, all, LastAt(ops, now)) && Played(b, r, all)
    decreases |ops|
  {
    OrderlyIsTimed(b, m, ops, now);
    if ops != [] {
      var op := ops[0];
      OperationConservesIff(b, m, hist, now, op);
      OperationPlays(b, m, hist, now, op);
      RunConserves(b, Apply(b, m, op), Written(b, m, hist, op), ops[1..], op.at);
    }
  }

  /** A log as audio_init() or audio_reset_log() create it, with nothing written yet. */
  lemma CreatedConserves(b: Board, psg: Psg.PsgModule, start: int)
    requires b.Valid() && Psg.Valid(psg)
    ensures var m := Machine(Created(b, psg.stereo, start), [], psg, false);
            var none := seq(b.Sources(), _ => []);
            Conserved(b, m, none, start) && Played(b, m, none)
  {
  }

  lemma {:induction false} CurrentGivesBack(closed: seq<Log>, log: Log, i: nat, h: seq<Change>, now: int)
    requires i < |log.src| && forall l :: l in closed ==> i < |l.src|
    requires Keeps(closed, log, i, h, now) && now - log.first < WORD
    ensures ReadBack(closed, i) + Starts(log.first, log.src[i].samples) == h
  {
    var n := |ReadBack(closed, i)|;
    if h[n..] != [] {
      StartsOfSpelling(log.src[i].samples, log.first, ValueAfter(0, h, n), h[n..]);
    }
    assert h[..n] + h[n..] == h;
  }

  /**
   The waveform theorem. After any orderly run from a fresh log, for every
   source and every tick up to the end of the run, reading each log from its
   start to the start of the next one gives the value last written at or before
   that tick, and the changes in the logs are exactly the changes written.
   */
  lemma {:induction false} LogsAreTheHistory(b: Board, psg: Psg.PsgModule, ops: seq<Op>, start: int, i: nat, at: int)
    requires b.Valid() && Psg.Valid(psg) && i < b.Sources()
    requires Orderly(b, Machine(Created(b, psg.stereo, start), [], psg, false), ops, start)
    ensures Timed(ops, start)
    ensures var m := Machine(Created(b, psg.stereo, start), [], psg, false);
            var r := Run(b, m, ops, start);
            var h := AllWritten(b, m, seq(b.Sources(), _ => []), ops, start);
            && |h| == b.Sources() == |r.log.src| && (forall l :: l in r.closed ==> |l.src| == b.Sources())
            && ReadBack(r.closed, i) + Starts(r.log.first, r.log.src[i].samples) == h[i]
            && PlayAt(r.closed, r.log, i, at) == WaveAt(0, h[i], at)
  {
    var m := Machine(Created(b, psg.stereo, start), [], psg, false);
    var none := seq(b.Sources(), _ => []);
    CreatedConserves(b, psg, start);
    RunConserves(b, m, none, ops, start);
    var r := Run(b, m, ops, start);
    var h := AllWritten(b, m, none, ops, start);
    var now := LastAt(ops, start);
    assert Keeps(r.closed, r.log, i, h[i], Horizon(r.log, i, now));
    assert Plays(r.closed, r.log, i, h[i]);
    PlayIsWave(r.closed, r.log, i, h[i], Horizon(r.log, i, now), at);
    CurrentGivesBack(r.closed, r.log, i, h[i], Horizon(r.log, i, now));
  }
}
