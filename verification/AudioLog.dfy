/**
 The audio log as the emulator keeps it: objects updated in place by live
 events, by the lazy PSG fill and by the end of a frame (src/emulator/audio.c).
 Every method is proved against the functions of SourceLogs and AudioMachine.
 */
module AudioLog {
  import L = SourceLogs
  import M = AudioMachine
  import Psg
  import PsgSound
  import AudioLaziness

  /** st_AUDIO_SOURCE_LOG */
  class SourceLog {
    var lastTimestamp: int
    var lastValue: int
    var samples: seq<L.Event>

    ghost function Model(): L.Source
      reads this
    {
      L.Source(lastTimestamp, lastValue, samples)
    }

    constructor (first: int)
      ensures Model() == L.Fresh(first, 0)
    {
      lastTimestamp, lastValue, samples := first, 0, [];
    }

    /** audio_log_init_src() */
    method Init(value: int)
      modifies this
      ensures Model() == old(Model()).(lastValue := value)
    {
      lastValue := value;
    }

    /** audio_changed() */
    method Changed(value: int, t: int)
      modifies this
      ensures Model() == L.Changed(old(Model()), value, t)
    {
      if lastValue == value {
        return;
      }
      if samples == [] {
        samples := [L.Event(0, lastValue)];
      }
      var n := |samples| - 1;
      samples := samples[n := L.Event(L.Wrap(t - lastTimestamp), samples[n].value)];
      lastTimestamp := t;
      samples := samples + [L.Event(0, value)];
      lastValue := value;
    }

    /** The frame ends at `t`: the open event gets its count. */
    method Close(t: int)
      modifies this
      ensures Model() == L.Closed(old(Model()), t)
    {
      if samples != [] {
        var n := |samples| - 1;
        samples := samples[n := L.Event(L.Wrap(t - lastTimestamp), samples[n].value)];
      }
    }

    /** The backward walk to the event that spans the cut; the stamp is assigned inside the loop only. */
    method FindSplit(cut: int, t: int) returns (firstEvent: nat, stamp: int)
      requires L.Splits(Model(), cut, t)
      ensures firstEvent == L.SplitIndex(Model(), cut, t) && stamp == L.SplitStamp(Model(), cut, t)
    {
      var remaining: nat := L.Wrap(t - cut);
      firstEvent := |samples| - 1;
      stamp := 0;
      ghost var found := L.Walk(samples, |samples| - 1, remaining);
      while firstEvent > 0
        invariant 0 <= firstEvent < |samples|
        invariant stamp == 0
        invariant L.Walk(samples, firstEvent, remaining) == found
        decreases firstEvent
      {
        var e := samples[firstEvent];
        if e.count >= remaining {
          stamp := cut + remaining;
          break;
        }
        remaining := remaining - e.count;
        firstEvent := firstEvent - 1;
      }
    }

    /**
     Moves the CTC0 events past `cut` from this closed source to the fresh
     source `next` of the log that starts at `cut`.
     */
    method MoveTo(next: SourceLog, cut: int, t: int)
      requires next != this && next.Model() == L.Fresh(cut, 0)
      requires L.Splits(Model(), cut, t)
      modifies this, next
      ensures Model() == L.Kept(old(Model()), cut, t)
      ensures next.Model() == L.Carried(old(Model()), cut, t)
    {
      var firstEvent, stamp := FindSplit(cut, t);
      next.Init(samples[firstEvent].value);
      firstEvent := firstEvent + 1;
      ghost var all := L.Replay(next.Model(), samples[firstEvent..], stamp);
      for i := firstEvent to |samples|
        invariant unchanged(this)
        invariant L.Replay(next.Model(), samples[i..], stamp) == all
      {
        var e := samples[i];
        assert samples[i..][1..] == samples[i + 1..];
        next.Changed(e.value, stamp);
        stamp := stamp + e.count;
      }
      samples := samples[..firstEvent];
    }
  }

  ghost predicate Distinct(src: seq<SourceLog>) {
    forall i, j :: 0 <= i < j < |src| ==> src[i] != src[j]
  }

  ghost function Models(src: seq<SourceLog>): seq<L.Source>
    reads src
  {
    seq(|src|, i requires 0 <= i < |src| reads src => src[i].Model())
  }

  /** st_AUDIO_LOG */
  class Log {
    const stereo: bool
    const first: int
    var last: int
    var lastPsg: int
    const src: seq<SourceLog>

    ghost function Model(): M.Log
      reads this, src
    {
      M.Log(stereo, first, last, lastPsg, Models(src))
    }

    /** audio_log_create() */
    constructor (board: M.Board, stereo: bool, first: int)
      ensures Model() == M.Created(board, stereo, first)
      ensures Distinct(src) && fresh(src)
    {
      var sources: seq<SourceLog> := [];
      while |sources| < board.Sources()
        invariant |sources| <= board.Sources()
        invariant fresh(sources) && Distinct(sources)
        invariant forall i :: 0 <= i < |sources| ==> sources[i].Model() == L.Fresh(first, 0)
      {
        var s := new SourceLog(first);
        sources := sources + [s];
      }
      this.stereo, this.first, last, lastPsg := stereo, first, first, first;
      src := sources;
      new;
      assert Models(src) == M.Created(board, stereo, first).src;
    }
  }

  lemma IsFinished(log: M.Log, t: int, src: seq<L.Source>)
    requires |src| == |log.src| > 0
    requires src[M.CTC0] == L.Kept(L.Closed(log.src[M.CTC0], t), log.lastPsg, t)
    requires forall j :: 1 <= j < |src| ==> src[j] == L.Closed(log.src[j], t)
    ensures src == M.Finished(log, t).src
  {
  }

  lemma IsNext(log: M.Log, stereo: bool, t: int, src: seq<L.Source>)
    requires |src| == |log.src| > 0
    requires src[M.CTC0] == L.Carried(L.Closed(log.src[M.CTC0], t), log.lastPsg, t)
    requires forall j :: 1 <= j < |src| ==> src[j] == L.Fresh(log.lastPsg, log.src[j].lastValue)
    ensures src == M.NextLog(log, stereo, t).src
  {
  }

  lemma ModelsAt(src: seq<SourceLog>)
    ensures |Models(src)| == |src| && forall j :: 0 <= j < |src| ==> Models(src)[j] == src[j].Model()
  {
  }

  lemma AreLoudnesses(c: Psg.Chip)
    requires Psg.ValidChip(c)
    ensures forall k :: 0 <= k < 4 && c.channels[k].attn <= 15 ==> Psg.Level(c.channels[k]) == PsgSound.Loudness(c.channels[k])
  {
    forall k | 0 <= k < 4 && c.channels[k].attn <= 15
      ensures Psg.Level(c.channels[k]) == PsgSound.Loudness(c.channels[k])
    {
      PsgSound.LevelIsLoudness(c.channels[k]);
    }
  }

  /** st_AUDIO together with the PSG registers it steps. */
  class Audio {
    const board: M.Board
    var log: Log
    var oldLog: Log?
    var psg: Psg.PsgModule
    var ctc0Output: bool
    ghost var closed: seq<M.Log>   // every log handed over so far

    ghost predicate Valid()
      reads this, log, log.src
    {
      Distinct(log.src) && M.WellFormed(board, Model())
    }

    ghost function Model(): M.Machine
      reads this, log, log.src
    {
      M.Machine(log.Model(), closed, psg, ctc0Output)
    }

    /** audio_init() and audio_reset_log() */
    constructor (board: M.Board, psg: Psg.PsgModule, start: int)
      requires board.Valid() && Psg.Valid(psg)
      ensures Valid() && fresh(log) && fresh(log.src)
      ensures this.board == board
      ensures Model() == M.Machine(M.Created(board, psg.stereo, start), [], psg, false)
    {
      this.board, this.psg, ctc0Output, closed, oldLog := board, psg, false, [], null;
      log := new Log(board, psg.stereo, start);
    }

    /** audio_ctc0_changed() */
    method Ctc0Changed(on: bool, t: int)
      requires Valid()
      modifies this`ctc0Output, log.src
      ensures Valid() && log == old(log)
      ensures Model() == M.Ctc0Changed(old(Model()), on, t)
    {
      log.src[M.CTC0].Changed(if on then Psg.MAX_LEVEL else 0, t);
      ctc0Output := on;
      assert Models(log.src) == M.Ctc0Changed(old(Model()), on, t).log.src;
    }

    /** The channel loop of a PSG step: every channel of the stepped chips is logged at `t`. */
    method LogChannels(t: int)
      requires Valid() && board.havePsg > 0
      modifies log.src
      ensures forall i :: 0 <= i < |log.src| ==> log.src[i].Model() == M.Scanned(board, old(log.src[i].Model()), psg, i, t)
      ensures forall c :: 0 <= c < 4 && psg.chips[0].channels[c].attn <= 15 ==>
                log.src[1 + c].lastValue == PsgSound.Loudness(psg.chips[0].channels[c])
      ensures forall c :: 0 <= c < 4 && board.havePsg == 2 && psg.stereo && psg.chips[1].channels[c].attn <= 15 ==>
                log.src[5 + c].lastValue == PsgSound.Loudness(psg.chips[1].channels[c])
    {
      for channel := 0 to 4
        invariant forall i :: 0 <= i < |log.src| ==>
          log.src[i].Model() == if i <= channel || 5 <= i <= 4 + channel
                                then M.Scanned(board, old(log.src[i].Model()), psg, i, t) else old(log.src[i].Model())
      {
        log.src[1 + channel].Changed(Psg.Level(psg.chips[0].channels[channel]), t);
        if board.havePsg == 2 && psg.stereo {
          log.src[5 + channel].Changed(Psg.Level(psg.chips[1].channels[channel]), t);
        }
      }
      AreLoudnesses(psg.chips[0]);
      AreLoudnesses(psg.chips[1]);
    }

    /** One PSG step, logged at the current grid point. */
    method StepAndLog()
      requires Valid() && board.havePsg > 0
      modifies this`psg, log, log.src
      ensures Valid() && log == old(log)
      ensures Model() == M.StepFill(board, old(Model()))
    {
      psg := Psg.Step(psg);
      LogChannels(log.lastPsg);
      log.lastPsg := log.lastPsg + board.divider;
      assert Models(log.src) == M.StepFill(board, old(Model())).log.src;
    }

    /** audio_log_fill_psg() */
    method FillPsg(t: int)
      requires Valid() && log.lastPsg <= t
      modifies this`psg, log, log.src
      ensures Valid() && log == old(log)
      ensures Model() == M.FillTo(board, old(Model()), t)
    {
      if board.havePsg == 0 {
        log.lastPsg := t;
        return;
      }
      ghost var filled := M.FillTo(board, Model(), t);
      while t - log.lastPsg >= board.divider
        invariant Valid() && log == old(log)
        invariant M.FillTo(board, Model(), t) == filled
        decreases t - log.lastPsg
      {
        StepAndLog();
      }
    }

    /** audio_psg_phase_ticks() */
    method PhaseTicks(now: int) returns (phase: nat)
      ensures phase == M.PhaseTicks(Model(), now)
    {
      phase := if now < log.lastPsg then 0 else now - log.lastPsg;
    }

    /** The register write of psg_write_byte_core(). */
    method WriteRegister(c: nat, value: Psg.byte)
      requires Valid() && c < 2
      modifies this`psg
      ensures Valid()
      ensures Model() == old(Model()).(psg := M.WithChip(old(psg), c, Psg.WriteByte(old(psg).chips[c], value)))
    {
      psg := M.WithChip(psg, c, Psg.WriteByte(psg.chips[c], value));
    }

    /** psg_write_byte_core() */
    method WriteChip(c: nat, value: Psg.byte, t: int)
      requires Valid() && log.lastPsg <= t && c < 2
      modifies this`psg, log, log.src
      ensures Valid() && log == old(log)
      ensures Model() == M.WriteChip(board, old(Model()), c, value, t)
    {
      if Psg.NeedsFill(psg.chips[c], value) {
        FillPsg(t);
      }
      WriteRegister(c, value);
    }

    /** psg_write_byte(): in mono the mask is ignored. */
    method WriteByte(left: bool, right: bool, value: Psg.byte, t: int)
      requires Valid() && log.lastPsg <= t
      modifies this`psg, log, log.src
      ensures Valid() && log == old(log)
      ensures Model() == M.PsgWrite(board, old(Model()), left, right, value, t)
    {
      ghost var before := Model();
      AudioLaziness.WriteChipAfterFill(board, before, 0, value, t);
      M.WriteKeepsFirst(board, before, 0, value, t);
      if !psg.stereo {
        WriteChip(0, value, t);
        return;
      }
      if left {
        WriteChip(0, value, t);
      }
      if right {
        WriteChip(1, value, t);
      }
    }

    /** audiolog_finish_20ms_frame(), lines 393-406: the frame and its open events end at `t`. */
    method CloseSources(t: int)
      requires Valid()
      modifies log, log.src
      ensures log.lastPsg == old(log.lastPsg) && log.last == t
      ensures |Models(log.src)| == |log.src|
      ensures forall j :: 0 <= j < |log.src| ==> log.src[j].Model() == L.Closed(old(log.src[j].Model()), t)
    {
      log.last := t;
      for i := 0 to |log.src|
        invariant log.lastPsg == old(log.lastPsg) && log.last == t
        invariant forall j :: 0 <= j < |log.src| ==>
          log.src[j].Model() == if j < i then L.Closed(old(log.src[j].Model()), t) else old(log.src[j].Model())
      {
        log.src[i].Close(t);
      }
    }

    /** Lines 408-454: the next log, with the CTC0 events past the cut; `firstSrc` is the first source still to copy. */
    method StartNext(t: int) returns (next: Log, firstSrc: nat)
      requires Valid()
      modifies log.src[M.CTC0]
      ensures fresh(next) && fresh(next.src) && Distinct(next.src) && |next.src| == |log.src|
      ensures next.stereo == psg.stereo && next.first == next.last == next.lastPsg == log.lastPsg
      ensures forall j :: 1 <= j < |next.src| ==> next.src[j].Model() == L.Fresh(log.lastPsg, 0)
      ensures var old0 := old(log.src[M.CTC0].Model());
              if L.Splits(old0, log.lastPsg, t) then
                && firstSrc == 1
                && log.src[M.CTC0].Model() == L.Kept(old0, log.lastPsg, t)
                && next.src[M.CTC0].Model() == L.Carried(old0, log.lastPsg, t)
              else
                && firstSrc == 0
                && log.src[M.CTC0].Model() == old0
                && next.src[M.CTC0].Model() == L.Fresh(log.lastPsg, 0)
    {
      next := new Log(board, psg.stereo, log.lastPsg);
      assert forall j :: 0 <= j < |next.src| ==> next.src[j].Model() == next.Model().src[j];
      firstSrc := 1;
      if L.Wrap(t - log.lastPsg) == 0 || log.src[M.CTC0].samples == [] {
        firstSrc := 0;
      } else {
        log.src[M.CTC0].MoveTo(next.src[M.CTC0], log.lastPsg, t);
      }
    }

    /** Lines 456-461: the next log starts with the last values of the sources from `firstSrc` on. */
    method CopyLastValues(next: Log, firstSrc: nat)
      requires Valid() && |next.src| == |log.src| && firstSrc <= 1
      requires Distinct(next.src) && forall i, j :: 0 <= i < |log.src| && 0 <= j < |next.src| ==> log.src[i] != next.src[j]
      requires forall j :: firstSrc <= j < |next.src| ==> next.src[j].Model() == L.Fresh(next.first, 0)
      modifies next.src
      ensures forall j :: 0 <= j < |log.src| ==> log.src[j].Model() == old(log.src[j].Model())
      ensures forall j :: firstSrc <= j < |next.src| ==> next.src[j].Model() == L.Fresh(next.first, log.src[j].lastValue)
      ensures forall j :: 0 <= j < firstSrc ==> next.src[j].Model() == old(next.src[j].Model())
    {
      for i := firstSrc to |log.src|
        invariant forall j :: 0 <= j < |next.src| ==>
          next.src[j].Model() == if firstSrc <= j < i then L.Fresh(next.first, log.src[j].lastValue)
                                 else old(next.src[j].Model())
      {
        next.src[i].Init(log.src[i].lastValue);
      }
    }

    /** Lines 408-461: the next log, and what stays in the closed one. */
    method OpenNext(t: int) returns (next: Log)
      requires Valid()
      modifies log.src
      ensures fresh(next) && fresh(next.src) && Distinct(next.src) && |next.src| == |log.src|
      ensures next.stereo == psg.stereo && next.first == next.last == next.lastPsg == log.lastPsg
      ensures log.src[M.CTC0].Model() == L.Kept(old(log.src[M.CTC0].Model()), log.lastPsg, t)
      ensures forall j :: 1 <= j < |log.src| ==> log.src[j].Model() == old(log.src[j].Model())
      ensures next.src[M.CTC0].Model() == L.Carried(old(log.src[M.CTC0].Model()), log.lastPsg, t)
      ensures forall j :: 1 <= j < |next.src| ==> next.src[j].Model() == L.Fresh(log.lastPsg, old(log.src[j].lastValue))
    {
      var firstSrc;
      next, firstSrc := StartNext(t);
      CopyLastValues(next, firstSrc);
    }

    /** Everything after the fill, up to the swap of the logs. */
    method CutFrame(t: int) returns (next: Log)
      requires Valid()
      modifies log, log.src
      ensures fresh(next) && fresh(next.src) && Distinct(next.src)
      ensures next.Model() == M.NextLog(old(log.Model()), psg.stereo, t)
      ensures log.Model() == M.Finished(old(log.Model()), t)
    {
      ghost var before := log.Model();
      ModelsAt(log.src);
      CloseSources(t);
      next := OpenNext(t);
      ModelsAt(log.src);
      ModelsAt(next.src);
      IsFinished(before, t, Models(log.src));
      IsNext(before, psg.stereo, t, Models(next.src));
    }

    /** audiolog_finish_20ms_frame() */
    method FinishFrame(t: int)
      requires Valid() && log.lastPsg <= t
      modifies this, log, log.src
      ensures Valid() && fresh(log) && fresh(log.src)
      ensures Model() == M.FinishFrame(board, old(Model()), t)
      ensures oldLog == old(log) && closed == old(closed) + [oldLog.Model()]
    {
      FillPsg(t);
      var next := CutFrame(t);
      closed := closed + [log.Model()];
      oldLog := log;
      log := next;
    }
  }
}
