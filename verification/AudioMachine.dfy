/**
 The audio log of the emulator as a machine on values: lazy filling of the PSG
 sources on a fixed tick grid, live CTC0 changes, register writes and the cut
 at the end of a frame (src/emulator/audio.c, src/emulator/hw-generic/psg/psg.c).
 The classes in AudioLog.dfy are proved against these functions.
 */
module AudioMachine {
  import opened SourceLogs
  import Psg

  const CTC0: nat := 0

  /** The build: number of PSG chips (HAVE_PSG) and PSG_DIVIDER in GDG ticks. */
  datatype Board = Board(havePsg: nat, divider: nat) {
    ghost predicate Valid() {
      havePsg <= 2 && 0 < divider < WORD
    }

    /** AUDIO_SRC_CHANNELS_COUNT */
    function Sources(): nat {
      1 + 4 * havePsg
    }
  }

  datatype Log = Log(stereo: bool, first: int, last: int, lastPsg: int, src: seq<Source>)

  /** The current log, the logs handed over so far (oldest first) and the PSG registers. */
  datatype Machine = Machine(log: Log, closed: seq<Log>, psg: Psg.PsgModule, ctc0: bool)

  ghost predicate WellFormed(b: Board, m: Machine) {
    && b.Valid()
    && Psg.Valid(m.psg)
    && |m.log.src| == b.Sources()
    && m.log.first <= m.log.lastPsg
    && forall l :: l in m.closed ==> |l.src| == b.Sources()
  }

  // ----- operations -----

  /** audio_log_create() with every source initialised to 0, as audio_init() and audio_reset_log() do. */
  function Created(b: Board, stereo: bool, first: int): Log {
    Log(stereo, first, first, first, seq(b.Sources(), _ => Fresh(first, 0)))
  }

  /** audio_psg_phase_ticks() */
  function PhaseTicks(m: Machine, now: int): (phase: nat) {
    if now < m.log.lastPsg then 0 else now - m.log.lastPsg
  }

  /** audio_ctc0_changed() */
  function Ctc0Changed(m: Machine, on: bool, t: int): Machine
    requires m.log.src != []
  {
    var value := if on then Psg.MAX_LEVEL else 0;
    m.(log := m.log.(src := m.log.src[CTC0 := Changed(m.log.src[CTC0], value, t)]), ctc0 := on)
  }

  /** Is source `i` logged at a PSG step? Sources 1..4 are PSG0, 5..8 are PSG1 (stereo only). */
  predicate Driven(b: Board, psg: Psg.PsgModule, i: nat) {
    1 <= i < b.Sources() && (i <= 4 || psg.stereo)
  }

  function DrivenLevel(b: Board, psg: Psg.PsgModule, i: nat): int
    requires b.havePsg <= 2 && Psg.Valid(psg) && Driven(b, psg, i)
  {
    if i <= 4 then Psg.Level(psg.chips[0].channels[i - 1]) else Psg.Level(psg.chips[1].channels[i - 5])
  }

  function Scanned(b: Board, s: Source, psg: Psg.PsgModule, i: nat, t: int): Source
    requires b.havePsg <= 2 && Psg.Valid(psg)
  {
    if Driven(b, psg, i) then Changed(s, DrivenLevel(b, psg, i), t) else s
  }

  /** One round of the fill loop: step the chips, log every channel, advance the grid. */
  function StepFill(b: Board, m: Machine): Machine
    requires WellFormed(b, m)
  {
    var psg := Psg.Step(m.psg);
    var src := seq(|m.log.src|, i requires 0 <= i < |m.log.src| => Scanned(b, m.log.src[i], psg, i, m.log.lastPsg));
    m.(log := m.log.(src := src, lastPsg := m.log.lastPsg + b.divider), psg := psg)
  }

  lemma StepFillWellFormed(b: Board, m: Machine)
    requires WellFormed(b, m)
    ensures WellFormed(b, StepFill(b, m))
  {
  }

  /** audio_log_fill_psg(); without a PSG the grid follows the clock. */
  function FillTo(b: Board, m: Machine, t: int): (r: Machine)
    requires WellFormed(b, m)
    ensures WellFormed(b, r) || t < m.log.first
    decreases t - m.log.lastPsg
  {
    if b.havePsg == 0 then m.(log := m.log.(lastPsg := t))
    else if t - m.log.lastPsg >= b.divider then
      StepFillWellFormed(b, m);
      FillTo(b, StepFill(b, m), t)
    else m
  }

  /** The finished log: every open event closed at `t`, then the CTC0 events past the cut removed. */
  function Finished(log: Log, t: int): Log
    requires log.src != []
  {
    log.(last := t,
         src := seq(|log.src|, i requires 0 <= i < |log.src| =>
                  var c := Closed(log.src[i], t);
                  if i == CTC0 then Kept(c, log.lastPsg, t) else c))
  }

  /** The log of the next frame: the last values, and for CTC0 the changes past the cut. */
  function NextLog(log: Log, stereo: bool, t: int): Log
    requires log.src != []
  {
    Log(stereo, log.lastPsg, log.lastPsg, log.lastPsg,
        seq(|log.src|, i requires 0 <= i < |log.src| =>
              if i == CTC0 then Carried(Closed(log.src[i], t), log.lastPsg, t)
              else Fresh(log.lastPsg, log.src[i].lastValue)))
  }

  /** audiolog_finish_20ms_frame() after its fill. */
  function Cut(m: Machine, t: int): Machine
    requires m.log.src != []
  {
    m.(log := NextLog(m.log, m.psg.stereo, t), closed := m.closed + [Finished(m.log, t)])
  }

  function FinishFrame(b: Board, m: Machine, t: int): Machine
    requires WellFormed(b, m) && m.log.first <= t
  {
    Cut(FillTo(b, m, t), t)
  }

  function WithChip(psg: Psg.PsgModule, c: nat, chip: Psg.Chip): Psg.PsgModule
    requires |psg.chips| == 2 && c < 2
  {
    psg.(chips := psg.chips[c := chip])
  }

  /** psg_write_byte_core() on chip `c`. */
  function WriteChip(b: Board, m: Machine, c: nat, value: Psg.byte, t: int): (r: Machine)
    requires WellFormed(b, m) && m.log.first <= t && c < 2
    ensures WellFormed(b, r)
  {
    var filled := if Psg.NeedsFill(m.psg.chips[c], value) then FillTo(b, m, t) else m;
    filled.(psg := WithChip(filled.psg, c, Psg.WriteByte(filled.psg.chips[c], value)))
  }

  lemma {:induction false} FillKeepsFirst(b: Board, m: Machine, t: int)
    requires WellFormed(b, m)
    ensures var r := FillTo(b, m, t);
            r.log.first == m.log.first && r.closed == m.closed && r.psg.stereo == m.psg.stereo && r.ctc0 == m.ctc0
            && |r.log.src| == |m.log.src| && r.log.last == m.log.last && r.log.stereo == m.log.stereo
    decreases t - m.log.lastPsg
  {
    if b.havePsg != 0 && t - m.log.lastPsg >= b.divider {
      StepFillWellFormed(b, m);
      FillKeepsFirst(b, StepFill(b, m), t);
    }
  }

  lemma WriteKeepsFirst(b: Board, m: Machine, c: nat, value: Psg.byte, t: int)
    requires WellFormed(b, m) && m.log.first <= t && c < 2
    ensures WriteChip(b, m, c, value, t).log.first == m.log.first
  {
    FillKeepsFirst(b, m, t);
  }

  /** psg_write_byte(): in mono the mask is ignored, in stereo each bit addresses one chip. */
  function PsgWrite(b: Board, m: Machine, left: bool, right: bool, value: Psg.byte, t: int): (r: Machine)
    requires WellFormed(b, m) && m.log.first <= t
    ensures WellFormed(b, r)
  {
    if !m.psg.stereo then WriteChip(b, m, 0, value, t)
    else
      var m1 := if left then WriteChip(b, m, 0, value, t) else m;
      assert m1.log.first == m.log.first by { WriteKeepsFirst(b, m, 0, value, t); }
      if right then WriteChip(b, m1, 1, value, t) else m1
  }

  datatype Op =
    | Ctc0(on: bool, at: int)
    | Write(left: bool, right: bool, value: Psg.byte, at: int)
    | Fill(at: int)
    | Finish(at: int)

  function Apply(b: Board, m: Machine, op: Op): (r: Machine)
    requires WellFormed(b, m) && m.log.first <= op.at
    ensures WellFormed(b, r)
  {
    match op
    case Ctc0(on, at) => Ctc0Changed(m, on, at)
    case Write(left, right, value, at) => PsgWrite(b, m, left, right, value, at)
    case Fill(at) => FillTo(b, m, at)
    case Finish(at) => FinishFrame(b, m, at)
  }
}
