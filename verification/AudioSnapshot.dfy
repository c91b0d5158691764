/**
 The audio part of a snapshot (src/emulator/snapshot/handlers/snap_audio.c): the
 log is not saved, only the phase of the PSG grid; the load starts a fresh log
 that much earlier. The registers of the PSG are saved by their own handler.
 */
module AudioSnapshot {
  import opened AudioMachine
  import opened AudioLaziness
  import opened Basics
  import Psg

  /** snap_audio_load() at tick `now` with the phase of the snapshot; the PSG registers are already loaded. */
  function Loaded(b: Board, psg: Psg.PsgModule, ctc0: bool, phase: nat, now: int): Machine {
    Machine(Created(b, psg.stereo, now - Min(phase, now)), [], psg, ctc0)
  }

  /** The generators have made the same steps, and the next one is due at the same tick. */
  predicate InStep(m: Machine, n: Machine) {
    m.psg == n.psg && m.log.lastPsg == n.log.lastPsg
  }

  lemma {:induction false} FillInStep(b: Board, m: Machine, n: Machine, t: int)
    requires WellFormed(b, m) && WellFormed(b, n) && InStep(m, n)
    ensures InStep(FillTo(b, m, t), FillTo(b, n, t))
    decreases t - m.log.lastPsg
  {
    if b.havePsg != 0 && t - m.log.lastPsg >= b.divider {
      StepFillWellFormed(b, m);
      StepFillWellFormed(b, n);
      FillInStep(b, StepFill(b, m), StepFill(b, n), t);
    }
  }

  lemma {:induction false} WriteInStep(b: Board, m: Machine, n: Machine, c: nat, value: Psg.byte, t: int)
    requires WellFormed(b, m) && WellFormed(b, n) && InStep(m, n) && c < 2
    requires m.log.first <= t && n.log.first <= t
    ensures InStep(WriteChip(b, m, c, value, t), WriteChip(b, n, c, value, t))
  {
    FillInStep(b, m, n, t);
  }

  lemma {:induction false} OpInStep(b: Board, m: Machine, n: Machine, op: Op)
    requires WellFormed(b, m) && WellFormed(b, n) && InStep(m, n) && InTime(m, op)
    ensures InStep(Apply(b, m, op), Apply(b, n, op))
  {
    FillInStep(b, m, n, op.at);
    if op.Write? {
      WriteInStep(b, m, n, 0, op.value, op.at);
      WriteKeepsFirst(b, m, 0, op.value, op.at);
      WriteKeepsFirst(b, n, 0, op.value, op.at);
      if m.psg.stereo && op.right {
        var m1 := if op.left then WriteChip(b, m, 0, op.value, op.at) else m;
        var n1 := if op.left then WriteChip(b, n, 0, op.value, op.at) else n;
        WriteInStep(b, m1, n1, 1, op.value, op.at);
      }
    }
  }

  lemma {:induction false} RunsInStep(b: Board, m: Machine, n: Machine, ops: seq<Op>, now: int)
    requires WellFormed(b, m) && WellFormed(b, n) && InStep(m, n) && m.log.lastPsg <= now && Timed(ops, now)
    ensures InStep(Run(b, m, ops, now), Run(b, n, ops, now))
    decreases |ops|
  {
    if ops != [] {
      OpAfterFill(b, m, ops[0]);
      OpAfterFill(b, n, ops[0]);
      OpInStep(b, m, n, ops[0]);
      RunsInStep(b, Apply(b, m, ops[0]), Apply(b, n, ops[0]), ops[1..], ops[0].at);
    }
  }

  lemma LoadedWellFormed(b: Board, m: Machine, phase: nat, now: int)
    requires WellFormed(b, m) && 0 <= now
    ensures var n := Loaded(b, m.psg, m.ctc0, phase, now);
            WellFormed(b, n) && n.log.lastPsg == now - Min(phase, now) <= now
  {
  }

  /**
   What the phase is for: after any operations the machine loaded from a snapshot
   has the same PSG state, and its next step at the same tick, as the machine that
   went on without a load.
   */
  lemma {:induction false} SnapshotContinues(b: Board, m: Machine, now: int, ops: seq<Op>)
    requires WellFormed(b, m) && 0 <= m.log.lastPsg <= now && Timed(ops, now)
    ensures var n := Loaded(b, m.psg, m.ctc0, PhaseTicks(m, now), now);
            && WellFormed(b, n) && n.log.lastPsg <= now
            && InStep(Run(b, m, ops, now), Run(b, n, ops, now))
  {
    LoadedWellFormed(b, m, PhaseTicks(m, now), now);
    RunsInStep(b, m, Loaded(b, m.psg, m.ctc0, PhaseTicks(m, now), now), ops, now);
  }

  lemma SameRestIff(d: nat, x: int, y: int, z: int)
    requires d > 0 && z == x - y
    ensures x % d == y % d <==> z % d == 0
  {
    var q := x / d - y / d;
    assert x - y == q * d + (x % d - y % d);
    if x % d >= y % d {
      RestOf(d, z, q, x % d - y % d);
    } else {
      assert x - y == (q - 1) * d + (x % d - y % d + d);
      RestOf(d, z, q - 1, x % d - y % d + d);
    }
  }

  predicate IsMultiple(b: Board, ticks: int)
    requires b.divider > 0
  {
    ticks % b.divider == 0
  }

  lemma SamePointIff(b: Board, from: int, other: int, t: int)
    requires b.divider > 0
    ensures LastPoint(b, from, t) == LastPoint(b, other, t) <==> IsMultiple(b, other - from)
  {
    SameRestIff(b.divider, t - from, t - other, other - from);
  }

  ghost predicate SameGridAt(b: Board, m: Machine, n: Machine, t: int)
    requires WellFormed(b, m) && WellFormed(b, n)
  {
    FillTo(b, m, t).log.lastPsg == FillTo(b, n, t).log.lastPsg
  }

  lemma {:induction false} SameGridIff(b: Board, m: Machine, n: Machine, t: int)
    requires WellFormed(b, m) && WellFormed(b, n) && b.havePsg > 0 && m.log.lastPsg <= t && n.log.lastPsg <= t
    ensures SameGridAt(b, m, n, t) <==> IsMultiple(b, n.log.lastPsg - m.log.lastPsg)
  {
    FillEndsOnGrid(b, m, t);
    FillEndsOnGrid(b, n, t);
    SamePointIff(b, m.log.lastPsg, n.log.lastPsg, t);
  }

  /**
   Only the rest of the phase matters for the grid: a load with any phase, as with
   the phase 0 of an old snapshot, keeps the grid if and only if the two phases
   differ by whole dividers.
   */
  lemma {:induction false} GridIsKeptIff(b: Board, m: Machine, now: int, phase: nat)
    requires WellFormed(b, m) && b.havePsg > 0 && 0 <= m.log.lastPsg <= now && phase <= now
    ensures var n := Loaded(b, m.psg, m.ctc0, phase, now);
            && WellFormed(b, n)
            && ((forall t :: now <= t ==> SameGridAt(b, m, n, t)) <==> IsMultiple(b, PhaseTicks(m, now) - phase))
  {
    LoadedWellFormed(b, m, phase, now);
    var n := Loaded(b, m.psg, m.ctc0, phase, now);
    var differ := n.log.lastPsg - m.log.lastPsg;
    assert PhaseTicks(m, now) - phase == differ;
    forall t | now <= t ensures SameGridAt(b, m, n, t) <==> IsMultiple(b, differ) {
      SameGridIff(b, m, n, t);
    }
    assert SameGridAt(b, m, n, now) <==> IsMultiple(b, differ);
  }
}
