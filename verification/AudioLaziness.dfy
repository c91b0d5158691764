/**
 Lazy PSG stepping: the chips are stepped only when a register is about to
 change audibly and at the end of a frame. Nothing that is logged depends on when
 that happens.
 */
module AudioLaziness {
  import opened SourceLogs
  import opened AudioMachine
  import Psg

  // ----- the grid -----

  /** The grid point `k` steps after `from`. */
  function GridPoint(b: Board, from: int, k: nat): int {
    from + k * b.divider
  }

  ghost predicate OnGrid(b: Board, from: int, point: int) {
    exists k: nat :: point == GridPoint(b, from, k)
  }

  lemma StaysThere(b: Board, point: int)
    ensures OnGrid(b, point, point)
  {
    assert point == GridPoint(b, point, 0);
  }

  lemma NextGridPoint(b: Board, from: int, point: int)
    requires OnGrid(b, from + b.divider, point)
    ensures OnGrid(b, from, point)
  {
    var k: nat :| point == GridPoint(b, from + b.divider, k);
    assert (k + 1) * b.divider == k * b.divider + b.divider;
    assert point == GridPoint(b, from, k + 1);
  }

  /** After a fill at `t` the grid is within one divider of `t` and has moved by whole steps. */
  lemma {:induction false} PhaseBelowDivider(b: Board, m: Machine, t: int)
    requires WellFormed(b, m) && b.havePsg > 0 && m.log.lastPsg <= t
    ensures var g := FillTo(b, m, t).log.lastPsg;
            0 <= t - g < b.divider && m.log.lastPsg <= g && OnGrid(b, m.log.lastPsg, g)
    decreases t - m.log.lastPsg
  {
    if t - m.log.lastPsg >= b.divider {
      StepFillWellFormed(b, m);
      PhaseBelowDivider(b, StepFill(b, m), t);
      NextGridPoint(b, m.log.lastPsg, FillTo(b, m, t).log.lastPsg);
    } else {
      StaysThere(b, m.log.lastPsg);
    }
  }

  lemma OneFactorAtLeast(a: int, d: nat)
    requires a >= 1
    ensures a * d >= d
  {
  }

  lemma RestOf(d: nat, x: int, k: int, r: int)
    requires 0 <= r < d && x == k * d + r
    ensures x % d == r
  {
    var q := x / d;
    assert (q - k) * d == r - x % d;
    if q > k { OneFactorAtLeast(q - k, d); }
    if k > q { OneFactorAtLeast(k - q, d); }
  }

  /** The last grid point at or before `t`. */
  function LastPoint(b: Board, from: int, t: int): int
    requires b.divider > 0
  {
    t - (t - from) % b.divider
  }

  lemma {:induction false} FillEndsOnGrid(b: Board, m: Machine, t: int)
    requires WellFormed(b, m) && b.havePsg > 0 && m.log.lastPsg <= t
    ensures FillTo(b, m, t).log.lastPsg == LastPoint(b, m.log.lastPsg, t)
  {
    PhaseBelowDivider(b, m, t);
    var g := FillTo(b, m, t).log.lastPsg;
    var k: nat :| g == GridPoint(b, m.log.lastPsg, k);
    RestOf(b.divider, t - m.log.lastPsg, k, t - g);
  }

  lemma {:induction false} FillReaches(b: Board, m: Machine, t: int)
    requires WellFormed(b, m) && m.log.lastPsg <= t
    ensures m.log.first <= m.log.lastPsg <= FillTo(b, m, t).log.lastPsg <= t
    ensures WellFormed(b, FillTo(b, m, t))
  {
    if b.havePsg > 0 { PhaseBelowDivider(b, m, t); }
  }

  // ----- fills compose -----

  /** Two fills are one fill at the later time. */
  lemma {:induction false} FillsCompose(b: Board, m: Machine, t: int, u: int)
    requires WellFormed(b, m) && m.log.lastPsg <= t <= u
    ensures WellFormed(b, FillTo(b, m, t))
    ensures FillTo(b, FillTo(b, m, t), u) == FillTo(b, m, u)
    decreases t - m.log.lastPsg
  {
    if b.havePsg != 0 && t - m.log.lastPsg >= b.divider {
      StepFillWellFormed(b, m);
      FillsCompose(b, StepFill(b, m), t, u);
    }
  }

  // ----- what commutes with a fill -----

  lemma Ctc0CommutesWithStep(b: Board, m: Machine, on: bool, at: int)
    requires WellFormed(b, m)
    ensures WellFormed(b, Ctc0Changed(m, on, at))
    ensures StepFill(b, Ctc0Changed(m, on, at)) == Ctc0Changed(StepFill(b, m), on, at)
  {
    var l, r := StepFill(b, Ctc0Changed(m, on, at)), Ctc0Changed(StepFill(b, m), on, at);
    assert l.log.src == r.log.src;
  }

  lemma {:induction false} Ctc0CommutesWithFill(b: Board, m: Machine, on: bool, at: int, t: int)
    requires WellFormed(b, m)
    ensures WellFormed(b, Ctc0Changed(m, on, at)) && |FillTo(b, m, t).log.src| == |m.log.src|
    ensures FillTo(b, Ctc0Changed(m, on, at), t) == Ctc0Changed(FillTo(b, m, t), on, at)
    decreases t - m.log.lastPsg
  {
    if b.havePsg != 0 && t - m.log.lastPsg >= b.divider {
      StepFillWellFormed(b, m);
      Ctc0CommutesWithStep(b, m, on, at);
      Ctc0CommutesWithFill(b, StepFill(b, m), on, at, t);
    }
  }

  function Poke(m: Machine, c: nat, value: Psg.byte): Machine
    requires Psg.Valid(m.psg) && c < 2
  {
    m.(psg := WithChip(m.psg, c, Psg.WriteByte(m.psg.chips[c], value)))
  }

  lemma SameLevelsScanAlike(b: Board, s: Source, p: Psg.PsgModule, q: Psg.PsgModule, i: nat, t: int)
    requires b.havePsg <= 2 && Psg.Valid(p) && Psg.Valid(q) && p.stereo == q.stereo
    requires forall k :: 0 <= k < 4 ==> Psg.Level(q.chips[0].channels[k]) == Psg.Level(p.chips[0].channels[k])
    requires forall k :: 0 <= k < 4 ==> Psg.Level(q.chips[1].channels[k]) == Psg.Level(p.chips[1].channels[k])
    ensures Scanned(b, s, p, i, t) == Scanned(b, s, q, i, t)
  {
  }

  /** A write that needs no fill still needs none a step later, and does not change a level. */
  lemma PokeIsSilent(chip: Psg.Chip, value: Psg.byte)
    requires Psg.ValidChip(chip) && !Psg.NeedsFill(chip, value)
    ensures !Psg.NeedsFill(Psg.StepChip(chip), value)
    ensures forall k :: 0 <= k < 4 ==>
      Psg.Level(Psg.StepChip(Psg.WriteByte(chip, value)).channels[k]) == Psg.Level(Psg.StepChip(chip).channels[k])
  {
    Psg.SilentWriteCommutes(chip, value);
    Psg.SilentWriteCommutes(Psg.StepChip(chip), value);
  }

  /** The chips after the step are the same, and so is every level that is logged. */
  lemma SilentPokeStepsAlike(psg: Psg.PsgModule, c: nat, value: Psg.byte)
    requires Psg.Valid(psg) && c < 2 && !Psg.NeedsFill(psg.chips[c], value)
    ensures var p := Psg.Step(psg);
            var q := Psg.Step(WithChip(psg, c, Psg.WriteByte(psg.chips[c], value)));
            && !Psg.NeedsFill(p.chips[c], value)
            && q == WithChip(p, c, Psg.WriteByte(p.chips[c], value))
            && (forall k :: 0 <= k < 4 ==> Psg.Level(q.chips[0].channels[k]) == Psg.Level(p.chips[0].channels[k]))
            && (forall k :: 0 <= k < 4 ==> Psg.Level(q.chips[1].channels[k]) == Psg.Level(p.chips[1].channels[k]))
  {
    var chip := psg.chips[c];
    Psg.SilentWriteCommutes(chip, value);
    PokeIsSilent(chip, value);
    var p := Psg.Step(psg);
    var q := Psg.Step(WithChip(psg, c, Psg.WriteByte(psg.chips[c], value)));
    assert q.chips == WithChip(p, c, Psg.WriteByte(p.chips[c], value)).chips;
  }

  lemma SilentPokeCommutesWithStep(b: Board, m: Machine, c: nat, value: Psg.byte)
    requires WellFormed(b, m) && c < 2 && !Psg.NeedsFill(m.psg.chips[c], value)
    ensures WellFormed(b, Poke(m, c, value)) && WellFormed(b, StepFill(b, m))
    ensures StepFill(b, Poke(m, c, value)) == Poke(StepFill(b, m), c, value)
    ensures !Psg.NeedsFill(StepFill(b, m).psg.chips[c], value)
  {
    var l, r := StepFill(b, Poke(m, c, value)), Poke(StepFill(b, m), c, value);
    SilentPokeStepsAlike(m.psg, c, value);
    var p, q := Psg.Step(m.psg), Psg.Step(Poke(m, c, value).psg);
    forall i | 0 <= i < |m.log.src|
      ensures Scanned(b, m.log.src[i], p, i, m.log.lastPsg) == Scanned(b, m.log.src[i], q, i, m.log.lastPsg)
    {
      SameLevelsScanAlike(b, m.log.src[i], p, q, i, m.log.lastPsg);
    }
    assert l.log.src == r.log.src;
  }

  lemma {:induction false} SilentPokeCommutesWithFill(b: Board, m: Machine, c: nat, value: Psg.byte, t: int)
    requires WellFormed(b, m) && m.log.lastPsg <= t && c < 2 && !Psg.NeedsFill(m.psg.chips[c], value)
    ensures WellFormed(b, Poke(m, c, value)) && WellFormed(b, FillTo(b, m, t))
    ensures FillTo(b, Poke(m, c, value), t) == Poke(FillTo(b, m, t), c, value)
    ensures !Psg.NeedsFill(FillTo(b, m, t).psg.chips[c], value)
    decreases t - m.log.lastPsg
  {
    if b.havePsg != 0 && t - m.log.lastPsg >= b.divider {
      SilentPokeCommutesWithStep(b, m, c, value);
      SilentPokeCommutesWithFill(b, StepFill(b, m), c, value, t);
    }
  }

  // ----- every operation may be preceded by a fill -----

  /** A filled machine stays filled under a register write. */
  lemma {:induction false} FilledPoke(b: Board, f: Machine, c: nat, value: Psg.byte, t: int)
    requires WellFormed(b, f) && f.log.lastPsg <= t && FillTo(b, f, t) == f && c < 2
    ensures WellFormed(b, Poke(f, c, value)) && FillTo(b, Poke(f, c, value), t) == Poke(f, c, value)
  {
    if b.havePsg > 0 { PhaseBelowDivider(b, f, t); }
  }

  /** A write to one chip: filling at the time of the write first changes nothing but when the steps are done. */
  lemma {:induction false} WriteChipAfterFill(b: Board, m: Machine, c: nat, value: Psg.byte, t: int)
    requires WellFormed(b, m) && m.log.lastPsg <= t && c < 2
    ensures var f := FillTo(b, m, t);
            && WellFormed(b, f) && f.log.first <= t
            && f.log.lastPsg <= WriteChip(b, f, c, value, t).log.lastPsg <= t
            && m.log.lastPsg <= WriteChip(b, m, c, value, t).log.lastPsg <= t
            && FillTo(b, WriteChip(b, m, c, value, t), t) == WriteChip(b, f, c, value, t)
            && FillTo(b, WriteChip(b, f, c, value, t), t) == WriteChip(b, f, c, value, t)
  {
    FillReaches(b, m, t);
    var f := FillTo(b, m, t);
    FillsCompose(b, m, t, t);
    FilledPoke(b, f, c, value, t);
    if !Psg.NeedsFill(m.psg.chips[c], value) {
      SilentPokeCommutesWithFill(b, m, c, value, t);
      FillReaches(b, Poke(m, c, value), t);
    }
  }

  lemma {:induction false} PsgWriteAfterFill(b: Board, m: Machine, left: bool, right: bool, value: Psg.byte, t: int)
    requires WellFormed(b, m) && m.log.lastPsg <= t
    ensures var f := FillTo(b, m, t);
            && WellFormed(b, f) && f.log.first <= t
            && PsgWrite(b, f, left, right, value, t).log.lastPsg <= t
            && PsgWrite(b, m, left, right, value, t).log.lastPsg <= t
            && FillTo(b, PsgWrite(b, m, left, right, value, t), t) == FillTo(b, PsgWrite(b, f, left, right, value, t), t)
  {
    FillReaches(b, m, t);
    FillKeepsFirst(b, m, t);
    var f := FillTo(b, m, t);
    WriteChipAfterFill(b, m, 0, value, t);
    FillsCompose(b, m, t, t);
    if m.psg.stereo {
      var m1 := if left then WriteChip(b, m, 0, value, t) else m;
      var f1 := if left then WriteChip(b, f, 0, value, t) else f;
      WriteKeepsFirst(b, m, 0, value, t);
      WriteKeepsFirst(b, f, 0, value, t);
      assert FillTo(b, m1, t) == f1;
      WriteChipAfterFill(b, m1, 1, value, t);
      WriteChipAfterFill(b, f1, 1, value, t);
    }
  }

  predicate InTime(m: Machine, op: Op) {
    m.log.lastPsg <= op.at
  }

  /** An operation on a filled machine and the same operation on a lazy one differ only by a fill. */
  lemma {:induction false} OpAfterFill(b: Board, m: Machine, op: Op)
    requires WellFormed(b, m) && InTime(m, op)
    ensures var f := FillTo(b, m, op.at);
            && WellFormed(b, f) && f.log.first <= op.at && InTime(f, op)
            && Apply(b, m, op).log.lastPsg <= op.at
            && Apply(b, f, op).log.lastPsg <= op.at
            && FillTo(b, Apply(b, m, op), op.at) == FillTo(b, Apply(b, f, op), op.at)
  {
    FillReaches(b, m, op.at);
    FillsCompose(b, m, op.at, op.at);
    match op
    case Ctc0(on, at) =>
      Ctc0CommutesWithFill(b, m, on, at, at);
      Ctc0CommutesWithFill(b, FillTo(b, m, at), on, at, at);
    case Write(left, right, value, at) =>
      PsgWriteAfterFill(b, m, left, right, value, at);
    case Fill(at) =>
    case Finish(at) =>
  }

  // ----- runs -----

  /** Operations at nondecreasing times, none before `now`. */
  predicate Timed(ops: seq<Op>, now: int)
    decreases |ops|
  {
    ops != [] ==> now <= ops[0].at && Timed(ops[1..], ops[0].at)
  }

  function LastAt(ops: seq<Op>, now: int): int
    decreases |ops|
  {
    if ops == [] then now else LastAt(ops[1..], ops[0].at)
  }

  ghost function Run(b: Board, m: Machine, ops: seq<Op>, now: int): (r: Machine)
    requires WellFormed(b, m) && m.log.lastPsg <= now && Timed(ops, now)
    ensures WellFormed(b, r) && r.log.lastPsg <= LastAt(ops, now)
    decreases |ops|
  {
    if ops == [] then m
    else
      OpAfterFill(b, m, ops[0]);
      Run(b, Apply(b, m, ops[0]), ops[1..], ops[0].at)
  }

  // ----- the grid over a run -----

  lemma GridContinues(b: Board, from: int, point: int, next: int)
    requires OnGrid(b, from, point) && OnGrid(b, point, next)
    ensures OnGrid(b, from, next)
  {
    var j: nat :| point == GridPoint(b, from, j);
    var k: nat :| next == GridPoint(b, point, k);
    assert (j + k) * b.divider == j * b.divider + k * b.divider;
    assert next == GridPoint(b, from, j + k);
  }

  lemma {:induction false} WriteChipOnGrid(b: Board, m: Machine, c: nat, value: Psg.byte, t: int)
    requires WellFormed(b, m) && b.havePsg > 0 && m.log.lastPsg <= t && c < 2
    ensures OnGrid(b, m.log.lastPsg, WriteChip(b, m, c, value, t).log.lastPsg)
  {
    PhaseBelowDivider(b, m, t);
    StaysThere(b, m.log.lastPsg);
  }

  lemma {:induction false} OpOnGrid(b: Board, m: Machine, op: Op)
    requires WellFormed(b, m) && b.havePsg > 0 && InTime(m, op)
    ensures OnGrid(b, m.log.lastPsg, Apply(b, m, op).log.lastPsg)
    ensures op.Fill? || op.Finish? ==> 0 <= op.at - Apply(b, m, op).log.lastPsg < b.divider
  {
    PhaseBelowDivider(b, m, op.at);
    StaysThere(b, m.log.lastPsg);
    if op.Write? {
      WriteChipOnGrid(b, m, 0, op.value, op.at);
      if m.psg.stereo && op.right {
        WriteChipAfterFill(b, m, 0, op.value, op.at);
        WriteKeepsFirst(b, m, 0, op.value, op.at);
        var m1 := if op.left then WriteChip(b, m, 0, op.value, op.at) else m;
        WriteChipOnGrid(b, m1, 1, op.value, op.at);
        GridContinues(b, m.log.lastPsg, m1.log.lastPsg, Apply(b, m, op).log.lastPsg);
      }
    }
  }

  /**
   The grid over any run and any number of frames: it moves by whole dividers from
   where it was, and when the run ends with a fill or with the end of a frame, it
   is within one divider of that time.
   */
  lemma {:induction false} RunStaysOnGrid(b: Board, m: Machine, ops: seq<Op>, now: int)
    requires WellFormed(b, m) && b.havePsg > 0 && m.log.lastPsg <= now && Timed(ops, now)
    ensures OnGrid(b, m.log.lastPsg, Run(b, m, ops, now).log.lastPsg)
    ensures ops != [] && (ops[|ops| - 1].Fill? || ops[|ops| - 1].Finish?) ==>
              0 <= LastAt(ops, now) - Run(b, m, ops, now).log.lastPsg < b.divider
    decreases |ops|
  {
    var r := Run(b, m, ops, now).log.lastPsg;
    if ops == [] {
      StaysThere(b, m.log.lastPsg);
    } else {
      OpAfterFill(b, m, ops[0]);
      OpOnGrid(b, m, ops[0]);
      var m1 := Apply(b, m, ops[0]);
      RunStaysOnGrid(b, m1, ops[1..], ops[0].at);
      GridContinues(b, m.log.lastPsg, m1.log.lastPsg, r);
    }
  }

  // ----- lazy and eager runs -----

  /** The reference: the chips are stepped up to the time of every operation before it. */
  ghost function EagerRun(b: Board, m: Machine, ops: seq<Op>, now: int): (r: Machine)
    requires WellFormed(b, m) && m.log.lastPsg <= now && Timed(ops, now)
    ensures WellFormed(b, r) && r.log.lastPsg <= LastAt(ops, now)
    decreases |ops|
  {
    if ops == [] then m
    else
      OpAfterFill(b, m, ops[0]);
      EagerRun(b, Apply(b, FillTo(b, m, ops[0].at), ops[0]), ops[1..], ops[0].at)
  }

  ghost predicate Agree(b: Board, m: Machine, n: Machine, t: int) {
    && WellFormed(b, m) && WellFormed(b, n) && m.log.lastPsg <= t && n.log.lastPsg <= t
    && FillTo(b, m, t) == FillTo(b, n, t)
  }

  lemma AgreeLater(b: Board, m: Machine, n: Machine, t: int, u: int)
    requires Agree(b, m, n, t) && t <= u
    ensures Agree(b, m, n, u)
  {
    FillsCompose(b, m, t, u);
    FillsCompose(b, n, t, u);
  }

  lemma {:induction false} RunsAgree(b: Board, m: Machine, n: Machine, ops: seq<Op>, now: int)
    requires Agree(b, m, n, now) && Timed(ops, now)
    ensures Agree(b, Run(b, m, ops, now), EagerRun(b, n, ops, now), LastAt(ops, now))
    decreases |ops|
  {
    if ops != [] {
      var op := ops[0];
      AgreeLater(b, m, n, now, op.at);
      OpAfterFill(b, m, op);
      OpAfterFill(b, n, op);
      RunsAgree(b, Apply(b, m, op), Apply(b, FillTo(b, n, op.at), op), ops[1..], op.at);
    }
  }

  /**
   The lazy machine and the machine stepped before every operation hold the same
   registers, grid, current log and finished logs as soon as both are filled.
   */
  lemma {:induction false} LazyIsEager(b: Board, m: Machine, ops: seq<Op>, now: int, t: int)
    requires WellFormed(b, m) && m.log.lastPsg <= now && Timed(ops, now) && LastAt(ops, now) <= t
    ensures FillTo(b, Run(b, m, ops, now), t) == FillTo(b, EagerRun(b, m, ops, now), t)
  {
    RunsAgree(b, m, m, ops, now);
    AgreeLater(b, Run(b, m, ops, now), EagerRun(b, m, ops, now), LastAt(ops, now), t);
  }

  function WithoutFills(ops: seq<Op>): (r: seq<Op>)
  {
    if ops == [] then []
    else (if ops[0].Fill? then [] else [ops[0]]) + WithoutFills(ops[1..])
  }

  lemma {:induction false} WithoutFillsTimed(ops: seq<Op>, now: int)
    requires Timed(ops, now)
    ensures Timed(WithoutFills(ops), now) && LastAt(WithoutFills(ops), now) <= LastAt(ops, now)
    decreases |ops|
  {
    if ops != [] {
      WithoutFillsTimed(ops[1..], ops[0].at);
      var rest := WithoutFills(ops[1..]);
      assert WithoutFills(ops) == (if ops[0].Fill? then rest else [ops[0]] + rest);
    }
  }

  lemma {:induction false} RunsAgreeWithoutFills(b: Board, m: Machine, n: Machine, ops: seq<Op>, now: int, later: int)
    requires Agree(b, m, n, now) && Timed(ops, now) && Timed(WithoutFills(ops), later) && later <= now
    requires n.log.lastPsg <= later
    ensures Agree(b, Run(b, m, ops, now), Run(b, n, WithoutFills(ops), later), LastAt(ops, now))
    decreases |ops|
  {
    if ops != [] {
      var op := ops[0];
      var rest := WithoutFills(ops[1..]);
      AgreeLater(b, m, n, now, op.at);
      OpAfterFill(b, m, op);
      if op.Fill? {
        assert WithoutFills(ops) == rest;
        FillsCompose(b, m, op.at, op.at);
        RunsAgreeWithoutFills(b, Apply(b, m, op), n, ops[1..], op.at, later);
      } else {
        assert WithoutFills(ops) == [op] + rest;
        assert WithoutFills(ops)[1..] == rest;
        OpAfterFill(b, n, op);
        RunsAgreeWithoutFills(b, Apply(b, m, op), Apply(b, n, op), ops[1..], op.at, op.at);
      }
    }
  }

  /** How often audio_log_fill_psg() is called in between is invisible. */
  lemma {:induction false} ExtraFillsAreInvisible(b: Board, m: Machine, ops: seq<Op>, now: int, t: int)
    requires WellFormed(b, m) && m.log.lastPsg <= now && Timed(ops, now) && LastAt(ops, now) <= t
    ensures Timed(WithoutFills(ops), now)
    ensures LastAt(WithoutFills(ops), now) <= t
    ensures FillTo(b, Run(b, m, ops, now), t) == FillTo(b, Run(b, m, WithoutFills(ops), now), t)
  {
    WithoutFillsTimed(ops, now);
    RunsAgreeWithoutFills(b, m, m, ops, now, now);
    AgreeLater(b, Run(b, m, ops, now), Run(b, m, WithoutFills(ops), now), LastAt(ops, now), t);
  }
}
