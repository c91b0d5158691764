/**
 What is heard: between two fills the logs hold the output of the generators,
 tick for tick, and nothing that happens later changes it (src/emulator/audio.c,
 lines 325-372, with the generators of PsgSound).
 */
module AudioSound {
  import opened SourceLogs
  import opened AudioMachine
  import opened AudioLaziness
  import opened AudioHistory
  import opened AudioRuns
  import opened Psg
  import opened PsgSound

  /** Channel `c` of chip `x` is logged: chip 1 only when it is there and the mode is stereo. */
  predicate IsLogged(b: Board, psg: PsgModule, x: nat, c: nat) {
    x < b.havePsg <= 2 && c < 4 && (x == 0 || psg.stereo)
  }

  // ----- one step -----

  lemma StepKeepsAttenuation(m: PsgModule, x: nat, c: nat)
    requires Psg.Valid(m) && x < 2 && c < 4
    ensures Step(m).chips[x].channels[c].attn == m.chips[x].channels[c].attn && Step(m).stereo == m.stereo
  {
    StepKeepsRegisters(m.chips[x].channels[c], m.chips[x].channels[2].divider);
  }

  /** A step logs the loudness of every channel at the grid point it starts from. */
  lemma StepLogs(b: Board, m: Machine, x: nat, c: nat)
    requires WellFormed(b, m) && IsLogged(b, m.psg, x, c) && m.psg.chips[x].channels[c].attn <= 15
    ensures StepFill(b, m).log.src[1 + 4 * x + c].lastValue == Loudness(Step(m.psg).chips[x].channels[c])
    ensures Step(m.psg).chips[x].channels[c].attn <= 15 && Step(m.psg).stereo == m.psg.stereo
  {
    var psg := Step(m.psg);
    StepKeepsAttenuation(m.psg, x, c);
    LevelIsLoudness(psg.chips[x].channels[c]);
    assert DrivenLevel(b, psg, 1 + 4 * x + c) == Loudness(psg.chips[x].channels[c]);
  }

  // ----- a fill -----

  lemma {:induction false} FillUnfolds(b: Board, m: Machine, t: int)
    requires WellFormed(b, m) && b.havePsg > 0
    ensures m.log.lastPsg + b.divider > t ==> FillTo(b, m, t) == m
    ensures m.log.lastPsg + b.divider <= t ==>
              && WellFormed(b, StepFill(b, m)) && FillTo(b, m, t) == FillTo(b, StepFill(b, m), t)
              && StepFill(b, m).psg == Step(m.psg) && StepFill(b, m).log.lastPsg == m.log.lastPsg + b.divider
  {
    StepFillWellFormed(b, m);
  }

  /** The whole dividers between two ticks. */
  function Dividers(from: int, at: int, d: nat): nat
    requires d > 0
    decreases at - from
  {
    if at - from >= d then 1 + Dividers(from + d, at, d) else 0
  }

  lemma OneStepLess(d: nat, x: int)
    requires 0 < d <= x
    ensures x / d == (x - d) / d + 1
  {
    var q := (x - d) / d;
    assert x == (q + 1) * d + (x - d) % d;
    RestOf(d, x, q + 1, (x - d) % d);
    assert x / d * d == (q + 1) * d;
    if x / d > q + 1 { OneFactorAtLeast(x / d - q - 1, d); }
    if x / d < q + 1 { OneFactorAtLeast(q + 1 - x / d, d); }
  }

  lemma {:induction false} DividersIsQuotient(from: int, at: int, d: nat)
    requires d > 0 && from <= at
    ensures Dividers(from, at, d) == (at - from) / d
    decreases at - from
  {
    if at - from >= d {
      DividersIsQuotient(from + d, at, d);
      OneStepLess(d, at - from);
    }
  }

  /** Some number of steps leads from the one state of the chips to the other, and that many dividers to the other tick. */
  ghost predicate Reaches(d: nat, p: PsgModule, from: int, q: PsgModule, to: int) {
    Psg.Valid(p) && exists k: nat :: q == StepN(p, k) && to == from + k * d
  }

  lemma {:induction false} ReachesItself(d: nat, p: PsgModule, from: int)
    requires Psg.Valid(p)
    ensures Reaches(d, p, from, p, from)
  {
    assert p == StepN(p, 0) && from == from + 0 * d;
  }

  lemma {:induction false} ReachesFromBefore(d: nat, p: PsgModule, from: int, q: PsgModule, to: int)
    requires Psg.Valid(p) && Reaches(d, Step(p), from + d, q, to)
    ensures Reaches(d, p, from, q, to)
  {
    var k: nat :| q == StepN(Step(p), k) && to == from + d + k * d;
    assert (k + 1) * d == k * d + d;
    assert q == StepN(p, k + 1) && to == from + (k + 1) * d;
  }

  lemma {:induction false} FillReachesSteps(b: Board, m: Machine, t: int)
    requires WellFormed(b, m) && b.havePsg > 0
    ensures Reaches(b.divider, m.psg, m.log.lastPsg, FillTo(b, m, t).psg, FillTo(b, m, t).log.lastPsg)
    decreases t - m.log.lastPsg
  {
    FillUnfolds(b, m, t);
    if m.log.lastPsg + b.divider <= t {
      FillReachesSteps(b, StepFill(b, m), t);
      ReachesFromBefore(b.divider, m.psg, m.log.lastPsg, FillTo(b, m, t).psg, FillTo(b, m, t).log.lastPsg);
    } else {
      ReachesItself(b.divider, m.psg, m.log.lastPsg);
    }
  }

  lemma Grows(a: int, b: int, d: nat)
    requires a <= b
    ensures a * d <= b * d
  {
  }

  lemma OneMoreTimes(a: int, b: int, d: nat)
    ensures a < b ==> a * d + d <= b * d
  {
    if a < b { Grows(a + 1, b, d); }
    assert (a + 1) * d == a * d + d;
  }

  lemma QuotientIs(d: nat, x: int, k: nat, r: int)
    requires 0 <= r < d && x == k * d + r
    ensures x / d == k
  {
    var q := x / d;
    assert x == q * d + x % d;
    OneMoreTimes(q, k, d);
    OneMoreTimes(k, q, d);
  }

  lemma StepsAreCounted(d: nat, p: PsgModule, from: int, q: PsgModule, to: int, t: int)
    requires 0 < d && Reaches(d, p, from, q, to) && 0 <= t - to < d
    ensures q == StepN(p, (t - from) / d)
  {
    var k: nat :| q == StepN(p, k) && to == from + k * d;
    QuotientIs(d, t - from, k, t - to);
  }

  /** The chips make one step for each whole divider up to the time of the fill. */
  lemma {:induction false} FillSteps(b: Board, m: Machine, t: int)
    requires WellFormed(b, m) && b.havePsg > 0 && m.log.lastPsg <= t
    ensures FillTo(b, m, t).psg == StepN(m.psg, (t - m.log.lastPsg) / b.divider)
  {
    var d, from, q, to := b.divider, m.log.lastPsg, FillTo(b, m, t).psg, FillTo(b, m, t).log.lastPsg;
    assert 0 <= t - to < d by { PhaseBelowDivider(b, m, t); }
    assert Reaches(d, m.psg, from, q, to) by { FillReachesSteps(b, m, t); }
    StepsAreCounted(d, m.psg, from, q, to, t);
  }

  /** After a fill that moved the grid every logged source ends with the loudness of its channel. */
  lemma {:induction false} FillLogs(b: Board, m: Machine, t: int, x: nat, c: nat)
    requires WellFormed(b, m) && IsLogged(b, m.psg, x, c) && m.psg.chips[x].channels[c].attn <= 15
    requires m.log.lastPsg + b.divider <= t
    ensures |FillTo(b, m, t).log.src| == b.Sources() && Psg.Valid(FillTo(b, m, t).psg)
    ensures FillTo(b, m, t).log.src[1 + 4 * x + c].lastValue == Loudness(FillTo(b, m, t).psg.chips[x].channels[c])
    decreases t - m.log.lastPsg
  {
    FillUnfolds(b, m, t);
    var m1 := StepFill(b, m);
    StepLogs(b, m, x, c);
    FillUnfolds(b, m1, t);
    if m1.log.lastPsg + b.divider <= t { FillLogs(b, m1, t, x, c); }
  }

  /** A fill does not touch CTC0, nor PSG1 in mono, nor anything at all without a PSG. */
  lemma {:induction false} FillLeaves(b: Board, m: Machine, t: int, i: nat)
    requires WellFormed(b, m) && i < b.Sources() && (i == 0 || (i > 4 && !m.psg.stereo))
    ensures |FillTo(b, m, t).log.src| == b.Sources() && FillTo(b, m, t).log.src[i] == m.log.src[i]
    ensures b.havePsg == 0 ==> FillTo(b, m, t) == m.(log := m.log.(lastPsg := t))
    decreases t - m.log.lastPsg
  {
    if b.havePsg != 0 && t - m.log.lastPsg >= b.divider {
      StepFillWellFormed(b, m);
      FillLeaves(b, StepFill(b, m), t, i);
    }
  }

  /** CTC0 is logged as full loudness or silence. */
  lemma Ctc0IsFullOrSilent(b: Board, m: Machine, on: bool, t: int)
    requires WellFormed(b, m)
    ensures var r := Ctc0Changed(m, on, t);
            && r.ctc0 == on && r.log.src[0].lastValue == (if on then 15 else 0)
            && r.log.src[1..] == m.log.src[1..] && r.psg == m.psg && r.log.lastPsg == m.log.lastPsg
  {
  }

  // ----- writes -----

  /** In mono every byte goes to chip 0 alone, in stereo to the chips its mask names; the others only step. */
  lemma {:induction false} WriteReaches(b: Board, m: Machine, left: bool, right: bool, value: byte, t: int, x: nat)
    requires WellFormed(b, m) && m.log.lastPsg <= t && x < 2
    ensures var f := FillTo(b, m, t);
            var w := PsgWrite(b, m, left, right, value, t);
            var addressed := if m.psg.stereo then (if x == 0 then left else right) else x == 0;
            && WellFormed(b, f) && WellFormed(b, w)
            && FillTo(b, w, t).psg.chips[x] == if addressed then WriteByte(f.psg.chips[x], value) else f.psg.chips[x]
  {
    FillReaches(b, m, t);
    FillKeepsFirst(b, m, t);
    var f := FillTo(b, m, t);
    FillsCompose(b, m, t, t);
    WriteChipAfterFill(b, m, 0, value, t);
    if m.psg.stereo && right {
      WriteKeepsFirst(b, m, 0, value, t);
      var m1 := if left then WriteChip(b, m, 0, value, t) else m;
      WriteChipAfterFill(b, m1, 1, value, t);
    }
  }

  // ----- the waveform of a fill -----

  lemma {:induction false} NoteIsHeard(h: seq<Change>, value: int, t: int, at: int)
    requires Before(h, t)
    ensures t <= at ==> WaveAt(0, Note(0, h, value, t), at) == value
    ensures at < t ==> WaveAt(0, Note(0, h, value, t), at) == WaveAt(0, h, at)
    ensures Before(Note(0, h, value, t), t)
  {
    var h' := Note(0, h, value, t);
    assert h' != h ==> h'[..|h'| - 1] == h;
  }

  /** A list of values, taken one after the other. */
  datatype Values = End | Next(value: int, rest: Values)

  function Length(vs: Values): nat {
    match vs case End => 0 case Next(_, rest) => 1 + Length(rest)
  }

  function Nth(vs: Values, k: nat): int
    requires k < Length(vs)
  {
    if k == 0 then vs.value else Nth(vs.rest, k - 1)
  }

  /** The values written one divider apart, the first at `from`. */
  function NotesFrom(h: seq<Change>, vs: Values, from: int, d: nat): seq<Change>
    decreases vs
  {
    match vs case End => h case Next(v, rest) => NotesFrom(Note(0, h, v, from), rest, from + d, d)
  }

  /** Writing is later than what was there. */
  lemma {:induction false} NotesAreLater(h: seq<Change>, vs: Values, from: int, d: nat, at: int)
    requires Before(h, from) && at < from
    ensures WaveAt(0, NotesFrom(h, vs, from, d), at) == WaveAt(0, h, at)
    decreases vs
  {
    if vs.Next? {
      NoteIsHeard(h, vs.value, from, at);
      NotesAreLater(Note(0, h, vs.value, from), vs.rest, from + d, d, at);
    }
  }

  /** Each value is heard for one divider. */
  lemma {:induction false} NotesAreHeard(h: seq<Change>, vs: Values, from: int, d: nat, at: int, n: nat)
    requires d > 0 && Before(h, from) && from <= at && n == Dividers(from, at, d) < Length(vs)
    ensures WaveAt(0, NotesFrom(h, vs, from, d), at) == Nth(vs, n)
    decreases vs
  {
    var h1 := Note(0, h, vs.value, from);
    NoteIsHeard(h, vs.value, from, at);
    if n == 0 {
      NotesAreLater(h1, vs.rest, from + d, d, at);
    } else {
      NotesAreHeard(h1, vs.rest, from + d, d, at, n - 1);
    }
  }

  /** The loudness of channel `c` of chip `x` after each of `n` steps. */
  function Sounds(psg: PsgModule, n: nat, x: nat, c: nat): (vs: Values)
    requires Psg.Valid(psg) && x < 2 && c < 4
    ensures Length(vs) == n
    decreases n, psg
  {
    if n == 0 then End else Next(Loudness(Step(psg).chips[x].channels[c]), Sounds(Step(psg), n - 1, x, c))
  }

  lemma {:induction false} SoundsAt(psg: PsgModule, n: nat, x: nat, c: nat, k: nat)
    requires Psg.Valid(psg) && x < 2 && c < 4 && k < n
    ensures Nth(Sounds(psg, n, x, c), k) == Sound(psg, k + 1, x, c)
    decreases n
  {
    var psg1 := Step(psg);
    assert StepN(psg, k + 1) == StepN(psg1, k);
    if k > 0 { SoundsAt(psg1, n - 1, x, c, k - 1); }
  }

  lemma StepWrites(b: Board, m: Machine, hist: History, x: nat, c: nat)
    requires WellFormed(b, m) && |hist| == b.Sources() && IsLogged(b, m.psg, x, c)
    requires m.psg.chips[x].channels[c].attn <= 15
    ensures var i := 1 + 4 * x + c;
            WrittenByStep(b, m, hist)[i]
            == Note(0, hist[i], Loudness(Step(m.psg).chips[x].channels[c]), m.log.lastPsg)
  {
    var i := 1 + 4 * x + c;
    var psg := Step(m.psg);
    StepKeepsAttenuation(m.psg, x, c);
    LevelIsLoudness(psg.chips[x].channels[c]);
    assert DrivenLevel(b, psg, i) == Loudness(psg.chips[x].channels[c]);
  }

  lemma {:induction false} WrittenUnfolds(b: Board, m: Machine, hist: History, t: int)
    requires WellFormed(b, m) && b.havePsg > 0 && |hist| == b.Sources() && m.log.lastPsg + b.divider <= t
    ensures WellFormed(b, StepFill(b, m)) && StepFill(b, m).psg == Step(m.psg)
    ensures StepFill(b, m).log.lastPsg == m.log.lastPsg + b.divider
    ensures WrittenByFill(b, m, hist, t) == WrittenByFill(b, StepFill(b, m), WrittenByStep(b, m, hist), t)
  {
    StepFillWellFormed(b, m);
  }

  lemma RestIsLogged(b: Board, m: Machine, x: nat, c: nat)
    requires WellFormed(b, m) && IsLogged(b, m.psg, x, c) && m.psg.chips[x].channels[c].attn <= 15
    ensures var m1 := StepFill(b, m);
            WellFormed(b, m1) && IsLogged(b, m1.psg, x, c) && m1.psg.chips[x].channels[c].attn <= 15
  {
    StepFillWellFormed(b, m);
    StepKeepsAttenuation(m.psg, x, c);
  }

  lemma {:induction false} FillWrites(b: Board, m: Machine, hist: History, t: int, x: nat, c: nat, n: nat, i: nat)
    requires WellFormed(b, m) && |hist| == b.Sources() && IsLogged(b, m.psg, x, c) && i == 1 + 4 * x + c
    requires m.psg.chips[x].channels[c].attn <= 15 && n == Dividers(m.log.lastPsg, t, b.divider)
    ensures WrittenByFill(b, m, hist, t)[i] == NotesFrom(hist[i], Sounds(m.psg, n, x, c), m.log.lastPsg, b.divider)
    decreases n
  {
    if n > 0 {
      RestIsLogged(b, m, x, c);
      WrittenUnfolds(b, m, hist, t);
      StepWrites(b, m, hist, x, c);
      FillWrites(b, StepFill(b, m), WrittenByStep(b, m, hist), t, x, c, n - 1, i);
    }
  }

  lemma {:induction false} FewerDividers(from: int, at: int, d: nat, k: nat, t: int)
    requires d > 0 && from <= at < from + k * d <= t
    ensures Dividers(from, at, d) < Dividers(from, t, d)
    decreases k
  {
    assert k * d == (k - 1) * d + d;
    if at >= from + d { FewerDividers(from + d, at, d, k - 1, t); }
  }

  lemma {:induction false} BeforeTheGrid(b: Board, m: Machine, t: int, at: int)
    requires WellFormed(b, m) && b.havePsg > 0 && m.log.lastPsg <= at < FillTo(b, m, t).log.lastPsg && m.log.lastPsg <= t
    ensures Dividers(m.log.lastPsg, at, b.divider) < Dividers(m.log.lastPsg, t, b.divider)
  {
    PhaseBelowDivider(b, m, t);
    var k: nat :| FillTo(b, m, t).log.lastPsg == GridPoint(b, m.log.lastPsg, k);
    FewerDividers(m.log.lastPsg, at, b.divider, k, t);
  }

  /** A reader of the logs finds `value` in source `i` at tick `at`. */
  ghost predicate Hears(b: Board, m: Machine, i: nat, at: int, value: int) {
    WellFormed(b, m) && i < b.Sources() && PlayAt(m.closed, m.log, i, at) == value
  }

  lemma WrittenUpToTheGrid(b: Board, m: Machine, hist: History, now: int, i: nat)
    requires Conserved(b, m, hist, now) && 1 <= i < b.Sources()
    ensures Before(hist[i], m.log.lastPsg)
  {
    assert Keeps(m.closed, m.log, i, hist[i], Horizon(m.log, i, now));
    AllBefore(hist[i], |ReadBack(m.closed, i)|, m.log.first, m.log.lastPsg);
  }

  lemma {:induction false} HistoryIsPlayed(b: Board, m: Machine, hist: History, now: int, i: nat, at: int)
    requires Conserved(b, m, hist, now) && Played(b, m, hist) && 1 <= i < b.Sources()
    ensures Hears(b, m, i, at, WaveAt(0, hist[i], at))
  {
    assert Keeps(m.closed, m.log, i, hist[i], Horizon(m.log, i, now));
    assert Plays(m.closed, m.log, i, hist[i]);
    PlayIsWave(m.closed, m.log, i, hist[i], m.log.lastPsg, at);
  }

  /** What the fill writes to the history. */
  lemma {:induction false} FillIsHeard(b: Board, m: Machine, hist: History, t: int, x: nat, c: nat, at: int, n: nat)
    requires Conserved(b, m, hist, t) && IsLogged(b, m.psg, x, c)
    requires m.psg.chips[x].channels[c].attn <= 15
    requires m.log.lastPsg <= at && n == Dividers(m.log.lastPsg, at, b.divider) < Dividers(m.log.lastPsg, t, b.divider)
    ensures WaveAt(0, WrittenByFill(b, m, hist, t)[1 + 4 * x + c], at)
            == Sound(m.psg, n + 1, x, c)
  {
    var i := 1 + 4 * x + c;
    var all := Dividers(m.log.lastPsg, t, b.divider);
    WrittenUpToTheGrid(b, m, hist, t, i);
    FillWrites(b, m, hist, t, x, c, all, i);
    NotesAreHeard(hist[i], Sounds(m.psg, all, x, c), m.log.lastPsg, b.divider, at, n);
    SoundsAt(m.psg, all, x, c, n);
  }

  lemma {:induction false} FillIsPlayed(b: Board, m: Machine, hist: History, t: int, i: nat, at: int, v: int)
    requires Conserved(b, m, hist, t) && Played(b, m, hist) && 1 <= i < b.Sources()
    requires WaveAt(0, WrittenByFill(b, m, hist, t)[i], at) == v
    ensures Hears(b, FillTo(b, m, t), i, at, v)
  {
    FillConserves(b, m, hist, t, t);
    FillPlays(b, m, hist, t);
    HistoryIsPlayed(b, FillTo(b, m, t), WrittenByFill(b, m, hist, t), t, i, at);
  }

  /**
   The generators are heard. When a fill at `t` has moved the grid, a reader at any
   tick in between finds the loudness of the channel after as many steps as whole
   dividers have passed, and one: 15 less its attenuation, or silence.
   */
  lemma {:induction false} GeneratorsAreHeard(b: Board, m: Machine, hist: History, t: int, x: nat, c: nat, at: int, n: nat)
    requires Conserved(b, m, hist, t) && Played(b, m, hist) && IsLogged(b, m.psg, x, c)
    requires m.psg.chips[x].channels[c].attn <= 15
    requires m.log.lastPsg <= at < FillTo(b, m, t).log.lastPsg && n == 1 + Dividers(m.log.lastPsg, at, b.divider)
    ensures Hears(b, FillTo(b, m, t), 1 + 4 * x + c, at, Sound(m.psg, n, x, c))
  {
    var i, v := 1 + 4 * x + c, Sound(m.psg, n, x, c);
    assert WaveAt(0, WrittenByFill(b, m, hist, t)[i], at) == v by {
      BeforeTheGrid(b, m, t, at);
      FillIsHeard(b, m, hist, t, x, c, at, n - 1);
    }
    FillIsPlayed(b, m, hist, t, i, at, v);
  }

  /** A tone that plays is heard as its square wave. */
  lemma {:induction false} ToneIsHeard(b: Board, m: Machine, hist: History, t: int, x: nat, c: nat, at: int, n: nat)
    requires Conserved(b, m, hist, t) && Played(b, m, hist) && IsLogged(b, m.psg, x, c)
    requires m.log.lastPsg <= at < FillTo(b, m, t).log.lastPsg && n == 1 + Dividers(m.log.lastPsg, at, b.divider)
    requires var ch := m.psg.chips[x].channels[c];
             ch.kind == Tone && ch.attn < 15 && ch.divider >= 2 && ch.output < 2
    ensures Hears(b, FillTo(b, m, t), 1 + 4 * x + c, at, SquareWave(m.psg.chips[x].channels[c], n))
  {
    GeneratorsAreHeard(b, m, hist, t, x, c, at, n);
    ToneSound(m.psg, n, x, c);
  }

  // ----- what is heard stays -----

  lemma {:induction false} FillIsLater(b: Board, m: Machine, hist: History, t: int, i: nat, at: int)
    requires WellFormed(b, m) && |hist| == b.Sources() && 1 <= i < |hist|
    requires Before(hist[i], m.log.lastPsg) && at < m.log.lastPsg
    ensures WaveAt(0, WrittenByFill(b, m, hist, t)[i], at) == WaveAt(0, hist[i], at)
    decreases t - m.log.lastPsg
  {
    if b.havePsg != 0 && t - m.log.lastPsg >= b.divider {
      var psg := Step(m.psg);
      if Driven(b, psg, i) { NoteIsHeard(hist[i], DrivenLevel(b, psg, i), m.log.lastPsg, at); }
      StepFillWellFormed(b, m);
      FillIsLater(b, StepFill(b, m), WrittenByStep(b, m, hist), t, i, at);
    }
  }

  lemma {:induction false} ChipWriteIsLater(b: Board, m: Machine, hist: History, c: nat, value: byte, t: int, i: nat, at: int)
    requires Conserved(b, m, hist, t) && c < 2 && 1 <= i < b.Sources() && at < m.log.lastPsg
    ensures WaveAt(0, WrittenByChipWrite(b, m, hist, c, value, t)[i], at) == WaveAt(0, hist[i], at)
    ensures m.log.lastPsg <= WriteChip(b, m, c, value, t).log.lastPsg
  {
    WrittenUpToTheGrid(b, m, hist, t, i);
    FillIsLater(b, m, hist, t, i, at);
    FillReaches(b, m, t);
  }

  /** An operation writes nothing to a PSG source before the grid point reached, and the grid does not go back. */
  lemma {:induction false} OpIsLater(b: Board, m: Machine, hist: History, now: int, op: Op, i: nat, at: int)
    requires Conserved(b, m, hist, now) && Admissible(m, now, op) && 1 <= i < b.Sources() && at < m.log.lastPsg
    ensures WaveAt(0, Written(b, m, hist, op)[i], at) == WaveAt(0, hist[i], at)
    ensures m.log.lastPsg <= Apply(b, m, op).log.lastPsg
  {
    KeepsLater(b, m, hist, now, op.at);
    FillReaches(b, m, op.at);
    WrittenUpToTheGrid(b, m, hist, now, i);
    FillIsLater(b, m, hist, op.at, i, at);
    FillKeepsFirst(b, m, op.at);
    if op.Write? {
      ChipWriteKeepsShape(b, m, 0, op.value, op.at);
      ChipWriteIsLater(b, m, hist, 0, op.value, op.at, i, at);
      if m.psg.stereo && op.right {
        ChipWriteConserves(b, m, hist, 0, op.value, op.at);
        var m1 := if op.left then WriteChip(b, m, 0, op.value, op.at) else m;
        var h1 := if op.left then WrittenByChipWrite(b, m, hist, 0, op.value, op.at) else hist;
        ChipWriteIsLater(b, m1, h1, 1, op.value, op.at, i, at);
      }
    }
  }

  lemma {:induction false} RunIsLater(b: Board, m: Machine, hist: History, ops: seq<Op>, now: int, i: nat, at: int)
    requires Conserved(b, m, hist, now) && Played(b, m, hist) && Orderly(b, m, ops, now)
    requires 1 <= i < b.Sources() && at < m.log.lastPsg
    ensures Timed(ops, now) && |AllWritten(b, m, hist, ops, now)| == b.Sources()
    ensures WaveAt(0, AllWritten(b, m, hist, ops, now)[i], at) == WaveAt(0, hist[i], at)
    decreases |ops|
  {
    RunConserves(b, m, hist, ops, now);
    if ops != [] {
      var op := ops[0];
      OperationConservesIff(b, m, hist, now, op);
      OperationPlays(b, m, hist, now, op);
      OpIsLater(b, m, hist, now, op, i, at);
      RunIsLater(b, Apply(b, m, op), Written(b, m, hist, op), ops[1..], op.at, i, at);
    }
  }

  /** Whatever follows, through any number of frames, the sound before the grid point reached stays as it is. */
  lemma {:induction false} HeardForGood(b: Board, m: Machine, hist: History, ops: seq<Op>, now: int, i: nat, at: int, v: int)
    requires Conserved(b, m, hist, now) && Played(b, m, hist) && Orderly(b, m, ops, now)
    requires 1 <= i < b.Sources() && at < m.log.lastPsg && Hears(b, m, i, at, v)
    ensures Timed(ops, now) && Hears(b, Run(b, m, ops, now), i, at, v)
  {
    RunConserves(b, m, hist, ops, now);
    HistoryIsPlayed(b, m, hist, now, i, at);
    RunIsLater(b, m, hist, ops, now, i, at);
    HistoryIsPlayed(b, Run(b, m, ops, now), AllWritten(b, m, hist, ops, now), LastAt(ops, now), i, at);
  }

  // ----- a whole run -----

  lemma {:induction false} FillKeepsInRange(b: Board, m: Machine, t: int)
    requires WellFormed(b, m) && InRange(m.psg)
    ensures Psg.Valid(FillTo(b, m, t).psg) && InRange(FillTo(b, m, t).psg)
    decreases t - m.log.lastPsg
  {
    if b.havePsg > 0 {
      FillUnfolds(b, m, t);
      if t - m.log.lastPsg >= b.divider {
        StepInRange(m.psg);
        FillKeepsInRange(b, StepFill(b, m), t);
      }
    }
  }

  lemma WriteKeepsInRange(b: Board, m: Machine, c: nat, value: byte, t: int)
    requires WellFormed(b, m) && InRange(m.psg) && m.log.first <= t && c < 2
    ensures InRange(WriteChip(b, m, c, value, t).psg)
  {
    FillKeepsInRange(b, m, t);
    var f := if NeedsFill(m.psg.chips[c], value) then FillTo(b, m, t) else m;
    WriteInRange(f.psg.chips[c], value);
  }

  lemma OpKeepsInRange(b: Board, m: Machine, op: Op)
    requires WellFormed(b, m) && InRange(m.psg) && m.log.first <= op.at
    ensures InRange(Apply(b, m, op).psg)
  {
    FillKeepsInRange(b, m, op.at);
    if op.Write? {
      WriteKeepsInRange(b, m, 0, op.value, op.at);
      WriteKeepsFirst(b, m, 0, op.value, op.at);
      var m1 := if op.left then WriteChip(b, m, 0, op.value, op.at) else m;
      WriteKeepsInRange(b, m1, 1, op.value, op.at);
    }
  }

  lemma {:induction false} RunKeepsInRange(b: Board, m: Machine, ops: seq<Op>, now: int)
    requires WellFormed(b, m) && InRange(m.psg) && m.log.lastPsg <= now && Timed(ops, now)
    ensures InRange(Run(b, m, ops, now).psg)
    decreases |ops|
  {
    if ops != [] {
      OpAfterFill(b, m, ops[0]);
      OpKeepsInRange(b, m, ops[0]);
      RunKeepsInRange(b, Apply(b, m, ops[0]), ops[1..], ops[0].at);
    }
  }

  /** The invariants hold after any orderly run from a new log. */
  lemma {:induction false} RunIsInOrder(b: Board, m0: Machine, ops: seq<Op>, start: int, t: int, m: Machine, x: nat, c: nat)
      returns (hist: History)
    requires b.Valid() && Psg.Valid(m0.psg) && InRange(m0.psg) && x < 2 && c < 4
    requires m0 == Machine(Created(b, m0.psg.stereo, start), [], m0.psg, false)
    requires Orderly(b, m0, ops, start) && Timed(ops, start) && LastAt(ops, start) <= t
    requires m == Run(b, m0, ops, start) && t - m.log.first < WORD
    ensures Conserved(b, m, hist, t) && Played(b, m, hist)
    ensures m.psg.chips[x].channels[c].attn <= 15
  {
    var none := seq(b.Sources(), _ => []);
    CreatedConserves(b, m0.psg, start);
    RunConserves(b, m0, none, ops, start);
    hist := AllWritten(b, m0, none, ops, start);
    KeepsLater(b, m, hist, LastAt(ops, start), t);
    RunKeepsInRange(b, m0, ops, start);
    AnyInRange(m.psg, x, c);
  }

  /** A reader finds `value` there now and after every orderly run that follows. */
  ghost predicate HearsForGood(b: Board, m: Machine, now: int, i: nat, at: int, value: int) {
    && Hears(b, m, i, at, value) && m.log.lastPsg <= now
    && forall ops :: Orderly(b, m, ops, now) ==> Timed(ops, now) && Hears(b, Run(b, m, ops, now), i, at, value)
  }

  lemma {:induction false} StaysHeard(b: Board, m: Machine, hist: History, now: int, i: nat, at: int, v: int)
    requires Conserved(b, m, hist, now) && Played(b, m, hist)
    requires 1 <= i < b.Sources() && at < m.log.lastPsg && Hears(b, m, i, at, v)
    ensures HearsForGood(b, m, now, i, at, v)
  {
    forall ops | Orderly(b, m, ops, now)
      ensures Timed(ops, now) && Hears(b, Run(b, m, ops, now), i, at, v)
    {
      HeardForGood(b, m, hist, ops, now, i, at, v);
    }
  }

  /** The invariants hold for some history. */
  ghost predicate InOrder(b: Board, m: Machine, now: int) {
    exists hist :: Conserved(b, m, hist, now) && Played(b, m, hist)
  }

  lemma {:induction false} StaysHeardInOrder(b: Board, m: Machine, now: int, i: nat, at: int, v: int)
    requires InOrder(b, m, now) && 1 <= i < b.Sources() && at < m.log.lastPsg && Hears(b, m, i, at, v)
    ensures HearsForGood(b, m, now, i, at, v)
  {
    var hist :| Conserved(b, m, hist, now) && Played(b, m, hist);
    StaysHeard(b, m, hist, now, i, at, v);
  }

  lemma {:induction false} FillKeepsOrder(b: Board, m: Machine, hist: History, t: int)
    requires Conserved(b, m, hist, t) && Played(b, m, hist)
    ensures InOrder(b, FillTo(b, m, t), t)
  {
    FillConserves(b, m, hist, t, t);
    FillPlays(b, m, hist, t);
  }

  lemma {:induction false} FillIsHeardForGood(b: Board, m: Machine, hist: History, t: int, f: Machine,
                                              x: nat, c: nat, at: int, n: nat, v: int)
    requires Conserved(b, m, hist, t) && Played(b, m, hist) && IsLogged(b, m.psg, x, c)
    requires m.psg.chips[x].channels[c].attn <= 15 && f == FillTo(b, m, t)
    requires m.log.lastPsg <= at < f.log.lastPsg && n == 1 + Dividers(m.log.lastPsg, at, b.divider)
    requires v == Sound(m.psg, n, x, c)
    ensures HearsForGood(b, f, t, 1 + 4 * x + c, at, v)
  {
    assert InOrder(b, f, t) by { FillKeepsOrder(b, m, hist, t); }
    assert Hears(b, f, 1 + 4 * x + c, at, v) by { GeneratorsAreHeard(b, m, hist, t, x, c, at, n); }
    StaysHeardInOrder(b, f, t, 1 + 4 * x + c, at, v);
  }

  /**
   The sound of a run. Let `m` be what any orderly run has made of a new log, and fill
   it at `t`. What a reader of all the logs finds between the two grid points, now and
   after any orderly run that follows, is the sound of the chips as they were in `m`,
   after as many steps as dividers have begun.
   */
  lemma {:induction false} RunIsHeard(b: Board, m0: Machine, ops: seq<Op>, start: int, m: Machine, t: int,
                                      x: nat, c: nat, at: int, n: nat)
    requires b.Valid() && Psg.Valid(m0.psg) && InRange(m0.psg)
    requires m0 == Machine(Created(b, m0.psg.stereo, start), [], m0.psg, false)
    requires Orderly(b, m0, ops, start) && Timed(ops, start) && m == Run(b, m0, ops, start)
    requires LastAt(ops, start) <= t && t - m.log.first < WORD
    requires IsLogged(b, m.psg, x, c)
    requires m.log.lastPsg <= at < FillTo(b, m, t).log.lastPsg && n == 1 + Dividers(m.log.lastPsg, at, b.divider)
    ensures HearsForGood(b, FillTo(b, m, t), t, 1 + 4 * x + c, at, Sound(m.psg, n, x, c))
  {
    var hist := RunIsInOrder(b, m0, ops, start, t, m, x, c);
    FillIsHeardForGood(b, m, hist, t, FillTo(b, m, t), x, c, at, n, Sound(m.psg, n, x, c));
  }
}
