/**
 What the generators of the PSG sound like: the loudness of a channel, the square
 wave of a tone, the shift register of the noise, and which writes are audible
 (src/emulator/hw-generic/psg/psg.c, src/emulator/audio.c, lines 343-372).
 */
module PsgSound {
  import opened Psg

  // ----- loudness -----

  /** With a high output, 15 less the attenuation: attenuation 0 is the loudest, 15 is off. */
  function Loudness(ch: Channel): int {
    if ch.output != 0 then 15 - ch.attn else 0
  }

  /**
   The logged level is the loudness: with a high output it adds up with the
   attenuation to the maximum, with a low output it is 0.
   */
  lemma LevelIsLoudness(ch: Channel)
    requires ch.attn <= 15
    ensures ch.output != 0 ==> Level(ch) + ch.attn == 15
    ensures ch.output == 0 ==> Level(ch) == 0
    ensures Level(ch) == Loudness(ch) && MAX_LEVEL == 15
  {
  }

  // ----- many steps -----

  function StepN(m: PsgModule, n: nat): (r: PsgModule)
    requires Valid(m)
    ensures Valid(r)
    decreases n, m
  {
    if n == 0 then m else StepN(Step(m), n - 1)
  }

  /** `n` steps of one channel whose noise source, if it is the noise, has divider `d`. */
  function StepChannelN(ch: Channel, d: nat, n: nat): Channel
    decreases n, ch
  {
    if n == 0 then ch else StepChannelN(StepChannel(ch, d), d, n - 1)
  }

  lemma {:induction false} ChannelStepsCompose(ch: Channel, d: nat, m: nat, n: nat)
    ensures StepChannelN(ch, d, m + n) == StepChannelN(StepChannelN(ch, d, m), d, n)
    decreases m
  {
    if m > 0 { ChannelStepsCompose(StepChannel(ch, d), d, m - 1, n); }
  }

  lemma {:induction false} StepsKeepRegisters(ch: Channel, d: nat, n: nat)
    ensures var s := StepChannelN(ch, d, n);
            && s.kind == ch.kind && s.attn == ch.attn && s.divider == ch.divider
            && s.latchDivider == ch.latchDivider && s.divType == ch.divType && s.noiseType == ch.noiseType
    decreases n
  {
    if n > 0 {
      StepKeepsRegisters(ch, d);
      StepsKeepRegisters(StepChannel(ch, d), d, n - 1);
    }
  }

  /** The channels run on their own; only the noise may listen to the divider of channel 2. Chip 1 runs in stereo. */
  lemma {:induction false} ModuleSteps(m: PsgModule, n: nat, x: nat, c: nat)
    requires Valid(m) && x < 2 && c < 4 && (x == 0 || m.stereo)
    ensures var s := StepN(m, n);
            && s.stereo == m.stereo
            && s.chips[x].channels[c] == StepChannelN(m.chips[x].channels[c], m.chips[x].channels[2].divider, n)
            && (!m.stereo ==> s.chips[1] == m.chips[1])
    decreases n
  {
    if n > 0 {
      StepKeepsRegisters(m.chips[x].channels[2], m.chips[x].channels[2].divider);
      ModuleSteps(Step(m), n - 1, x, c);
    }
  }

  // ----- the registers stay in range -----

  predicate ChannelInRange(ch: Channel) {
    ch.attn <= 15 && ch.output < 2
  }

  predicate ChipInRange(c: Chip)
    requires ValidChip(c)
  {
    && ChannelInRange(c.channels[0]) && ChannelInRange(c.channels[1])
    && ChannelInRange(c.channels[2]) && ChannelInRange(c.channels[3])
  }

  predicate InRange(m: PsgModule)
    requires Valid(m)
  {
    ChipInRange(m.chips[0]) && ChipInRange(m.chips[1])
  }

  lemma ChannelStepInRange(ch: Channel, d: nat)
    requires ChannelInRange(ch)
    ensures ChannelInRange(StepChannel(ch, d))
  {
  }

  lemma ChipStepInRange(c: Chip)
    requires ValidChip(c) && ChipInRange(c)
    ensures ChipInRange(StepChip(c))
  {
    var d := c.channels[2].divider;
    ChannelStepInRange(c.channels[0], d);
    ChannelStepInRange(c.channels[1], d);
    ChannelStepInRange(c.channels[2], d);
    ChannelStepInRange(c.channels[3], d);
  }

  lemma StepInRange(m: PsgModule)
    requires Valid(m) && InRange(m)
    ensures InRange(Step(m))
  {
    ChipStepInRange(m.chips[0]);
    ChipStepInRange(m.chips[1]);
  }

  lemma WriteInRange(c: Chip, value: byte)
    requires ValidChip(c) && ChipInRange(c)
    ensures ChipInRange(WriteByte(c, value))
  {
  }

  lemma AnyInRange(m: PsgModule, x: nat, c: nat)
    requires Valid(m) && InRange(m) && x < 2 && c < 4
    ensures ChannelInRange(m.chips[x].channels[c])
  {
  }

  // ----- the tone -----

  lemma {:induction false} ToneCountsDown(ch: Channel, d: nat, n: nat)
    requires ch.kind == Tone && ch.attn != 15 && ch.divider >= 2 && n <= ch.timer
    ensures StepChannelN(ch, d, n) == ch.(timer := ch.timer - n)
    decreases n
  {
    if n > 0 { ToneCountsDown(StepChannel(ch, d), d, n - 1); }
  }

  /**
   A square wave: a tone keeps its output until its timer has run down, then the
   output toggles and stays so for exactly `divider` steps.
   */
  lemma {:induction false} ToneIsSquareWave(ch: Channel, d: nat, n: nat)
    requires ch.kind == Tone && ch.attn != 15 && ch.divider >= 2 && ch.output < 2
    ensures n <= ch.timer ==> StepChannelN(ch, d, n).output == ch.output
    ensures ch.timer < n <= ch.timer + ch.divider ==> StepChannelN(ch, d, n).output == 1 - ch.output
    ensures StepChannelN(ch, d, ch.timer + 1) == ch.(timer := ch.divider - 1, output := 1 - ch.output)
  {
    ToneCountsDown(ch, d, ch.timer);
    ChannelStepsCompose(ch, d, ch.timer, 1);
    var half := ch.(timer := ch.divider - 1, output := 1 - ch.output);
    assert StepChannelN(ch.(timer := 0), d, 1) == half;
    if n <= ch.timer {
      ToneCountsDown(ch, d, n);
    } else if n <= ch.timer + ch.divider {
      ChannelStepsCompose(ch, d, ch.timer + 1, n - ch.timer - 1);
      ToneCountsDown(half, d, n - ch.timer - 1);
    }
  }

  /** The period is twice the divider. */
  lemma {:induction false} TonePeriod(ch: Channel, d: nat)
    requires ch.kind == Tone && ch.attn != 15 && ch.divider >= 2 && ch.output < 2 && ch.timer < ch.divider
    ensures StepChannelN(ch, d, 2 * ch.divider) == ch
  {
    var half := ch.(timer := ch.divider - 1, output := 1 - ch.output);
    ToneIsSquareWave(ch, d, 0);
    ToneIsSquareWave(half, d, 0);
    ChannelStepsCompose(ch, d, ch.timer + 1, ch.divider);
    var full := StepChannelN(ch, d, ch.timer + 1 + ch.divider);
    assert full == ch.(timer := ch.divider - 1);
    ChannelStepsCompose(ch, d, ch.timer + 1 + ch.divider, ch.divider - 1 - ch.timer);
    ToneCountsDown(full, d, ch.divider - 1 - ch.timer);
  }

  /** How often a tone toggles in `n` steps: first when its timer has run down, then once for each divider. */
  function Toggles(n: nat, timer: nat, divider: nat): nat
    requires divider >= 2
    decreases n
  {
    if n <= timer then 0 else 1 + Toggles(n - timer - 1, divider - 1, divider)
  }

  /** The output of a tone at any step. */
  lemma {:induction false} ToneOutput(ch: Channel, d: nat, n: nat)
    requires ch.kind == Tone && ch.attn != 15 && ch.divider >= 2 && ch.output < 2
    ensures StepChannelN(ch, d, n).output == (ch.output + Toggles(n, ch.timer, ch.divider)) % 2
    decreases n
  {
    ToneIsSquareWave(ch, d, n);
    if n > ch.timer {
      var half := ch.(timer := ch.divider - 1, output := 1 - ch.output);
      ChannelStepsCompose(ch, d, ch.timer + 1, n - ch.timer - 1);
      ToneOutput(half, d, n - ch.timer - 1);
    }
  }

  function SquareWave(ch: Channel, n: nat): int
    requires ch.divider >= 2
  {
    if (ch.output + Toggles(n, ch.timer, ch.divider)) % 2 == 1 then 15 - ch.attn else 0
  }

  lemma {:induction false} ToneLoudness(ch: Channel, d: nat, n: nat)
    requires ch.kind == Tone && ch.attn < 15 && ch.divider >= 2 && ch.output < 2
    ensures Loudness(StepChannelN(ch, d, n)) == SquareWave(ch, n)
  {
    StepsKeepRegisters(ch, d, n);
    ToneOutput(ch, d, n);
  }

  /** The loudness of channel `c` of chip `x` after `n` steps. */
  function Sound(m: PsgModule, n: nat, x: nat, c: nat): int
    requires Valid(m) && x < 2 && c < 4
  {
    Loudness(StepN(m, n).chips[x].channels[c])
  }

  /** A tone sounds as a square wave between 15 less its attenuation and silence. */
  lemma ToneSound(m: PsgModule, n: nat, x: nat, c: nat)
    requires Valid(m) && x < 2 && c < 4 && (x == 0 || m.stereo)
    requires var ch := m.chips[x].channels[c];
             ch.kind == Tone && ch.attn < 15 && ch.divider >= 2 && ch.output < 2
    ensures Sound(m, n, x, c) == SquareWave(m.chips[x].channels[c], n)
  {
    ModuleSteps(m, n, x, c);
    ToneLoudness(m.chips[x].channels[c], m.chips[x].channels[2].divider, n);
  }

  /** A divider below 2 is no tone: the output stands high. */
  lemma {:induction false} DegenerateToneIsHigh(ch: Channel, d: nat, n: nat)
    requires ch.kind == Tone && ch.attn != 15 && ch.divider < 2 && n > 0
    ensures StepChannelN(ch, d, n) == ch.(output := 1)
    decreases n
  {
    if n > 1 { DegenerateToneIsHigh(StepChannel(ch, d), d, n - 1); }
  }

  /** A channel that is off stands still. */
  lemma {:induction false} OffStandsStill(ch: Channel, d: nat, n: nat)
    requires ch.attn == 15
    ensures StepChannelN(ch, d, n) == ch
    decreases n
  {
    if n > 0 { OffStandsStill(ch, d, n - 1); }
  }

  // ----- the noise -----

  /** The steps between two shifts: 16, 32 or 64, or the divider of tone 2. */
  function ShiftPeriod(divType: nat, toneDivider: nat): nat {
    if divType == 3 then toneDivider else if divType == 0 then 16 else if divType == 1 then 32 else 64
  }

  lemma {:induction false} NoiseCountsDown(ch: Channel, d: nat, n: nat)
    requires ch.kind == Noise && ch.attn != 15 && (ch.divType == 3 ==> d >= 2) && n <= ch.timer
    ensures StepChannelN(ch, d, n) == ch.(timer := ch.timer - n)
    decreases n
  {
    if n > 0 { NoiseCountsDown(StepChannel(ch, d), d, n - 1); }
  }

  /** The noise shifts once its timer has run down, and then once in a period; the output is the low bit. */
  lemma {:induction false} NoiseShiftsPeriodically(ch: Channel, d: nat)
    requires ch.kind == Noise && ch.attn != 15 && ch.divType <= 3 && (ch.divType == 3 ==> d >= 2)
    ensures var s := StepChannelN(ch, d, ch.timer + 1);
            && s.timer + 1 == ShiftPeriod(ch.divType, d) && s.output == s.shift % 2
            && s.shift == ShiftNoise(ch).shift && s.lastNoiseType == ch.noiseType
  {
    NoiseCountsDown(ch, d, ch.timer);
    ChannelStepsCompose(ch, d, ch.timer, 1);
    assert StepChannelN(ch.(timer := 0), d, 1) == StepChannel(ch.(timer := 0), d);
  }

  /** Following a tone with a divider below 2 the noise stands high. */
  lemma {:induction false} DegenerateNoiseIsHigh(ch: Channel, d: nat, n: nat)
    requires ch.kind == Noise && ch.attn != 15 && ch.divType == 3 && d < 2 && n > 0
    ensures StepChannelN(ch, d, n) == ch.(output := 1)
    decreases n
  {
    if n > 1 { DegenerateNoiseIsHigh(StepChannel(ch, d), d, n - 1); }
  }

  /** Bit `j` of a number. */
  function Bit(x: nat, j: nat): nat {
    if j == 0 then x % 2 else Bit(x / 2, j - 1)
  }

  function Pow2(k: nat): nat {
    if k == 0 then 1 else 2 * Pow2(k - 1)
  }

  lemma {:induction false} BitOfZero(j: nat)
    ensures Bit(0, j) == 0
  {
    if j > 0 { BitOfZero(j - 1); }
  }

  lemma {:induction false} BitOfSum(y: nat, b: nat, k: nat, j: nat)
    requires y < Pow2(k) && b < 2
    ensures Bit(y + b * Pow2(k), j) == if j < k then Bit(y, j) else if j == k then b else 0
  {
    if k == 0 {
      if j > 0 { BitOfZero(j - 1); }
    } else if j > 0 {
      assert b * Pow2(k) == 2 * (b * Pow2(k - 1));
      assert (y + b * Pow2(k)) / 2 == y / 2 + b * Pow2(k - 1);
      BitOfSum(y / 2, b, k - 1, j - 1);
    } else {
      assert b * Pow2(k) == 2 * (b * Pow2(k - 1));
    }
  }

  lemma FifteenBits()
    ensures Pow2(15) == 0x8000
  {
    assert Pow2(5) == 32;
    assert Pow2(10) == 1024;
  }

  lemma {:induction false} Bit3(x: nat)
    ensures Bit(x, 3) == x / 8 % 2
  {
    assert Bit(x, 1) == x / 2 % 2;
    assert Bit(x / 2, 2) == Bit(x / 2 / 2, 1) == x / 2 / 2 / 2 % 2;
    assert x / 2 / 2 / 2 == x / 8;
  }

  /** A shift by one place with bit `top` coming in. */
  lemma ShiftedIn(x: nat, top: nat, j: nat)
    requires x < 0x10000 && top < 2
    ensures x / 2 + top * 0x8000 < 0x10000
    ensures Bit(x / 2 + top * 0x8000, j) == if j < 15 then Bit(x, j + 1) else if j == 15 then top else 0
  {
    FifteenBits();
    BitOfSum(x / 2, top, 15, j);
  }

  /**
   A 16-bit shift register: every bit moves one place down; into the top comes the
   low bit for the periodic noise, the sum of the bits 0 and 3 for the white one.
   */
  lemma {:induction false} ShiftRegister(ch: Channel, j: nat)
    requires ch.shift < 0x10000 && j < 16 && ch.lastNoiseType == ch.noiseType
    ensures ShiftNoise(ch).shift < 0x10000
    ensures Bit(ShiftNoise(ch).shift, j) ==
              if j < 15 then Bit(ch.shift, j + 1)
              else if ch.noiseType == 1 then (Bit(ch.shift, 0) + Bit(ch.shift, 3)) % 2
              else Bit(ch.shift, 0)
  {
    Bit3(ch.shift);
    var white := (ch.shift % 2 + ch.shift / 8 % 2) % 2;
    ShiftedIn(ch.shift, if ch.noiseType == 1 then white else ch.shift % 2, j);
  }

  /** A change of the noise type restarts the register with the top bit alone. */
  lemma {:induction false} ShiftRestarts(ch: Channel, j: nat)
    requires j < 16 && ch.lastNoiseType != ch.noiseType
    ensures Bit(ShiftNoise(ch).shift, j) == if j < 15 then 0 else 1
  {
    ShiftedIn(0, 1, j);
    BitOfZero(j + 1);
  }

  // ----- which writes are audible -----

  /** The channel as the generators see it: without the latched low bits of its divider. */
  function Sounding(ch: Channel): Channel {
    ch.(latchDivider := 0)
  }

  /** The log is filled before a write if and only if the write changes what a generator uses. */
  lemma FillsIffAudible(c: Chip, value: byte)
    requires ValidChip(c)
    ensures NeedsFill(c, value) <==>
              exists k :: 0 <= k < 4 && Sounding(WriteByte(c, value).channels[k]) != Sounding(c.channels[k])
  {
    var (cs, attn) := Target(c, value);
    assert WriteByte(c, value).channels[cs] == WrittenChannel(c.channels[cs], attn, value);
    if NeedsFill(c, value) {
      assert Sounding(WriteByte(c, value).channels[cs]) != Sounding(c.channels[cs]);
    }
  }
}
