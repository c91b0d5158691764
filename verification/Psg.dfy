/**
 The SN76489 module as far as the audio log depends on it: the register write
 decoder with its "step first if something audible changes" rule, and one step
 of the tone and noise generators (src/emulator/hw-generic/psg/psg.c).
 */
module Psg {

  const OUT_OFF: nat := 15
  const MAX_LEVEL: int := 15

  type byte = x: nat | x < 0x100

  datatype Kind = Tone | Noise

  datatype Channel = Channel(
    kind: Kind,
    timer: nat,
    attn: nat,
    divider: nat,
    latchDivider: nat,
    divType: nat,
    noiseType: nat,
    lastNoiseType: nat,
    shift: nat,
    output: nat)

  datatype Chip = Chip(latchCs: nat, latchAttn: bool, channels: seq<Channel>)

  datatype PsgModule = PsgModule(stereo: bool, chips: seq<Chip>)

  predicate ValidChip(c: Chip) {
    |c.channels| == 4 && c.latchCs < 4
  }

  predicate Valid(m: PsgModule) {
    |m.chips| == 2 && ValidChip(m.chips[0]) && ValidChip(m.chips[1])
  }

  // ----- generators -----

  function StepTone(c: Channel): Channel {
    if c.divider < 2 then c.(output := 1)
    else if c.timer == 0 then c.(timer := c.divider - 1, output := 1 - c.output % 2)
    else c.(timer := c.timer - 1)
  }

  function NoisePeriod(c: Channel, toneDivider: nat): nat {
    if c.divType == 3 && toneDivider >= 2 then toneDivider - 1
    else if c.divType == 0 then 0x0F
    else if c.divType == 1 then 0x1F
    else 0x3F
  }

  function ShiftNoise(c: Channel): Channel {
    var bit0 := c.shift % 2;
    var bit3 := c.shift / 8 % 2;
    if c.lastNoiseType != c.noiseType then c.(shift := 0x8000, lastNoiseType := c.noiseType)
    else if c.noiseType == 1 then c.(shift := c.shift / 2 + (bit0 + bit3) % 2 * 0x8000)
    else c.(shift := c.shift / 2 + bit0 * 0x8000)
  }

  function StepNoise(c: Channel, toneDivider: nat): Channel {
    if c.divType == 3 && toneDivider < 2 then c.(output := 1)
    else if c.timer == 0 then
      var s := ShiftNoise(c.(timer := NoisePeriod(c, toneDivider)));
      s.(output := s.shift % 2)
    else c.(timer := c.timer - 1)
  }

  function StepChannel(c: Channel, toneDivider: nat): Channel {
    if c.attn == OUT_OFF then c
    else match c.kind
      case Tone => StepTone(c)
      case Noise => StepNoise(c, toneDivider)
  }

  /** psg_instance_step(): the noise channel may run on the divider of channel 2. */
  function StepChip(c: Chip): (r: Chip)
    requires ValidChip(c)
    ensures ValidChip(r)
  {
    var d := c.channels[2].divider;
    c.(channels := [StepChannel(c.channels[0], d), StepChannel(c.channels[1], d),
                    StepChannel(c.channels[2], d), StepChannel(c.channels[3], d)])
  }

  /** psg_step() */
  function Step(m: PsgModule): (r: PsgModule)
    requires Valid(m)
    ensures Valid(r)
  {
    m.(chips := [StepChip(m.chips[0]), if m.stereo then StepChip(m.chips[1]) else m.chips[1]])
  }

  /** The level audio_log_fill_psg() logs for a channel after a step. */
  function Level(c: Channel): int {
    if c.attn != OUT_OFF && c.output != 0 then MAX_LEVEL - c.attn else 0
  }

  // ----- register writes -----

  predicate IsLatch(value: byte) {
    value >= 0x80
  }

  /** The latch a write of `value` goes to: channel and attenuator flag. */
  function Target(c: Chip, value: byte): (r: (nat, bool))
    requires ValidChip(c)
    ensures r.0 < 4
  {
    if IsLatch(value) then (value / 0x20 % 4, value / 0x10 % 2 == 1) else (c.latchCs, c.latchAttn)
  }

  /** The addressed channel after the write; the latched divider has four bits, so the or is a sum. */
  function WrittenChannel(ch: Channel, attn: bool, value: byte): Channel {
    if attn then ch.(attn := value % 0x10)
    else if IsLatch(value) && ch.kind == Tone then ch.(latchDivider := value % 0x10)
    else if ch.kind == Tone then ch.(divider := value * 16 + ch.latchDivider)
    else ch.(divType := value % 4, noiseType := value / 4 % 2)
  }

  /** Does the write change something the generators use? Only then the log is filled first. */
  predicate Audible(ch: Channel, attn: bool, value: byte) {
    WrittenChannel(ch, attn, value).(latchDivider := ch.latchDivider) != ch
  }

  predicate NeedsFill(c: Chip, value: byte)
    requires ValidChip(c)
  {
    var (cs, attn) := Target(c, value);
    Audible(c.channels[cs], attn, value)
  }

  /** psg_write_byte_core() without the fill. */
  function WriteByte(c: Chip, value: byte): (r: Chip)
    requires ValidChip(c)
    ensures ValidChip(r)
  {
    var (cs, attn) := Target(c, value);
    Chip(cs, attn, c.channels[cs := WrittenChannel(c.channels[cs], attn, value)])
  }

  // ----- a write that needs no fill commutes with the generators -----

  lemma ToneIgnoresLatch(ch: Channel, l: nat)
    ensures StepTone(ch.(latchDivider := l)) == StepTone(ch).(latchDivider := l)
  {
  }

  lemma ShiftIgnoresLatch(ch: Channel, l: nat)
    ensures ShiftNoise(ch.(latchDivider := l)) == ShiftNoise(ch).(latchDivider := l)
  {
  }

  lemma NoiseIgnoresLatch(ch: Channel, d: nat, l: nat)
    ensures StepNoise(ch.(latchDivider := l), d) == StepNoise(ch, d).(latchDivider := l)
  {
    ShiftIgnoresLatch(ch.(timer := NoisePeriod(ch, d)), l);
    assert ch.(latchDivider := l).(timer := NoisePeriod(ch, d)) == ch.(timer := NoisePeriod(ch, d)).(latchDivider := l);
  }

  lemma StepIgnoresLatch(ch: Channel, d: nat, l: nat)
    ensures StepChannel(ch.(latchDivider := l), d) == StepChannel(ch, d).(latchDivider := l)
  {
    ToneIgnoresLatch(ch, l);
    NoiseIgnoresLatch(ch, d, l);
  }

  lemma StepKeepsRegisters(ch: Channel, d: nat)
    ensures var s := StepChannel(ch, d);
            && s.kind == ch.kind && s.attn == ch.attn && s.divider == ch.divider
            && s.latchDivider == ch.latchDivider && s.divType == ch.divType && s.noiseType == ch.noiseType
  {
  }

  lemma SilentChannelWrite(ch: Channel, attn: bool, value: byte, d: nat)
    requires !Audible(ch, attn, value)
    ensures StepChannel(WrittenChannel(ch, attn, value), d) == WrittenChannel(StepChannel(ch, d), attn, value)
    ensures !Audible(StepChannel(ch, d), attn, value)
    ensures WrittenChannel(ch, attn, value).divider == ch.divider
  {
    StepKeepsRegisters(ch, d);
    StepIgnoresLatch(ch, d, WrittenChannel(ch, attn, value).latchDivider);
  }

  lemma SilentWriteCommutes(c: Chip, value: byte)
    requires ValidChip(c) && !NeedsFill(c, value)
    ensures StepChip(WriteByte(c, value)) == WriteByte(StepChip(c), value)
    ensures !NeedsFill(StepChip(c), value)
    ensures forall k :: 0 <= k < 4 ==> Level(WriteByte(c, value).channels[k]) == Level(c.channels[k])
  {
    var (cs, attn) := Target(c, value);
    var d := c.channels[2].divider;
    SilentChannelWrite(c.channels[cs], attn, value, d);
    assert Target(StepChip(c), value) == (cs, attn);
    assert WriteByte(c, value).channels[2].divider == d;
    assert StepChip(WriteByte(c, value)).channels == WriteByte(StepChip(c), value).channels;
  }
}
