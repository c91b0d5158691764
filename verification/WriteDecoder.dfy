/**
 The copy of the register write decoder in the MIDI example
 (docs/tools/example_psg_write_log_to_midi.py, lines 81-147) and how it relates
 to the decoder of the emulator (src/emulator/hw-generic/psg/psg.c).
 */
module WriteDecoder {
  import Psg

  datatype Channel = Channel(attn: nat, divider: nat, latchDivider: nat, divType: nat, noiseType: nat)

  datatype Registers = Registers(latchCs: nat, latchAttn: bool, channels: seq<Channel>)

  const RESET_CHANNEL := Channel(15, 0, 0, 0, 0)

  const RESET := Registers(0, false, [RESET_CHANNEL, RESET_CHANNEL, RESET_CHANNEL, RESET_CHANNEL])

  const NOISE_CHANNEL: nat := 3

  predicate Valid(r: Registers) {
    |r.channels| == 4 && r.latchCs < 4
  }

  function Written(r: Registers, value: Psg.byte): (s: Registers)
    requires Valid(r)
    ensures Valid(s)
  {
    var latch := value >= 0x80;
    var cs := if latch then value / 0x20 % 4 else r.latchCs;
    var attn := if latch then value / 0x10 % 2 == 1 else r.latchAttn;
    var ch := r.channels[cs];
    Registers(cs, attn, r.channels[cs :=
      if attn then ch.(attn := value % 0x10)
      else if cs == NOISE_CHANNEL then ch.(divType := value % 4, noiseType := value / 4 % 2)
      else if latch then ch.(latchDivider := value % 0x10)
      else ch.(divider := value % 0x40 * 16 + ch.latchDivider)])
  }

  /** One chip; a write changes the latch and the addressed channel in place. */
  class PsgInstance {
    var latchCs: nat
    var latchAttn: bool
    var channels: seq<Channel>

    ghost function Contents(): Registers
      reads this
    {
      Registers(latchCs, latchAttn, channels)
    }

    constructor ()
      ensures Contents() == RESET
    {
      latchCs, latchAttn := 0, false;
      channels := [RESET_CHANNEL, RESET_CHANNEL, RESET_CHANNEL, RESET_CHANNEL];
    }

    /** psg_write_byte_core() */
    method WriteByte(value: Psg.byte)
      requires Valid(Contents())
      modifies this
      ensures Contents() == Written(old(Contents()), value)
    {
      var latch := value >= 0x80;
      var cs, attn := latchCs, latchAttn;
      if latch {
        cs, attn := value / 0x20 % 4, value / 0x10 % 2 == 1;
        latchCs, latchAttn := cs, attn;
      }
      var ch := channels[cs];
      if attn {
        channels := channels[cs := ch.(attn := value % 0x10)];
      } else if latch && cs != NOISE_CHANNEL {
        channels := channels[cs := ch.(latchDivider := value % 0x10)];
      } else if cs != NOISE_CHANNEL {
        channels := channels[cs := ch.(divider := value % 0x40 * 16 + ch.latchDivider)];
      } else {
        channels := channels[cs := ch.(divType := value % 4, noiseType := value / 4 % 2)];
      }
    }
  }

  // ----- the copy against the emulator -----

  predicate SameChannel(ch: Channel, p: Psg.Channel) {
    && ch.attn == p.attn && ch.divider == p.divider && ch.latchDivider == p.latchDivider
    && ch.divType == p.divType && ch.noiseType == p.noiseType
  }

  /** The registers of the copy are those of the emulated chip. */
  predicate Same(r: Registers, c: Psg.Chip) {
    && Valid(r) && Psg.ValidChip(c) && r.latchCs == c.latchCs && r.latchAttn == c.latchAttn
    && (forall k :: 0 <= k < 4 ==> SameChannel(r.channels[k], c.channels[k]))
    && (forall k :: 0 <= k < 4 ==> (c.channels[k].kind == Psg.Noise <==> k == NOISE_CHANNEL))
  }

  /** A divider data byte with bit 6 set: the chip has no such bit, the emulator keeps it. */
  predicate HasBit6(r: Registers, value: Psg.byte) {
    0x40 <= value < 0x80 && !r.latchAttn && r.latchCs != NOISE_CHANNEL
  }

  lemma DecodersAgreeIff(r: Registers, c: Psg.Chip, value: Psg.byte)
    requires Same(r, c)
    ensures Same(Written(r, value), Psg.WriteByte(c, value)) <==> !HasBit6(r, value)
  {
    var (cs, attn) := Psg.Target(c, value);
    assert SameChannel(r.channels[cs], c.channels[cs]);
    var w, p := Written(r, value), Psg.WriteByte(c, value);
    if HasBit6(r, value) {
      assert w.channels[cs].divider == p.channels[cs].divider - 0x40 * 16;
      assert !SameChannel(w.channels[cs], p.channels[cs]);
    }
  }

  function WrittenAll(r: Registers, values: seq<Psg.byte>): (s: Registers)
    requires Valid(r)
    ensures Valid(s)
  {
    if values == [] then r else Written(WrittenAll(r, values[..|values| - 1]), values[|values| - 1])
  }

  function WriteAll(c: Psg.Chip, values: seq<Psg.byte>): (d: Psg.Chip)
    requires Psg.ValidChip(c)
    ensures Psg.ValidChip(d)
  {
    if values == [] then c else Psg.WriteByte(WriteAll(c, values[..|values| - 1]), values[|values| - 1])
  }

  /** Over any writes the copy follows the chip as long as no divider byte has bit 6 set. */
  lemma {:induction false} DecodersAgreeOverRuns(r: Registers, c: Psg.Chip, values: seq<Psg.byte>)
    requires Same(r, c)
    requires forall n :: 0 <= n < |values| ==> !HasBit6(WrittenAll(r, values[..n]), values[n])
    ensures Same(WrittenAll(r, values), WriteAll(c, values))
  {
    if values != [] {
      var front := values[..|values| - 1];
      forall n | 0 <= n < |front| ensures !HasBit6(WrittenAll(r, front[..n]), front[n]) {
        assert front[..n] == values[..n];
      }
      DecodersAgreeOverRuns(r, c, front);
      DecodersAgreeIff(WrittenAll(r, front), WriteAll(c, front), values[|values| - 1]);
    }
  }
}
