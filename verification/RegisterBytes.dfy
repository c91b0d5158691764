/**
 The registers of a chip straight from the bytes written to it, without a decoder:
 which register a byte goes to is told by the last latch byte before it.
 */
module RegisterBytes {
  import Psg
  import opened WriteDecoder

  /** The last latch byte; a chip that has none stands as after 0x80 (tone of channel 0, low bits 0). */
  function LatchByte(bs: seq<Psg.byte>): Psg.byte {
    if bs == [] then 0x80
    else if bs[|bs| - 1] >= 0x80 then bs[|bs| - 1]
    else LatchByte(bs[..|bs| - 1])
  }

  /** The register the last byte goes to: 0, 2, 4, 6 the tones and the noise, 1, 3, 5, 7 their attenuations. */
  function LastRegister(bs: seq<Psg.byte>): nat {
    LatchByte(bs) / 0x10 % 8
  }

  /** The low nibble of the last byte for the attenuation of channel `k`; without one the channel is off. */
  function LastAttn(bs: seq<Psg.byte>, k: nat): nat {
    if bs == [] then 15
    else if LastRegister(bs) == 2 * k + 1 then bs[|bs| - 1] % 0x10
    else LastAttn(bs[..|bs| - 1], k)
  }

  /** Six bits of the last data byte for tone `k` over four bits of the latch byte before it. */
  function LastDivider(bs: seq<Psg.byte>, k: nat): nat {
    if bs == [] then 0
    else if LastRegister(bs) == 2 * k && bs[|bs| - 1] < 0x80 then bs[|bs| - 1] % 0x40 * 16 + LatchByte(bs) % 0x10
    else LastDivider(bs[..|bs| - 1], k)
  }

  /** The latch is the one of the last latch byte, and a latched tone has its low bits from there. */
  predicate LatchedBy(r: Registers, latch: Psg.byte)
    requires Valid(r)
  {
    && r.latchCs == latch / 0x20 % 4 && (r.latchAttn <==> latch / 0x10 % 2 == 1)
    && (!r.latchAttn && r.latchCs != NOISE_CHANNEL ==> r.channels[r.latchCs].latchDivider == latch % 0x10)
  }

  lemma RegisterNumber(latch: Psg.byte, k: nat)
    requires k < 4
    ensures latch / 0x10 % 8 == 2 * k + 1 <==> latch / 0x20 % 4 == k && latch / 0x10 % 2 == 1
    ensures latch / 0x10 % 8 == 2 * k <==> latch / 0x20 % 4 == k && latch / 0x10 % 2 == 0
  {
  }

  /** The decoder computes what the bytes say. */
  lemma {:induction false} RegistersFromBytes(bs: seq<Psg.byte>)
    ensures var r := WrittenAll(RESET, bs);
            && LatchedBy(r, LatchByte(bs))
            && (forall k :: 0 <= k < 4 ==> r.channels[k].attn == LastAttn(bs, k))
            && (forall k :: 0 <= k < 3 ==> r.channels[k].divider == LastDivider(bs, k))
  {
    if bs != [] {
      var front := bs[..|bs| - 1];
      RegistersFromBytes(front);
      forall k | 0 <= k < 4 { RegisterNumber(LatchByte(bs), k); }
    }
  }
}
