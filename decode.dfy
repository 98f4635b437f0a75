/** The byte-to-integer conversions of the driver: big-endian signed samples of the
    accelerometer and gyroscope, and the unsigned assembly of the factory accelerometer
    offsets. The little-endian magnetometer samples use the same decoding with the two bytes
    of each axis swapped. */
module Decode {
  import opened Bits

  /** The unsigned 16-bit word with high byte `hi` and low byte `lo`. */
  function Assemble(hi: byte, lo: byte): (u: int)
    ensures 0 <= u < 0x1_0000
  {
    hi as int * 0x100 + lo as int
  }

  /** Assemble is `((int16_t)hi << 8) | lo` after C++ integer promotion: both bytes are
      zero-extended, so no sign appears yet, and the shifted high byte and the low byte
      occupy disjoint bits. */
  lemma AssembleIsBitwise(hi: byte, lo: byte)
    ensures Assemble(hi, lo) == (((hi as bv16) << 8) | (lo as bv16)) as int
  {
  }

  function HighByte(u: int): (b: byte)
    requires 0 <= u < 0x1_0000
    ensures b as int == u / 0x100
  {
    ToByte(u / 0x100)
  }

  function LowByte(u: int): (b: byte)
    requires 0 <= u < 0x1_0000
    ensures b as int == u % 0x100
  {
    ToByte(u % 0x100)
  }

  /** Splitting an assembled 16-bit word gives back its two bytes. */
  lemma SplitAssemble(hi: byte, lo: byte)
    ensures HighByte(Assemble(hi, lo)) == hi && LowByte(Assemble(hi, lo)) == lo
  {
    var u := Assemble(hi, lo);
    assert u / 0x100 == hi as int && u % 0x100 == lo as int;
    SameValue(HighByte(u), hi);
    SameValue(LowByte(u), lo);
  }

  lemma SameValue(b: byte, c: byte)
    requires b as int == c as int
    ensures b == c
  {
  }

  /** Assembling the two bytes of a 16-bit word gives back the word. */
  lemma AssembleSplit(u: int)
    requires 0 <= u < 0x1_0000
    ensures Assemble(HighByte(u), LowByte(u)) == u
  {
  }

  /** A big-endian two's-complement sample, as read from ACCEL_XOUT_H or GYRO_XOUT_H on: the
      word with bit 7 of the high byte as its sign. */
  function DecodeBE(hi: byte, lo: byte): (v: int)
    ensures IsInt16(v)
    ensures v < 0 <==> hi as int >= 0x80
  {
    var u := hi as int * 0x100 + lo as int;
    if u < 0x8000 then u else u - 0x1_0000
  }

  /** DecodeBE is the driver's `(int16_t)(((int16_t)hi << 8) | lo)`: the zero-extended word,
      narrowed to int16_t. */
  lemma DecodeBEIsCast(hi: byte, lo: byte)
    ensures DecodeBE(hi, lo) == WrapInt16(Assemble(hi, lo))
    ensures DecodeBE(hi, lo) == WrapInt16(hi as int * 0x100 + lo as int)
  {
    var u := Assemble(hi, lo);
    assert WrapInt16(u) == (if u < 0x8000 then u else u - 0x1_0000);
  }

  /** Bit 7 of a byte is set exactly when its unsigned value is at least 0x80. */
  lemma SignBit(b: byte)
    ensures b & 0x80 != 0 <==> b as int >= 0x80
  {
  }

  /** The high and low byte of the two's-complement form of an int16_t value. */
  function EncodeBE(v: int): (bytes: (byte, byte))
    requires IsInt16(v)
  {
    var u := v % 0x1_0000;
    (HighByte(u), LowByte(u))
  }

  /** Decoding the bytes of a sample gives back the sample. */
  lemma DecodeEncode(v: int)
    requires IsInt16(v)
    ensures DecodeBE(EncodeBE(v).0, EncodeBE(v).1) == v
  {
    var u := v % 0x1_0000;
    var (hi, lo) := EncodeBE(v);
    AssembleSplit(u);
    assert Assemble(hi, lo) == u;
    assert u == v || u == v + 0x1_0000;
    WrapInt16Unique(u, v);
  }

  /** Encoding a decoded sample gives back its bytes. */
  lemma EncodeDecode(hi: byte, lo: byte)
    ensures EncodeBE(DecodeBE(hi, lo)) == (hi, lo)
  {
    var u := Assemble(hi, lo);
    var v := DecodeBE(hi, lo);
    assert v % 0x1_0000 == u;
    SplitAssemble(hi, lo);
  }

  /** The factory accelerometer offset word of readAccelOffsets is cast to int32_t without
      passing through int16_t, so it is never sign-extended: with the top bit set it exceeds
      the signed reading of the same bytes by exactly 2^16. */
  lemma OffsetNotSignExtended(hi: byte, lo: byte)
    ensures Assemble(hi, lo) == (if hi & 0x80 != 0 then DecodeBE(hi, lo) + 0x1_0000 else DecodeBE(hi, lo))
  {
    SignBit(hi);
    assert Assemble(hi, lo) == hi as int * 0x100 + lo as int;
  }
}
