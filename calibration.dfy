/** The BME280 trimming parameters: the calibration struct with its C field
    types, and the decoding of the raw register bytes (two little-endian
    blocks and one single byte) into the 18 coefficients. An encoder that
    puts coefficients back into register bytes is the partner that shows
    the decoding loses nothing. */
module Calibration {
  import opened FixedPoint

  type Byte = x: int | 0 <= x < 0x100
  type U8 = Byte
  type I8 = x: int | -0x80 <= x < 0x80
  type U16 = x: int | 0 <= x < 0x1_0000
  type I16 = x: int | -0x8000 <= x < 0x8000

  /** `bme280_calib_data`: three temperature, nine pressure and six humidity
      coefficients, each with the range of its C type. */
  datatype CalibData = CalibData(
    digT1: U16, digT2: I16, digT3: I16,
    digP1: U16, digP2: I16, digP3: I16, digP4: I16, digP5: I16,
    digP6: I16, digP7: I16, digP8: I16, digP9: I16,
    digH1: U8, digH2: I16, digH3: U8, digH4: I16, digH5: I16, digH6: I8)

  /** The calibration before anything is loaded: a zero-initialised global. */
  const ZeroCalibration: CalibData :=
    CalibData(0, 0, 0, 0, 0, 0, 0, 0, 0, 0, 0, 0, 0, 0, 0, 0, 0, 0)

  /** Length of the temperature/pressure block read from register 0x88. */
  const TpBlockLength: nat := 24
  /** Length of the humidity block read from register 0xE1. */
  const HumBlockLength: nat := 7

  /** `lo | (hi << 8)` stored into a uint16_t. The two operands occupy
      disjoint bits, so the OR is the sum lo + 256 * hi. */
  function U16LE(lo: Byte, hi: Byte): (r: U16)
    ensures r % 0x100 == lo && r / 0x100 == hi
  {
    lo + 0x100 * hi
  }

  /** `lo | (hi << 8)` stored into an int16_t: the two's-complement reading of
      the pair, negative exactly when the top bit of the high byte is set. */
  function S16LE(lo: Byte, hi: Byte): (r: I16)
    ensures r == lo + 0x100 * hi || r == lo + 0x100 * hi - 0x1_0000
    ensures r < 0 <==> hi >= 0x80
  {
    ToInt16(lo + 0x100 * hi)
  }

  /** `(b3 << 4) | (b4 & 0xF)`: b3 gives bits 11..4 and the low nibble of b4
      gives bits 3..0. */
  function DigH4(b3: Byte, b4: Byte): (r: I16)
    ensures 0 <= r < 0x1000
    ensures r / 0x10 == b3 && r % 0x10 == b4 % 0x10
  {
    b3 * 0x10 + b4 % 0x10
  }

  /** `(b5 << 4) | ((b4 >> 4) & 0xF)`: b5 gives bits 11..4 and the high
      nibble of b4 gives bits 3..0. */
  function DigH5(b4: Byte, b5: Byte): (r: I16)
    ensures 0 <= r < 0x1000
    ensures r / 0x10 == b5 && r % 0x10 == b4 / 0x10
  {
    b5 * 0x10 + b4 / 0x10
  }

  /** The byte shared by dig_H4 and dig_H5 is split between them: each of its
      nibbles feeds exactly one coefficient, and together they give it back. */
  lemma SharedNibbleByte(b3: Byte, b4: Byte, b5: Byte, b4': Byte)
    ensures b4 == 0x10 * (DigH5(b4, b5) % 0x10) + DigH4(b3, b4) % 0x10
    ensures DigH4(b3, b4) == DigH4(b3, b4') <==> b4 % 0x10 == b4' % 0x10
    ensures DigH5(b4, b5) == DigH5(b4', b5) <==> b4 / 0x10 == b4' / 0x10
  {
  }

  /** The whole of `read_calibration`'s decoding: the 24-byte block at 0x88,
      the byte at 0xA1 and the 7-byte block at 0xE1. */
  function DecodeCalibration(tp: seq<Byte>, h1: Byte, hum: seq<Byte>): (c: CalibData)
    requires |tp| == TpBlockLength && |hum| == HumBlockLength
    ensures 0 <= c.digH4 < 0x1000 && 0 <= c.digH5 < 0x1000
  {
    CalibData(
      U16LE(tp[0], tp[1]), S16LE(tp[2], tp[3]), S16LE(tp[4], tp[5]),
      U16LE(tp[6], tp[7]), S16LE(tp[8], tp[9]), S16LE(tp[10], tp[11]),
      S16LE(tp[12], tp[13]), S16LE(tp[14], tp[15]), S16LE(tp[16], tp[17]),
      S16LE(tp[18], tp[19]), S16LE(tp[20], tp[21]), S16LE(tp[22], tp[23]),
      h1, S16LE(hum[0], hum[1]), hum[2], DigH4(hum[3], hum[4]),
      DigH5(hum[4], hum[5]), ToInt8(hum[6]))
  }

  // ----- the inverse: coefficients back into register bytes -----

  /** Low byte of the 16-bit pattern of v: the byte at the lower address. */
  function Lo(v: int): Byte
  {
    (v % 0x1_0000) % 0x100
  }

  /** High byte of the 16-bit pattern of v: the byte at the higher address. */
  function Hi(v: int): Byte
  {
    (v % 0x1_0000) / 0x100
  }

  /** The coefficients that the decoder can produce: everything the C types
      allow, except that dig_H4 and dig_H5 are 12-bit unsigned values. */
  predicate Decodable(c: CalibData)
  {
    0 <= c.digH4 < 0x1000 && 0 <= c.digH5 < 0x1000
  }

  datatype RegisterBlocks = RegisterBlocks(tp: seq<Byte>, h1: Byte, hum: seq<Byte>)

  /** The register bytes that hold a coefficient set. */
  function EncodeCalibration(c: CalibData): (r: RegisterBlocks)
    requires Decodable(c)
    ensures |r.tp| == TpBlockLength && |r.hum| == HumBlockLength
  {
    RegisterBlocks(
      [Lo(c.digT1), Hi(c.digT1), Lo(c.digT2), Hi(c.digT2), Lo(c.digT3), Hi(c.digT3),
       Lo(c.digP1), Hi(c.digP1), Lo(c.digP2), Hi(c.digP2), Lo(c.digP3), Hi(c.digP3),
       Lo(c.digP4), Hi(c.digP4), Lo(c.digP5), Hi(c.digP5), Lo(c.digP6), Hi(c.digP6),
       Lo(c.digP7), Hi(c.digP7), Lo(c.digP8), Hi(c.digP8), Lo(c.digP9), Hi(c.digP9)],
      c.digH1,
      [Lo(c.digH2), Hi(c.digH2), c.digH3, c.digH4 / 0x10,
       (c.digH5 % 0x10) * 0x10 + c.digH4 % 0x10, c.digH5 / 0x10, c.digH6 % 0x100])
  }

  /** Little-endian round trip for an unsigned 16-bit coefficient. */
  lemma U16RoundTrip(v: U16)
    ensures U16LE(Lo(v), Hi(v)) == v
  {
  }

  /** Little-endian round trip for a signed 16-bit coefficient: splitting its
      two's-complement pattern into bytes and decoding gives it back. */
  lemma S16RoundTrip(v: I16)
    ensures S16LE(Lo(v), Hi(v)) == v
  {
    var u := v % 0x1_0000;
    assert U16LE(Lo(v), Hi(v)) == u;
    assert v < 0 ==> u == v + 0x1_0000;
  }

  /** Decoding a pair of bytes and splitting the coefficient again gives the
      same bytes, whether the pair is read as signed or unsigned. */
  lemma PairRoundTrip(lo: Byte, hi: Byte)
    ensures Lo(U16LE(lo, hi)) == lo && Hi(U16LE(lo, hi)) == hi
    ensures Lo(S16LE(lo, hi)) == lo && Hi(S16LE(lo, hi)) == hi
  {
    var s := S16LE(lo, hi);
    assert (s as int) % 0x1_0000 == lo + 0x100 * hi;
  }

  lemma TpSpelledOut(tp: seq<Byte>)
    requires |tp| == TpBlockLength
    ensures tp == [tp[0], tp[1], tp[2], tp[3], tp[4], tp[5], tp[6], tp[7], tp[8], tp[9],
                   tp[10], tp[11], tp[12], tp[13], tp[14], tp[15], tp[16], tp[17],
                   tp[18], tp[19], tp[20], tp[21], tp[22], tp[23]]
  {
  }

  lemma HumSpelledOut(hum: seq<Byte>)
    requires |hum| == HumBlockLength
    ensures hum == [hum[0], hum[1], hum[2], hum[3], hum[4], hum[5], hum[6]]
  {
  }

  /** The 24-byte temperature/pressure block comes back from its twelve
      little-endian coefficients. */
  lemma {:induction false} TpBlockRoundTrip(tp: seq<Byte>, h1: Byte, hum: seq<Byte>)
    requires |tp| == TpBlockLength && |hum| == HumBlockLength
    ensures Decodable(DecodeCalibration(tp, h1, hum))
    ensures EncodeCalibration(DecodeCalibration(tp, h1, hum)).tp == tp
  {
    var c := DecodeCalibration(tp, h1, hum);
    assert Lo(c.digT1) == tp[0] && Hi(c.digT1) == tp[1] by { PairRoundTrip(tp[0], tp[1]); }
    assert Lo(c.digT2) == tp[2] && Hi(c.digT2) == tp[3] by { PairRoundTrip(tp[2], tp[3]); }
    assert Lo(c.digT3) == tp[4] && Hi(c.digT3) == tp[5] by { PairRoundTrip(tp[4], tp[5]); }
    assert Lo(c.digP1) == tp[6] && Hi(c.digP1) == tp[7] by { PairRoundTrip(tp[6], tp[7]); }
    assert Lo(c.digP2) == tp[8] && Hi(c.digP2) == tp[9] by { PairRoundTrip(tp[8], tp[9]); }
    assert Lo(c.digP3) == tp[10] && Hi(c.digP3) == tp[11] by { PairRoundTrip(tp[10], tp[11]); }
    assert Lo(c.digP4) == tp[12] && Hi(c.digP4) == tp[13] by { PairRoundTrip(tp[12], tp[13]); }
    assert Lo(c.digP5) == tp[14] && Hi(c.digP5) == tp[15] by { PairRoundTrip(tp[14], tp[15]); }
    assert Lo(c.digP6) == tp[16] && Hi(c.digP6) == tp[17] by { PairRoundTrip(tp[16], tp[17]); }
    assert Lo(c.digP7) == tp[18] && Hi(c.digP7) == tp[19] by { PairRoundTrip(tp[18], tp[19]); }
    assert Lo(c.digP8) == tp[20] && Hi(c.digP8) == tp[21] by { PairRoundTrip(tp[20], tp[21]); }
    assert Lo(c.digP9) == tp[22] && Hi(c.digP9) == tp[23] by { PairRoundTrip(tp[22], tp[23]); }
    TpSpelledOut(tp);
  }

  /** The last four humidity bytes come back from dig_H4, dig_H5 and dig_H6. */
  lemma NibbleBytesRoundTrip(b3: Byte, b4: Byte, b5: Byte, b6: Byte)
    ensures DigH4(b3, b4) / 0x10 == b3 && DigH5(b4, b5) / 0x10 == b5
    ensures (DigH5(b4, b5) % 0x10) * 0x10 + DigH4(b3, b4) % 0x10 == b4
    ensures ToInt8(b6) % 0x100 == b6
  {
    SharedNibbleByte(b3, b4, b5, b4);
  }

  /** The 7-byte humidity block comes back from dig_H2..dig_H6, including the
      byte whose two nibbles went to dig_H4 and dig_H5. */
  lemma {:induction false} HumBlockRoundTrip(tp: seq<Byte>, h1: Byte, hum: seq<Byte>)
    requires |tp| == TpBlockLength && |hum| == HumBlockLength
    ensures Decodable(DecodeCalibration(tp, h1, hum))
    ensures EncodeCalibration(DecodeCalibration(tp, h1, hum)).hum == hum
  {
    var c := DecodeCalibration(tp, h1, hum);
    assert Lo(c.digH2) == hum[0] && Hi(c.digH2) == hum[1] by { PairRoundTrip(hum[0], hum[1]); }
    assert c.digH3 == hum[2];
    assert c.digH4 == DigH4(hum[3], hum[4]) && c.digH5 == DigH5(hum[4], hum[5]) && c.digH6 == ToInt8(hum[6]);
    NibbleBytesRoundTrip(hum[3], hum[4], hum[5], hum[6]);
    HumSpelledOut(hum);
  }

  /** Decoding loses nothing: the register bytes are recovered from the
      coefficients. */
  lemma {:induction false} EncodeDecode(tp: seq<Byte>, h1: Byte, hum: seq<Byte>)
    requires |tp| == TpBlockLength && |hum| == HumBlockLength
    ensures Decodable(DecodeCalibration(tp, h1, hum))
    ensures EncodeCalibration(DecodeCalibration(tp, h1, hum)) == RegisterBlocks(tp, h1, hum)
  {
    TpBlockRoundTrip(tp, h1, hum);
    HumBlockRoundTrip(tp, h1, hum);
  }

  /** Every coefficient set the decoder can produce comes back unchanged
      from its register bytes: the decoding is a bijection. */
  lemma {:induction false} DecodeEncode(c: CalibData)
    requires Decodable(c)
    ensures DecodeCalibration(EncodeCalibration(c).tp, EncodeCalibration(c).h1, EncodeCalibration(c).hum) == c
  {
    var e := EncodeCalibration(c);
    var d := DecodeCalibration(e.tp, e.h1, e.hum);
    assert d.digT1 == c.digT1 by { U16RoundTrip(c.digT1); }
    assert d.digT2 == c.digT2 by { S16RoundTrip(c.digT2); }
    assert d.digT3 == c.digT3 by { S16RoundTrip(c.digT3); }
    assert d.digP1 == c.digP1 by { U16RoundTrip(c.digP1); }
    assert d.digP2 == c.digP2 by { S16RoundTrip(c.digP2); }
    assert d.digP3 == c.digP3 by { S16RoundTrip(c.digP3); }
    assert d.digP4 == c.digP4 by { S16RoundTrip(c.digP4); }
    assert d.digP5 == c.digP5 by { S16RoundTrip(c.digP5); }
    assert d.digP6 == c.digP6 by { S16RoundTrip(c.digP6); }
    assert d.digP7 == c.digP7 by { S16RoundTrip(c.digP7); }
    assert d.digP8 == c.digP8 by { S16RoundTrip(c.digP8); }
    assert d.digP9 == c.digP9 by { S16RoundTrip(c.digP9); }
    assert d.digH2 == c.digH2 by { S16RoundTrip(c.digH2); }
  }
}
