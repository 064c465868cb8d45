/** The user-space telemetry program's sensor logic: loading the trimming
    parameters, unpacking the 8-byte measurement block and running the
    three compensations in the order temperature, pressure, humidity. The
    globals `calib` and `t_fine` become the fields of a Station object. The
    device is seen through a snapshot of its 256 registers; the file
    descriptor and the read/write calls on it are not part of this model. */
module Telemetry {
  import opened FixedPoint
  import opened Calibration
  import opened Compensation

  /** First register of the temperature/pressure trimming block. */
  const RegCalibTp: nat := 0x88
  /** Register holding dig_H1. */
  const RegCalibH1: nat := 0xA1
  /** First register of the humidity trimming block. */
  const RegCalibHum: nat := 0xE1
  /** First register of the measurement block (`REG_DATA`). */
  const RegData: nat := 0xF7
  /** Length of the measurement block: press_msb .. hum_lsb. */
  const DataBlockLength: nat := 8
  /** Number of 8-bit register addresses. */
  const RegisterCount: nat := 0x100

  // ----- raw measurement unpacking -----

  /** The three raw ADC codes of one measurement block. */
  datatype RawMeasurement = RawMeasurement(adcP: int, adcT: int, adcH: int)

  predicate InAdcRange(r: RawMeasurement)
  {
    0 <= r.adcP < 0x10_0000 && 0 <= r.adcT < 0x10_0000 && 0 <= r.adcH < 0x1_0000
  }

  /** `(b0 << 12) | (b1 << 4) | (b2 >> 4)`: a 20-bit code, most significant
      byte first, whose bits 3..0 are the top nibble of the xlsb byte. The
      OR-ed parts occupy disjoint bits, so the OR is a sum. */
  function Adc20(b0: Byte, b1: Byte, b2: Byte): (v: int)
    ensures 0 <= v < 0x10_0000
    ensures v / 0x1000 == b0 && v / 0x10 % 0x100 == b1 && v % 0x10 == b2 / 0x10
  {
    var w := b0 * 0x100 + b1;
    var v := w * 0x10 + b2 / 0x10;
    assert v / 0x10 == w;
    assert w % 0x100 == b1 && w / 0x100 == b0;
    assert v / 0x1000 == w / 0x100;
    v
  }

  /** `(b6 << 8) | b7`: the 16-bit humidity code, big-endian. */
  function Adc16(b6: Byte, b7: Byte): (v: int)
    ensures 0 <= v < 0x1_0000
    ensures v / 0x100 == b6 && v % 0x100 == b7
  {
    b6 * 0x100 + b7
  }

  /** The three raw codes of the block: pressure from bytes 0..2,
      temperature from bytes 3..5, humidity from bytes 6..7. */
  function Unpack(data: seq<Byte>): (r: RawMeasurement)
    requires |data| == DataBlockLength
    ensures InAdcRange(r)
  {
    RawMeasurement(Adc20(data[0], data[1], data[2]), Adc20(data[3], data[4], data[5]), Adc16(data[6], data[7]))
  }

  /** The measurement block that holds given raw codes, with the unused low
      nibbles of the two xlsb registers zero. */
  function PackRaw(r: RawMeasurement): (data: seq<Byte>)
    requires InAdcRange(r)
    ensures |data| == DataBlockLength
  {
    [r.adcP / 0x1000, r.adcP / 0x10 % 0x100, r.adcP % 0x10 * 0x10,
     r.adcT / 0x1000, r.adcT / 0x10 % 0x100, r.adcT % 0x10 * 0x10,
     r.adcH / 0x100, r.adcH % 0x100]
  }

  /** A 20-bit code is rebuilt from its three register bytes. */
  lemma Adc20Split(v: int)
    requires 0 <= v < 0x10_0000
    ensures Adc20(v / 0x1000, v / 0x10 % 0x100, v % 0x10 * 0x10) == v
  {
    var w := v / 0x10;
    assert v == w * 0x10 + v % 0x10;
    assert w == (w / 0x100) * 0x100 + w % 0x100;
    assert v / 0x1000 == w / 0x100;
    assert (v % 0x10 * 0x10) / 0x10 == v % 0x10;
  }

  /** A 16-bit code is rebuilt from its two register bytes. */
  lemma Adc16Split(v: int)
    requires 0 <= v < 0x1_0000
    ensures Adc16(v / 0x100, v % 0x100) == v
  {
  }

  /** Every triple of raw codes in range is read back from its block. */
  lemma UnpackPack(r: RawMeasurement)
    requires InAdcRange(r)
    ensures Unpack(PackRaw(r)) == r
  {
    Adc20Split(r.adcP);
    Adc20Split(r.adcT);
    Adc16Split(r.adcH);
  }

  /** Unpacking drops exactly the low nibbles of the two xlsb registers:
      everything else in the block is recovered from the raw codes. */
  lemma PackUnpack(data: seq<Byte>)
    requires |data| == DataBlockLength
    ensures PackRaw(Unpack(data)) == data[2 := data[2] / 0x10 * 0x10][5 := data[5] / 0x10 * 0x10]
  {
    var r := Unpack(data);
    var d := PackRaw(r);
    var e := data[2 := data[2] / 0x10 * 0x10][5 := data[5] / 0x10 * 0x10];
    assert d[0] == e[0] && d[1] == e[1] && d[2] == e[2] && d[3] == e[3];
    assert d[4] == e[4] && d[5] == e[5] && d[6] == e[6] && d[7] == e[7];
  }

  /** adc_P depends only on bytes 0..2, adc_T only on bytes 3..5 and adc_H
      only on bytes 6..7 of the block. */
  lemma UnpackLocality(d: seq<Byte>, e: seq<Byte>)
    requires |d| == DataBlockLength && |e| == DataBlockLength
    ensures d[0..3] == e[0..3] ==> Unpack(d).adcP == Unpack(e).adcP
    ensures d[3..6] == e[3..6] ==> Unpack(d).adcT == Unpack(e).adcT
    ensures d[6..8] == e[6..8] ==> Unpack(d).adcH == Unpack(e).adcH
  {
    if d[0..3] == e[0..3] {
      assert d[0] == d[0..3][0] && d[1] == d[0..3][1] && d[2] == d[0..3][2];
      assert e[0] == e[0..3][0] && e[1] == e[0..3][1] && e[2] == e[0..3][2];
    }
    if d[3..6] == e[3..6] {
      assert d[3] == d[3..6][0] && d[4] == d[3..6][1] && d[5] == d[3..6][2];
      assert e[3] == e[3..6][0] && e[4] == e[3..6][1] && e[5] == e[3..6][2];
    }
    if d[6..8] == e[6..8] {
      assert d[6] == d[6..8][0] && d[7] == d[6..8][1];
      assert e[6] == e[6..8][0] && e[7] == e[6..8][1];
    }
  }

  // ----- one measurement cycle -----

  /** The integer values behind the three floats of one cycle: hundredths of
      a degree, Pa * 256 and %RH * 1024. */
  datatype Reading = Reading(centideg: int, pa256: int, rh1024: int)

  /** One cycle on a measurement block: temperature compensation first, and
      its t_fine feeds the pressure and humidity compensation of the same
      block. */
  function Measure(data: seq<Byte>, c: CalibData): (r: Reading)
    requires |data| == DataBlockLength
    ensures 0 <= r.rh1024 <= HumidityMax
    ensures PressureDivisor(FineTemperature(Unpack(data).adcT, c), c) == 0 ==> r.pa256 == 0
  {
    var raw := Unpack(data);
    var fine := FineTemperature(raw.adcT, c);
    Reading(CentiFromFine(fine), PressureFixed(raw.adcP, fine, c), Humidity(raw.adcH, fine, c))
  }

  /** The data flow of one cycle: temperature depends only on the temperature
      bytes; pressure and humidity depend on their own bytes and, through
      t_fine, on the temperature bytes of the same block, and on nothing else. */
  lemma MeasureDependencies(d: seq<Byte>, e: seq<Byte>, c: CalibData)
    requires |d| == DataBlockLength && |e| == DataBlockLength
    ensures d[3..6] == e[3..6] ==> Measure(d, c).centideg == Measure(e, c).centideg
    ensures d[0..6] == e[0..6] ==> Measure(d, c).pa256 == Measure(e, c).pa256
    ensures d[3..8] == e[3..8] ==> Measure(d, c).rh1024 == Measure(e, c).rh1024
  {
    UnpackLocality(d, e);
    if d[0..6] == e[0..6] {
      assert d[0..3] == d[0..6][0..3] && e[0..3] == e[0..6][0..3];
      assert d[3..6] == d[0..6][3..6] && e[3..6] == e[0..6][3..6];
    }
    if d[3..8] == e[3..8] {
      assert d[3..6] == d[3..8][0..3] && e[3..6] == e[3..8][0..3];
      assert d[6..8] == d[3..8][3..5] && e[6..8] == e[3..8][3..5];
    }
  }

  /** A cycle run before the trimming parameters are loaded reads all zeros. */
  lemma MeasureUncalibrated(data: seq<Byte>)
    requires |data| == DataBlockLength
    ensures Measure(data, ZeroCalibration) == Reading(0, 0, 0)
  {
    var raw := Unpack(data);
    UncalibratedTemperature(raw.adcT);
    UncalibratedPressure(raw.adcP, FineTemperature(raw.adcT, ZeroCalibration));
    UncalibratedHumidity(raw.adcH, FineTemperature(raw.adcT, ZeroCalibration));
  }

  /** The effect of `i2c_read(reg, buf, len)` on the buffer: the first len
      bytes become the registers reg .. reg + len - 1, the rest is kept. */
  method ReadBlock(regs: seq<Byte>, reg: nat, buf: array<Byte>, len: nat)
    requires reg + len <= |regs| && len <= buf.Length
    modifies buf
    ensures buf[..len] == regs[reg..reg + len]
    ensures buf[len..] == old(buf[len..])
  {
    var i := 0;
    while i < len
      invariant 0 <= i <= len
      invariant buf[..i] == regs[reg..reg + i]
      invariant buf[len..] == old(buf[len..])
    {
      buf[i] := regs[reg + i];
      i := i + 1;
    }
  }

  class Station {
    /** The trimming parameters, loaded once by ReadCalibration. */
    var calib: CalibData
    /** The fine temperature left by the last CompensateT. */
    var tFine: int

    /** Static storage starts at zero. */
    constructor ()
      ensures calib == ZeroCalibration && tFine == 0
    {
      calib := ZeroCalibration;
      tFine := 0;
    }

    /** `read_calibration`: 24 bytes from 0x88 into a 26-byte buffer, dig_H1
        from 0xA1, then 7 bytes from 0xE1 into the same buffer, and the
        struct filled field by field. */
    method ReadCalibration(regs: seq<Byte>)
      requires |regs| == RegisterCount
      modifies this`calib
      ensures calib == DecodeCalibration(regs[RegCalibTp..RegCalibTp + TpBlockLength], regs[RegCalibH1],
                                         regs[RegCalibHum..RegCalibHum + HumBlockLength])
      ensures tFine == old(tFine)
    {
      ghost var tp := regs[RegCalibTp..RegCalibTp + TpBlockLength];
      ghost var hum := regs[RegCalibHum..RegCalibHum + HumBlockLength];
      var buf := new Byte[26];
      ReadBlock(regs, RegCalibTp, buf, 24);
      assert buf[..24] == tp;

      calib := calib.(digT1 := U16LE(buf[0], buf[1]));
      calib := calib.(digT2 := S16LE(buf[2], buf[3]));
      calib := calib.(digT3 := S16LE(buf[4], buf[5]));

      calib := calib.(digP1 := U16LE(buf[6], buf[7]));
      calib := calib.(digP2 := S16LE(buf[8], buf[9]));
      calib := calib.(digP3 := S16LE(buf[10], buf[11]));
      calib := calib.(digP4 := S16LE(buf[12], buf[13]));
      calib := calib.(digP5 := S16LE(buf[14], buf[15]));
      calib := calib.(digP6 := S16LE(buf[16], buf[17]));
      calib := calib.(digP7 := S16LE(buf[18], buf[19]));
      calib := calib.(digP8 := S16LE(buf[20], buf[21]));
      calib := calib.(digP9 := S16LE(buf[22], buf[23]));

      calib := calib.(digH1 := regs[RegCalibH1]);

      ReadBlock(regs, RegCalibHum, buf, 7);
      assert buf[..7] == hum;
      calib := calib.(digH2 := S16LE(buf[0], buf[1]));
      calib := calib.(digH3 := buf[2]);
      calib := calib.(digH4 := DigH4(buf[3], buf[4]));
      calib := calib.(digH5 := DigH5(buf[4], buf[5]));
      calib := calib.(digH6 := ToInt8(buf[6]));
    }

    /** `compensate_T` up to its float division: sets t_fine and returns
        hundredths of a degree. */
    method CompensateT(adcT: int) returns (centideg: int)
      modifies this`tFine
      ensures tFine == FineTemperature(adcT, calib)
      ensures centideg == CentiFromFine(tFine)
      ensures calib == old(calib)
    {
      var var1 := Asr((Asr(adcT, 3) - Shl(calib.digT1, 1)) * calib.digT2, 11);
      var var2 := Asr(Asr((Asr(adcT, 4) - calib.digT1) * (Asr(adcT, 4) - calib.digT1), 12) * calib.digT3, 14);
      tFine := var1 + var2;
      centideg := Asr(tFine * 5 + 128, 8);
    }

    /** `compensate_P` up to its float division: the 64-bit Pa * 256 value,
        0 when the divisor is 0. */
    method CompensateP(adcP: int) returns (pa256: int)
      ensures pa256 == PressureFixed(adcP, tFine, calib)
      ensures PressureDivisor(tFine, calib) == 0 ==> pa256 == 0
    {
      var var1, var2, p: int;
      var1 := tFine - 128000;
      var2 := var1 * var1 * calib.digP6;
      var2 := var2 + Shl(var1 * calib.digP5, 17);
      var2 := var2 + Shl(calib.digP4, 35);
      var1 := Asr(var1 * var1 * calib.digP3, 8) + Shl(var1 * calib.digP2, 12);
      var1 := Asr((Shl(1, 47) + var1) * calib.digP1, 33);
      assert var1 == PressureDivisor(tFine, calib) && var2 == PressureOffset(tFine, calib);
      if var1 == 0 {
        return 0;
      }
      p := 1048576 - adcP;
      p := TruncDiv((Shl(p, 31) - var2) * 3125, var1);
      assert p == PressureQuotient(adcP, tFine, calib);
      var1 := Asr(calib.digP9 * Asr(p, 13) * Asr(p, 13), 25);
      var2 := Asr(calib.digP8 * p, 19);
      p := Asr(p + var1 + var2, 8) + Shl(calib.digP7, 4);
      pa256 := p;
    }

    /** `compensate_H` up to its float division: %RH * 1024, with the
        accumulator clamped by two conditional expressions. */
    method CompensateH(adcH: int) returns (rh1024: int)
      ensures rh1024 == Humidity(adcH, tFine, calib)
      ensures 0 <= rh1024 <= HumidityMax
    {
      var v := tFine - 76800;
      v := Asr(Shl(adcH, 14) - Shl(calib.digH4, 20) - calib.digH5 * v + 16384, 15) *
           Asr((Asr(Asr(v * calib.digH6, 10) * (Asr(v * calib.digH3, 11) + 32768), 10) + 2097152) * calib.digH2 + 8192, 14);
      v := v - Asr(Asr(Asr(v, 15) * Asr(v, 15), 7) * calib.digH1, 4);
      assert v == HumidityAccumulator(adcH, tFine, calib);
      v := if v < 0 then 0 else v;
      v := if v > 419430400 then 419430400 else v;
      rh1024 := Asr(v, 12);
    }

    /** `read_sensor`: one 8-byte block read, the three raw codes unpacked,
        then temperature, pressure and humidity compensation in that order,
        so that pressure and humidity use the t_fine of this very block. */
    method ReadSensor(regs: seq<Byte>) returns (temperature: int, pressure: int, humidity: int)
      requires |regs| == RegisterCount
      modifies this`tFine
      ensures tFine == FineTemperature(Unpack(regs[RegData..RegData + DataBlockLength]).adcT, calib)
      ensures Reading(temperature, pressure, humidity) == Measure(regs[RegData..RegData + DataBlockLength], calib)
      ensures calib == old(calib)
    {
      var data := new Byte[8];
      ReadBlock(regs, RegData, data, 8);
      ghost var block := regs[RegData..RegData + DataBlockLength];
      assert data[..] == block;

      var adcP := Adc20(data[0], data[1], data[2]);
      var adcT := Adc20(data[3], data[4], data[5]);
      var adcH := Adc16(data[6], data[7]);
      assert RawMeasurement(adcP, adcT, adcH) == Unpack(block);

      temperature := CompensateT(adcT);
      pressure := CompensateP(adcP);
      humidity := CompensateH(adcH);
    }
  }
}
