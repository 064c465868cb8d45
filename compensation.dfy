/** The BME280 integer compensation formulas (Bosch BME280 datasheet,
    section 4.2.3) as reference functions over unbounded integers. Both
    C copies of the formulas are proved against these. `t_fine` is an
    explicit argument of the pressure and humidity formulas. */
module Compensation {
  import opened FixedPoint
  import opened Calibration

  // ----- temperature -----

  /** `t_fine = var1 + var2`: the fine temperature, in units of 1/5120 degC. */
  function FineTemperature(adcT: int, c: CalibData): int
  {
    var var1 := Asr((Asr(adcT, 3) - Shl(c.digT1, 1)) * c.digT2, 11);
    var var2 := Asr(Asr((Asr(adcT, 4) - c.digT1) * (Asr(adcT, 4) - c.digT1), 12) * c.digT3, 14);
    var1 + var2
  }

  /** `(t_fine * 5 + 128) >> 8`: hundredths of a degree, the value
      t_fine * 5 / 256 rounded to the nearest integer (halves upward). */
  function CentiFromFine(tFine: int): (r: int)
    ensures 256 * r - 128 <= 5 * tFine < 256 * r + 128
  {
    Asr(tFine * 5 + 128, 8)
  }

  /** Hundredths of a degree are monotone in t_fine. */
  lemma CentiMonotone(f1: int, f2: int)
    requires f1 <= f2
    ensures CentiFromFine(f1) <= CentiFromFine(f2)
  {
    DivMonotone(f1 * 5 + 128, f2 * 5 + 128, Pow2(8));
  }

  // ----- pressure -----

  /** `var2` once the offset terms are added (64-bit intermediate). */
  function PressureOffset(tFine: int, c: CalibData): int
  {
    var v1 := tFine - 128000;
    v1 * v1 * c.digP6 + Shl(v1 * c.digP5, 17) + Shl(c.digP4, 35)
  }

  /** `var1` after the dig_P1 scaling: the divisor of the pressure formula. */
  function PressureDivisor(tFine: int, c: CalibData): int
  {
    var v1 := tFine - 128000;
    var v := Asr(v1 * v1 * c.digP3, 8) + Shl(v1 * c.digP2, 12);
    Asr((Shl(1, 47) + v) * c.digP1, 33)
  }

  /** `(((p << 31) - var2) * 3125) / var1` with `p = 1048576 - adc_P`: C's
      truncating division, defined only for a nonzero divisor. */
  function PressureQuotient(adcP: int, tFine: int, c: CalibData): int
    requires PressureDivisor(tFine, c) != 0
  {
    TruncDiv((Shl(1048576 - adcP, 31) - PressureOffset(tFine, c)) * 3125, PressureDivisor(tFine, c))
  }

  /** Pressure in Pa * 256 as the 64-bit value before any final conversion.
      A zero divisor yields 0 without dividing; otherwise the quotient gets
      the dig_P7..dig_P9 corrections. */
  function PressureFixed(adcP: int, tFine: int, c: CalibData): (r: int)
    ensures PressureDivisor(tFine, c) == 0 ==> r == 0
  {
    if PressureDivisor(tFine, c) == 0 then 0
    else
      var p := PressureQuotient(adcP, tFine, c);
      var var1 := Asr(c.digP9 * Asr(p, 13) * Asr(p, 13), 25);
      var var2 := Asr(c.digP8 * p, 19);
      Asr(p + var1 + var2, 8) + Shl(c.digP7, 4)
  }

  /** A coefficient set with dig_P1 = 0 drives the divisor to 0, so the
      guard answers 0 for every raw code and every t_fine. */
  lemma ZeroP1GivesZeroPressure(adcP: int, tFine: int, c: CalibData)
    requires c.digP1 == 0
    ensures PressureDivisor(tFine, c) == 0
    ensures PressureFixed(adcP, tFine, c) == 0
  {
  }

  /** With a positive divisor the quotient never grows with the raw code:
      the raw pressure code falls as the pressure rises. */
  lemma QuotientAntitone(adcP1: int, adcP2: int, tFine: int, c: CalibData)
    requires PressureDivisor(tFine, c) > 0 && adcP1 <= adcP2
    ensures PressureQuotient(adcP2, tFine, c) <= PressureQuotient(adcP1, tFine, c)
  {
    var off := PressureOffset(tFine, c);
    assert Pow2(31) == 0x8000_0000;
    var s1 := Shl(1048576 - adcP1, 31);
    var s2 := Shl(1048576 - adcP2, 31);
    assert s1 == (1048576 - adcP1) * 0x8000_0000 && s2 == (1048576 - adcP2) * 0x8000_0000;
    assert s2 <= s1;
    TruncDivMonotone((s2 - off) * 3125, (s1 - off) * 3125, PressureDivisor(tFine, c));
  }

  // ----- humidity -----

  /** Upper end of the humidity accumulator: 100 %RH in Q22.10, shifted left
      by 12. */
  const HumidityAccMax: int := 419430400
  /** 100 %RH in units of 1/1024 %RH: HumidityAccMax >> 12. */
  const HumidityMax: int := 102400

  /** `v_x1` after the dig_H1 correction and before the clamp. */
  function HumidityAccumulator(adcH: int, tFine: int, c: CalibData): int
  {
    var x := tFine - 76800;
    var y := Asr(Shl(adcH, 14) - Shl(c.digH4, 20) - c.digH5 * x + 16384, 15) *
             Asr((Asr(Asr(x * c.digH6, 10) * (Asr(x * c.digH3, 11) + 32768), 10) + 2097152) * c.digH2 + 8192, 14);
    y - Asr(Asr(Asr(y, 15) * Asr(y, 15), 7) * c.digH1, 4)
  }

  /** Saturation into the closed range [0, HumidityAccMax]. */
  function Clamp(v: int): (r: int)
    ensures 0 <= r <= HumidityAccMax
    ensures 0 <= v <= HumidityAccMax ==> r == v
  {
    if v < 0 then 0 else if v > HumidityAccMax then HumidityAccMax else v
  }

  /** The clamp picks the point of the range nearest to its argument. */
  lemma ClampNearest(v: int, w: int)
    requires 0 <= w <= HumidityAccMax
    ensures Abs(Clamp(v) - v) <= Abs(w - v)
  {
  }

  /** Humidity in units of 1/1024 %RH: the clamped accumulator shifted right
      by 12, always between 0 and 100 %RH. */
  function Humidity(adcH: int, tFine: int, c: CalibData): (r: int)
    ensures 0 <= r <= HumidityMax
  {
    var v := Clamp(HumidityAccumulator(adcH, tFine, c));
    DivMonotone(0, v, Pow2(12));
    DivMonotone(v, HumidityAccMax, Pow2(12));
    Asr(v, 12)
  }

  /** How the clamp shows in the result: an accumulator at or above the top
      of the range reads 100 %RH, one below 4096 (or negative) reads 0, and
      one in range is simply shifted. */
  lemma HumiditySaturation(adcH: int, tFine: int, c: CalibData)
    ensures var acc := HumidityAccumulator(adcH, tFine, c);
      && (acc >= HumidityAccMax ==> Humidity(adcH, tFine, c) == HumidityMax)
      && (acc < 4096 ==> Humidity(adcH, tFine, c) == 0)
      && (0 <= acc <= HumidityAccMax ==> Humidity(adcH, tFine, c) == acc / 4096)
  {
  }

  // ----- whole-pipeline facts -----

  /** Before any calibration is loaded, temperature compensation gives
      t_fine 0 and 0.00 degC for every raw code. */
  lemma UncalibratedTemperature(adcT: int)
    ensures FineTemperature(adcT, ZeroCalibration) == 0
    ensures CentiFromFine(FineTemperature(adcT, ZeroCalibration)) == 0
  {
  }

  /** Before any calibration is loaded the pressure guard fires: 0 for every
      raw code and every t_fine. */
  lemma UncalibratedPressure(adcP: int, tFine: int)
    ensures PressureDivisor(tFine, ZeroCalibration) == 0
    ensures PressureFixed(adcP, tFine, ZeroCalibration) == 0
  {
    ZeroP1GivesZeroPressure(adcP, tFine, ZeroCalibration);
  }

  /** Before any calibration is loaded the humidity accumulator is 0 (its
      second factor is 8192 >> 14), so the humidity reads 0. */
  lemma UncalibratedHumidity(adcH: int, tFine: int)
    ensures HumidityAccumulator(adcH, tFine, ZeroCalibration) == 0
    ensures Humidity(adcH, tFine, ZeroCalibration) == 0
  {
    HumiditySaturation(adcH, tFine, ZeroCalibration);
  }

  /** The temperature/pressure coefficients of Bosch's published
      compensation example (the humidity ones are not part of it). */
  const ExampleCalibration: CalibData :=
    CalibData(27504, 26435, -1000, 36477, -10685, 3024, 2855, 140, -7, 15500, -14600, 6000,
              0, 0, 0, 0, 0, 0)

  /** Bosch's published example, temperature: raw code 519888 gives t_fine 128422 and
      25.08 degC. */
  lemma ExampleTemperature()
    ensures FineTemperature(519888, ExampleCalibration) == 128422
    ensures CentiFromFine(128422) == 2508
  {
    var c := ExampleCalibration;
    assert Pow2(3) == 8 && Pow2(4) == 16 && Pow2(8) == 256;
    assert Pow2(11) == 2048 && Pow2(12) == 4096 && Pow2(14) == 16384;
    assert Asr(519888, 3) == 64986 && Asr(519888, 4) == 32493;
    assert Asr((64986 - Shl(27504, 1)) * 26435, 11) == 128793;
    assert Asr(Asr((32493 - 27504) * (32493 - 27504), 12) * -1000, 14) == -371;
  }

  /** Derived value, pressure: with t_fine 128422, raw code 415148 gives
      25767233 / 256 = 100653.25 Pa, consistent with the 100653.27 Pa of
      Bosch's floating-point example for the same inputs. */
  lemma ExamplePressure()
    ensures PressureDivisor(128422, ExampleCalibration) == 597560748
    ensures PressureFixed(415148, 128422, ExampleCalibration) == 25767233
  {
    var c := ExampleCalibration;
    assert Pow2(8) == 256 && Pow2(4) == 16 && Pow2(12) == 4096 && Pow2(13) == 8192;
    assert Pow2(17) == 131072 && Pow2(19) == 524288 && Pow2(25) == 33554432;
    assert Pow2(31) == 2147483648 && Pow2(33) == 8589934592;
    assert Pow2(35) == 34359738368 && Pow2(47) == 140737488355328;
    assert PressureOffset(128422, c) == 98104795527812;
    assert Asr(422 * 422 * 3024, 8) + Shl(422 * -10685, 12) == -18467047103;
    assert PressureDivisor(128422, c) == 597560748;
    assert PressureQuotient(415148, 128422, c) == TruncDiv(3944285864554787500, 597560748);
    assert TruncDiv(3944285864554787500, 597560748) == 6600644165 by {
      TruncDivNonNegative(3944285864554787500, 597560748);
    }
    assert Asr(6600644165, 13) == 805742;
    assert Asr(6000 * 805742 * 805742, 25) == 116089612;
    assert Asr(-14600 * 6600644165, 19) == -183810053;
  }
}
