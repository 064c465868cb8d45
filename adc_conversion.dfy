/** The kernel-side compensation routines. The globals `t_fine` and `calib`
    become the fields of a Converter object. Temperature compensation is the
    one writer of `t_fine`; pressure and humidity compensation only read it.
    Each method follows the C statement by statement and is proved equal to
    the reference formulas of module Compensation. */
module AdcConversion {
  import opened FixedPoint
  import opened Calibration
  import opened Compensation

  class Converter {
    /** The fine temperature left by the last temperature compensation. */
    var tFine: int
    /** The trimming parameters the formulas read. */
    var calib: CalibData

    /** Static storage starts at zero. adc_conversion.c never writes
        `calib`, so `Converter(ZeroCalibration)` is the driver as it stands;
        the argument lets the formulas be run on a loaded calibration. */
    constructor (c: CalibData)
      ensures tFine == 0 && calib == c
    {
      tFine := 0;
      calib := c;
    }

    /** `compensate_temp`: sets t_fine from the raw temperature code and
        returns hundredths of a degree. */
    method CompensateTemp(adcT: int) returns (centideg: int)
      modifies this`tFine
      ensures tFine == FineTemperature(adcT, calib)
      ensures 256 * centideg - 128 <= 5 * tFine < 256 * centideg + 128
      ensures centideg == CentiFromFine(tFine)
      ensures calib == old(calib)
    {
      var var1 := Asr((Asr(adcT, 3) - Shl(calib.digT1, 1)) * calib.digT2, 11);
      var var2 := Asr(Asr((Asr(adcT, 4) - calib.digT1) * (Asr(adcT, 4) - calib.digT1), 12) * calib.digT3, 14);
      tFine := var1 + var2;
      centideg := Asr(tFine * 5 + 128, 8);
    }

    /** `compensate_pressure`: Pa * 256 from the raw pressure code and the
        current t_fine, returned as uint32_t; 0 when the divisor is 0. */
    method CompensatePressure(adcP: int) returns (pa256: int)
      ensures pa256 == ToUint32(PressureFixed(adcP, tFine, calib))
      ensures PressureDivisor(tFine, calib) == 0 ==> pa256 == 0
      ensures 0 <= pa256 < 0x1_0000_0000
    {
      var var1, var2, p: int;
      var1 := tFine - 128000;
      var2 := var1 * var1 * calib.digP6;
      var2 := var2 + Shl(var1 * calib.digP5, 17);
      var2 := var2 + Shl(calib.digP4, 35);
      var1 := Asr(var1 * var1 * calib.digP3, 8) + Shl(var1 * calib.digP2, 12);
      var1 := Asr((Shl(1, 47) + var1) * calib.digP1, 33);
      assert var1 == PressureDivisor(tFine, calib) && var2 == PressureOffset(tFine, calib);

      if var1 == 0 {
        return 0;
      }

      p := 1048576 - adcP;
      p := TruncDiv((Shl(p, 31) - var2) * 3125, var1);
      assert p == PressureQuotient(adcP, tFine, calib);
      var1 := Asr(calib.digP9 * Asr(p, 13) * Asr(p, 13), 25);
      var2 := Asr(calib.digP8 * p, 19);
      p := Asr(p + var1 + var2, 8) + Shl(calib.digP7, 4);
      pa256 := ToUint32(p);
    }

    /** `compensate_humidity`: %RH * 1024 from the raw humidity code and the
        current t_fine, with the accumulator clamped by two `if` updates. */
    method CompensateHumidity(adcH: int) returns (rh1024: int)
      ensures rh1024 == Humidity(adcH, tFine, calib)
      ensures 0 <= rh1024 <= HumidityMax
    {
      var vX1: int;
      vX1 := tFine - 76800;
      vX1 := Asr(Shl(adcH, 14) - Shl(calib.digH4, 20) - calib.digH5 * vX1 + 16384, 15) *
             Asr((Asr(Asr(vX1 * calib.digH6, 10) * (Asr(vX1 * calib.digH3, 11) + 32768), 10) + 2097152) * calib.digH2 + 8192, 14);
      vX1 := vX1 - Asr(Asr(Asr(vX1, 15) * Asr(vX1, 15), 7) * calib.digH1, 4);
      assert vX1 == HumidityAccumulator(adcH, tFine, calib);
      if vX1 < 0 {
        vX1 := 0;
      }
      if vX1 > 419430400 {
        vX1 := 419430400;
      }
      rh1024 := Asr(vX1, 12);
    }
  }
}
