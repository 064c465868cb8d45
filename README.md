# BME280 integer compensation, modelled in Dafny

This project models the sensor logic of a small BME280 telemetry system. It
turns the Bosch BME280 raw ADC codes into temperature (hundredths of a
degree), pressure (Pa × 256) and relative humidity (%RH × 1024). It uses the
integer compensation formulas of the BME280 datasheet (section 4.2.3) and
the trimming parameters read from the device (section 4.2.2, Table 16).

Two C files carry that logic, and the model keeps both:

- `i2c_driver/adc_conversion.c`, the kernel-side routines. The globals
  `t_fine` and `calib` become the fields of the class
  `AdcConversion.Converter`. `CompensateTemp` is the only method that writes
  `t_fine`. The pressure and humidity methods have no `modifies` clause, so
  they provably change neither field.
- `userspace_system/telemetry.c`, the user-space program. Its globals become
  the class `Telemetry.Station`. That class loads the calibration field by
  field from a local buffer, unpacks the 8-byte measurement block and runs
  the compensations in the order T, then P, then H.

Both C files contain the same formulas. Module `Compensation` states those
formulas once, as reference functions. The methods of both classes are
written statement by statement like the C and are proved equal to those
functions. C semantics are spelled out in module `FixedPoint`:

- `>>` on a signed value is an arithmetic shift (floor division by 2^n).
- `<<` is multiplication by 2^n.
- `/` truncates toward zero.
- Storing into `int16_t` or `int8_t` keeps the bit pattern, and the
  conversion to `uint32_t` reduces modulo 2^32.

The byte-assembly expressions `a | (b << 8)`, `(b3 << 4) | (b4 & 0xF)` and
`(d0 << 12) | (d1 << 4) | (d2 >> 4)` are written as sums. Their operands
occupy disjoint bits, so the sum equals the OR.

The device is seen through a snapshot of its 256 registers (`regs`).
`Telemetry.ReadBlock` gives the effect of one block read on the buffer.

## Model

| member | source | states |
|---|---|---|
| `FixedPoint.Asr` | i2c_driver/adc_conversion.c:11-17 | `x >> n` on a signed value is the floor of x / 2^n: 2^n·r ≤ x < 2^n·r + 2^n |
| `FixedPoint.Shl` | i2c_driver/adc_conversion.c:11-48 | shifting `x << n` back right gives x again for every x, negative included (`Asr(Shl(x, n), n) == x`) |
| `FixedPoint.ShlLowBits` | i2c_driver/adc_conversion.c:11-48 | the n low bits of `x << n` are zero, so with `Shl`'s contract the result is exactly x·2^n |
| `FixedPoint.TruncDiv` | i2c_driver/adc_conversion.c:36 | C division: the remainder a − r·b is smaller than \|b\| and has the sign of the dividend; callable only with a nonzero divisor |
| `FixedPoint.TruncDivNonNegative` | userspace_system/telemetry.c:107 | for a non-negative dividend and positive divisor, C's `/` equals floor division |
| `FixedPoint.TruncDivNegative` | i2c_driver/adc_conversion.c:36 | for a negative dividend and positive divisor, C's `/` is the negated floor quotient of the magnitude |
| `FixedPoint.TruncDivMonotone` | i2c_driver/adc_conversion.c:36 | C's `/` by a positive divisor is monotone in the dividend, across the sign change too |
| `FixedPoint.ToUint32` | i2c_driver/adc_conversion.c:40 | `(uint32_t)p` lies in [0, 2^32), is congruent to p modulo 2^32, and equals p when p is already in range |
| `FixedPoint.ToInt16` | userspace_system/telemetry.c:64-75 | storing a two-byte value of [0, 65535] into `int16_t` keeps the bit pattern: the result lies in [−32768, 32767] and is the value itself or the value − 65536 |
| `FixedPoint.ToInt8` | userspace_system/telemetry.c:84 | storing a `uint8_t` into `int8_t` keeps the bit pattern: the result lies in [−128, 127] and is the byte itself or the byte − 256 |
| `Calibration.U16LE` | userspace_system/telemetry.c:63-67 | dig_T1 / dig_P1: the low byte is the value mod 256 and the high byte is the value div 256, so the value is in [0, 65535] |
| `Calibration.S16LE` | userspace_system/telemetry.c:64-80 | dig_T2, dig_T3, dig_P2..dig_P9, dig_H2: the int16 reading of the little-endian pair is lo + 256·hi or lo + 256·hi − 65536, and is negative exactly when the high byte's top bit is set |
| `Calibration.DigH4` | userspace_system/telemetry.c:82 | dig_H4 is in [0, 4095]; its bits 11..4 are buf[3] and its bits 3..0 are the low nibble of buf[4] |
| `Calibration.DigH5` | userspace_system/telemetry.c:83 | dig_H5 is in [0, 4095]; its bits 11..4 are buf[5] and its bits 3..0 are the high nibble of buf[4] |
| `Calibration.SharedNibbleByte` | userspace_system/telemetry.c:82-83 | each nibble of buf[4] feeds exactly one of dig_H4 and dig_H5 (each iff), and together they rebuild buf[4] |
| `Calibration.DecodeCalibration` | userspace_system/telemetry.c:59-85 | the 24 + 1 + 7 register bytes give 18 coefficients of the struct's C types, with dig_H4 and dig_H5 in [0, 4095] |
| `Calibration.U16RoundTrip` | userspace_system/telemetry.c:63-67 | splitting an unsigned 16-bit coefficient into its low and high byte and decoding gives it back |
| `Calibration.S16RoundTrip` | userspace_system/telemetry.c:64-80 | splitting a signed 16-bit coefficient into its two's-complement bytes and decoding gives it back |
| `Calibration.PairRoundTrip` | userspace_system/telemetry.c:63-80 | decoding a byte pair (signed or unsigned) and splitting it again gives the same two bytes |
| `Calibration.TpBlockRoundTrip` | userspace_system/telemetry.c:61-75 | the 24-byte block at 0x88 is recovered exactly from the twelve temperature and pressure coefficients |
| `Calibration.NibbleBytesRoundTrip` | userspace_system/telemetry.c:82-84 | buf[3], buf[4], buf[5] and buf[6] are recovered from dig_H4, dig_H5 and dig_H6 |
| `Calibration.HumBlockRoundTrip` | userspace_system/telemetry.c:79-84 | the 7-byte block at 0xE1 is recovered exactly from dig_H2..dig_H6 |
| `Calibration.EncodeDecode` | userspace_system/telemetry.c:59-85 | decoding loses nothing: every register image is recovered from its coefficients |
| `Calibration.DecodeEncode` | userspace_system/telemetry.c:59-85 | every coefficient set with dig_H4, dig_H5 in [0, 4095] is decoded back from its encoding, so the decoding is a bijection onto those sets |
| `Compensation.FineTemperature` | i2c_driver/adc_conversion.c:11-16 | `t_fine = var1 + var2`, the same operations as userspace_system/telemetry.c:91-93; no contract of its own, anchored by `ExampleTemperature` (the published t_fine 128422) and `UncalibratedTemperature` |
| `Compensation.CentiFromFine` | i2c_driver/adc_conversion.c:17 | `(t_fine*5 + 128) >> 8` is t_fine·5/256 rounded to the nearest integer: 256·r − 128 ≤ 5·t_fine < 256·r + 128 |
| `Compensation.CentiMonotone` | i2c_driver/adc_conversion.c:17 | hundredths of a degree are monotone in t_fine |
| `Compensation.PressureOffset` | i2c_driver/adc_conversion.c:24-27 | `var2` after the dig_P6, dig_P5 and dig_P4 terms, the same as userspace_system/telemetry.c:99-102; no contract of its own, anchored by `ExamplePressure` and `CompensatePressure` |
| `Compensation.PressureDivisor` | i2c_driver/adc_conversion.c:28-30 | `var1` after the dig_P3, dig_P2 and dig_P1 terms, the same as userspace_system/telemetry.c:103-104; no contract of its own, anchored by `ExamplePressure` (597560748) and `ZeroP1GivesZeroPressure` |
| `Compensation.PressureQuotient` | i2c_driver/adc_conversion.c:35-36 | `p = (((1048576 − adc_P) << 31) − var2)·3125 / var1` with C's truncating `/`, reachable only with a nonzero divisor, as in userspace_system/telemetry.c:106-107; anchored by `QuotientAntitone` and `ExamplePressure` |
| `Compensation.PressureFixed` | i2c_driver/adc_conversion.c:23-40 | the 64-bit Pa×256 value is exactly 0 when the computed divisor var1 is 0; the division is reached only with a nonzero divisor |
| `Compensation.ZeroP1GivesZeroPressure` | i2c_driver/adc_conversion.c:30-33 | a calibration with dig_P1 = 0 makes the divisor 0, and the guard returns 0 for every raw code and t_fine |
| `Compensation.QuotientAntitone` | i2c_driver/adc_conversion.c:35-36 | with a positive divisor, the quotient `((p<<31) − var2)·3125 / var1` never increases as adc_P increases |
| `Compensation.HumidityAccumulator` | i2c_driver/adc_conversion.c:47-53 | `v_x1` before the clamp, the same as userspace_system/telemetry.c:115-118; no contract of its own, anchored by `HumiditySaturation` and `UncalibratedHumidity` |
| `Compensation.Clamp` | i2c_driver/adc_conversion.c:54-55 | the accumulator is forced into [0, 419430400], and a value already in range is unchanged |
| `Compensation.ClampNearest` | i2c_driver/adc_conversion.c:54-55 | the clamp returns the point of [0, 419430400] nearest to its argument |
| `Compensation.Humidity` | i2c_driver/adc_conversion.c:46-56 | humidity is always in [0, 102400] (102400 = 419430400 >> 12), for every raw code, t_fine and calibration |
| `Compensation.HumiditySaturation` | i2c_driver/adc_conversion.c:53-56 | an accumulator ≥ 419430400 reads 102400; one below 4096 (or negative) reads 0; one in range reads acc div 4096 |
| `Compensation.UncalibratedTemperature` | i2c_driver/adc_conversion.c:4-17 | with the zero-initialised calibration, t_fine is 0 and the temperature is 0 for every raw code |
| `Compensation.UncalibratedPressure` | i2c_driver/adc_conversion.c:21-41 | with the zero-initialised calibration, pressure compensation takes the zero guard and returns 0 |
| `Compensation.UncalibratedHumidity` | i2c_driver/adc_conversion.c:44-57 | with the zero-initialised calibration, the humidity accumulator is 0 and humidity reads 0 |
| `Compensation.ExampleTemperature` | i2c_driver/adc_conversion.c:8-18 | Bosch's published example: with its coefficients, adc_T = 519888 gives t_fine = 128422 and 2508 (25.08 °C) |
| `Compensation.ExamplePressure` | i2c_driver/adc_conversion.c:21-41 | derived value: t_fine = 128422 and adc_P = 415148 give divisor 597560748 and 25767233 = 100653.25 Pa × 256, consistent with the published floating-point 100653.27 Pa |
| `AdcConversion.Converter.constructor` | i2c_driver/adc_conversion.c:4-5 | the globals start with t_fine = 0 and the given calibration |
| `AdcConversion.Converter.CompensateTemp` | i2c_driver/adc_conversion.c:8-18 | sets t_fine = var1 + var2 of this raw code, returns the rounded t_fine·5/256, and leaves calib unchanged |
| `AdcConversion.Converter.CompensatePressure` | i2c_driver/adc_conversion.c:21-41 | returns `(uint32_t)` of the reference pressure at the current t_fine and calib: 0 on a zero divisor, always in [0, 2^32); changes no field |
| `AdcConversion.Converter.CompensateHumidity` | i2c_driver/adc_conversion.c:44-57 | returns the reference humidity at the current t_fine and calib, in [0, 102400]; changes no field |
| `Telemetry.Adc20` | userspace_system/telemetry.c:129-130 | `(b0 << 12) \| (b1 << 4) \| (b2 >> 4)` lies in [0, 2^20): bits 19..12 are b0, bits 11..4 are b1 and bits 3..0 are the high nibble of b2 |
| `Telemetry.Adc16` | userspace_system/telemetry.c:131 | `(b6 << 8) \| b7` lies in [0, 2^16): the high byte is b6 and the low byte is b7 |
| `Telemetry.Adc20Split` | userspace_system/telemetry.c:129-130 | every 20-bit code is rebuilt from its three register bytes |
| `Telemetry.Unpack` | userspace_system/telemetry.c:129-131 | adc_P and adc_T are in [0, 2^20) and adc_H in [0, 2^16) |
| `Telemetry.UnpackPack` | userspace_system/telemetry.c:129-131 | every raw triple in range is read back from the block that holds it |
| `Telemetry.PackUnpack` | userspace_system/telemetry.c:129-131 | unpacking loses exactly the low nibbles of bytes 2 and 5 and nothing else |
| `Telemetry.UnpackLocality` | userspace_system/telemetry.c:129-131 | adc_P depends only on bytes 0-2, adc_T only on bytes 3-5 and adc_H only on bytes 6-7 |
| `Telemetry.Measure` | userspace_system/telemetry.c:125-136 | one cycle: humidity in [0, 102400]; pressure 0 when the divisor at this block's t_fine is 0 |
| `Telemetry.MeasureDependencies` | userspace_system/telemetry.c:129-135 | temperature depends only on bytes 3-5; pressure only on bytes 0-5 and humidity only on bytes 3-7, so both use this block's t_fine |
| `Telemetry.MeasureUncalibrated` | userspace_system/telemetry.c:88-122 | a cycle run before the calibration is loaded reads (0, 0, 0) |
| `Telemetry.ReadBlock` | userspace_system/telemetry.c:53-56 | after a block read, the first len buffer bytes equal registers reg .. reg+len−1 and the rest of the buffer is unchanged |
| `Telemetry.Station.constructor` | userspace_system/telemetry.c:44-88 | the globals start as the all-zero calibration and t_fine = 0 |
| `Telemetry.Station.ReadCalibration` | userspace_system/telemetry.c:59-85 | reuses one 26-byte buffer for both blocks, and leaves calib equal to the decoding of registers 0x88..0x9F, 0xA1 and 0xE1..0xE7; t_fine unchanged |
| `Telemetry.Station.CompensateT` | userspace_system/telemetry.c:90-95 | the same t_fine and temperature as the kernel version; calib unchanged |
| `Telemetry.Station.CompensateP` | userspace_system/telemetry.c:97-112 | the reference 64-bit pressure at the current t_fine (no uint32 conversion here), including the zero guard |
| `Telemetry.Station.CompensateH` | userspace_system/telemetry.c:114-122 | the reference humidity, including the clamp, so always in [0, 102400] |
| `Telemetry.Station.ReadSensor` | userspace_system/telemetry.c:125-136 | reads the block at 0xF7 and runs T, then P, then H: t_fine ends as this block's fine temperature, and the outputs are exactly `Measure` of the block with the loaded calibration, whatever t_fine was before |

## Left out

- `i2c_write` and `i2c_read` (telemetry.c:48-56) talk to a file descriptor. The model reads a 256-register snapshot instead. A failed or short read is not modelled; the C code ignores the return values of `read` and `write`.
- `main` (telemetry.c:178-206) is left out: opening the bus, `ioctl`, the writes of 0x27 to 0xF4 and 0xA0 to 0xF5, the endless loop and `nanosleep`. It is I/O and timing only.
- `send_http` (telemetry.c:140-176) is left out: libcurl, JSON built with `snprintf` from floats, and the fixed URL.
- The final float divisions and `printf` (telemetry.c:94, 111, 121, 200) are left out. Each method returns the integer value before the float conversion.
- `i2c_driver/i2c_driver.c` (device table, probe/remove with `printk`, a chip-ID read) and `first_driver/ldd.c` (init/exit with `printk`) contain registration and logging only. They are not part of this model.
- The header `adc_conversion.h` is not part of this model. Its calibration struct is taken to be the one declared in telemetry.c:21-42.
- Overflow of the 32-bit and 64-bit intermediates is not modelled. The integers are unbounded, so every result equals the C result exactly when no intermediate overflows. The one defined conversion that can change a value is `(uint32_t)p` at adc_conversion.c:40, and it is modelled.
- `Calibration.DigH4` and `Calibration.DigH5` follow the code, which builds both from unsigned bytes. Both are therefore never negative, although the struct declares them `int16_t`. The datasheet calls them signed, but the code never sign-extends the 12-bit value.
- The program has no background poller, snapshot slot, packet encoder, partial readings or error taxonomy. It reads the calibration as 24 + 1 + 7 bytes and never writes the humidity-control register.
- `AdcConversion.Converter.constructor` takes the kernel calibration as an argument. In i2c_driver/adc_conversion.c the `calib` global is zero-initialised, and nothing in that driver writes it. `Converter(ZeroCalibration)` is that program as it stands, and `UncalibratedTemperature`, `UncalibratedPressure` and `UncalibratedHumidity` give its outputs.
