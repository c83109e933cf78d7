# Brake transducer ADC-to-PSI conversion

This project models the conversion that a vehicle data-acquisition unit uses to turn a
brake-line pressure reading into PSI. A 12-bit ADC code is
converted in three steps:

1. The sensor voltage is rebuilt as `counts * VREF * DIVIDER / ADC_MAX`. The ADC reference
   is 3.3 V and a 2:1 divider sits in front of the ADC input.
2. The transducer's linear fit `SLOPE * v - OFFSET` is applied, with 125 PSI/V and an
   offset of 62.5 PSI.
3. The result is clamped to the band `[0, 500]` PSI. The lower limit is checked first and
   then the upper one.

Module `BrakeTrans` in `brake_trans.dfy` declares the constants as `const`s. The three steps
are the functions `SensorVoltage`, `LinearPsi` and `Clamp`, and `AdcToPsi` is their
composition. `ConvertReading` is a method that follows the firmware's own sequence, where
the local `psi` is reassigned by each limit check, and it is proved equal to `AdcToPsi`.
The conversion is total: it takes every natural number, with no precondition and no error
path. This includes codes above 4095 and the largest 32-bit value. All arithmetic is over
`real`, which makes the model an exact idealisation of the firmware's single-precision
computation. Like every Dafny function, the conversion is deterministic.

## Model

| member | source | states |
|---|---|---|
| `BrakeTrans.SensorVoltage` | Core/Inc/brake_trans.h:47 | the rebuilt voltage is never negative; code 0 gives 0 V; the full-scale code gives VREF*DIVIDER (6.6 V); no code up to 4095 goes above it |
| `BrakeTrans.LinearPsi` | Core/Inc/brake_trans.h:48 | the fit is the straight line through the sensor's declared points (VMIN, PSI_MIN) and (VMAX, PSI_MAX) |
| `BrakeTrans.Clamp` | Core/Inc/brake_trans.h:49-50 | the result is always in [PSI_MIN, PSI_MAX]; below the band gives PSI_MIN; above it gives PSI_MAX; inside it the value is returned unchanged |
| `BrakeTrans.AdcToPsi` | Core/Inc/brake_trans.h:45-52 | the conversion is total (no precondition) and every input, 4095 and above included, reads within [0, 500] PSI |
| `BrakeTrans.ConvertReading` | Core/Inc/brake_trans.h:45-52 | the firmware's step-by-step reassignment of `psi` computes exactly `AdcToPsi` and stays in the band |
| `BrakeTrans.CalibrationConsistent` | Core/Inc/brake_trans.h:34-43 | the fit sends VMIN = 0.5 V to PSI_MIN = 0 and VMAX = 4.5 V to PSI_MAX = 500 |
| `BrakeTrans.LinearPsiStrictlyMonotone` | Core/Inc/brake_trans.h:38-39 | the fit has a positive slope, so it is strictly increasing in the voltage |
| `BrakeTrans.ClampIdempotent` | Core/Inc/brake_trans.h:49-50 | clamping twice gives the same result as clamping once |
| `BrakeTrans.ClampMonotone` | Core/Inc/brake_trans.h:49-50 | clamping preserves order |
| `BrakeTrans.AdcToPsiAtZero` | Core/Inc/brake_trans.h:47-49 | code 0 gives the linear value -62.5, which is clamped to 0 PSI |
| `BrakeTrans.AdcToPsiAtFullScale` | Core/Inc/brake_trans.h:47-50 | code 4095 gives 6.6 V and the linear value 762.5, which is clamped to 500 PSI |
| `BrakeTrans.AdcToPsiAtUint32Max` | Core/Inc/brake_trans.h:45-52 | the largest `uint32_t` input, 0xFFFFFFFF, reads 500 PSI |
| `BrakeTrans.AdcToPsiMonotone` | Core/Inc/brake_trans.h:47-50 | a <= b implies AdcToPsi(a) <= AdcToPsi(b), for all codes |
| `BrakeTrans.AdcToPsiInBand` | Core/Inc/brake_trans.h:48-51 | when the linear value is inside [0, 500], it is returned exactly |
| `BrakeTrans.AdcToPsiSaturatesLow` | Core/Inc/brake_trans.h:47-49 | a code reads 0 PSI if and only if it is at most 310 |
| `BrakeTrans.AdcToPsiSaturatesHigh` | Core/Inc/brake_trans.h:47-50 | a code reads 500 PSI if and only if it is at least 2793 |
| `BrakeTrans.CalibrationCode` | Core/Inc/brake_trans.h:31-33 | a code lies within half a count of 2.5 V at the sensor if and only if it is 1551 |
| `BrakeTrans.AdcToPsiCalibrationPoint` | Core/Inc/brake_trans.h:45-52 | every code within half a count of 2.5 V at the sensor (that is, 1551) reads 250 PSI to within 1 PSI |
| `BrakeTrans.AdcToPsiStep` | Core/Inc/brake_trans.h:47-50 | moving up one code never lowers the reading and raises it by at most one count's worth, 825/4095 PSI |
| `BrakeTrans.Resolution` | Core/Inc/brake_trans.h:31-52 | every pressure in [0, 500] is reached from below, to within one count's worth, by some code no greater than 4095 |

## Left out

- IEEE-754 single-precision rounding is not modelled. This covers the exact binary value of `3.3f`, the precision lost converting a large `uint32_t` to `float`, and rounding that depends on evaluation order. All arithmetic uses exact reals, so the model gives the ideal values and not the bit patterns.
- The input is a `nat` rather than a 32-bit unsigned integer. Every `uint32_t` value is included, and so are larger values the C code cannot receive. No wrap-around arises, because the code converts the input to `float` before multiplying.
- The `BrakeTrans` record (Core/Inc/brake_trans.h:22-28) is not modelled. It holds the raw sample, the reading, a CAN identifier and an 8-byte payload, and it is only a transport record with no logic.
- ADC sampling and CAN transmission are not modelled. Both are hardware I/O done by drivers that are not part of this model.
- The include guards and `#include <stdint.h>` (Core/Inc/brake_trans.h:15-18, 55) are not modelled. They are preprocessor plumbing.
