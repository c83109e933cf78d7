/**
 * Brake-line pressure transducer conversion.
 *
 * A 12-bit ADC code is turned into a brake pressure in PSI in three steps:
 * rebuild the sensor voltage behind the resistive divider, apply the
 * transducer's linear calibration fit, and clamp to the physical band.
 * Arithmetic is over `real`: an exact idealisation of the single-precision
 * float computation the firmware performs.
 */
module BrakeTrans {

  // ---- Hardware constants ----

  /** Full-scale code of the 12-bit ADC. */
  const ADC_MAX: nat := 4095
  /** ADC reference voltage, in volts. */
  const VREF: real := 3.3
  /** Ratio of the resistive divider between sensor and ADC input. */
  const DIVIDER: real := 2.0
  /** Sensor output at full-scale pressure, in volts. */
  const VMAX: real := 4.5
  /** Sensor output at zero pressure, in volts. */
  const VMIN: real := 0.5

  // ---- Calibration constants ----

  const SLOPE: real := 125.0
  const OFFSET: real := 62.5

  // ---- Physical limits ----

  const PSI_MAX: real := 500.0
  const PSI_MIN: real := 0.0

  /** Highest code whose reading is still clamped to PSI_MIN. */
  const LOW_SATURATION_CODE: nat := 310
  /** Lowest code whose reading is clamped to PSI_MAX. */
  const HIGH_SATURATION_CODE: nat := 2793

  /** Pressure change, in PSI, between two neighbouring ADC codes inside the band. */
  const PSI_PER_COUNT: real := SLOPE * VREF * DIVIDER / ADC_MAX as real

  /** The voltage at the sensor, rebuilt from an ADC code. */
  function SensorVoltage(counts: nat): (v: real)
    ensures 0.0 <= v
    ensures counts == 0 ==> v == 0.0
    ensures counts == ADC_MAX ==> v == VREF * DIVIDER
    ensures counts <= ADC_MAX ==> v <= VREF * DIVIDER
  {
    (counts as real * VREF * DIVIDER) / ADC_MAX as real
  }

  /**
   * The calibration fit: the straight line through the transducer's two
   * declared points (VMIN volts at PSI_MIN, VMAX volts at PSI_MAX).
   */
  function LinearPsi(v: real): (p: real)
    ensures (p - PSI_MIN) * (VMAX - VMIN) == (v - VMIN) * (PSI_MAX - PSI_MIN)
  {
    SLOPE * v - OFFSET
  }

  /** The two saturating reassignments, lower bound first. */
  function Clamp(x: real): (r: real)
    ensures PSI_MIN <= r <= PSI_MAX
    ensures x < PSI_MIN ==> r == PSI_MIN
    ensures x > PSI_MAX ==> r == PSI_MAX
    ensures PSI_MIN <= x <= PSI_MAX ==> r == x
  {
    var low := if x < PSI_MIN then PSI_MIN else x;
    if low > PSI_MAX then PSI_MAX else low
  }

  /** ADC code to brake pressure; total, with no error path. */
  function AdcToPsi(counts: nat): (psi: real)
    ensures PSI_MIN <= psi <= PSI_MAX
  {
    Clamp(LinearPsi(SensorVoltage(counts)))
  }

  /**
   * The conversion as the firmware writes it: two locals, then `psi`
   * reassigned by each limit check in turn.
   */
  method ConvertReading(counts: nat) returns (psi: real)
    ensures psi == AdcToPsi(counts)
    ensures PSI_MIN <= psi <= PSI_MAX
  {
    var vSensor := (counts as real * VREF * DIVIDER) / ADC_MAX as real;
    psi := SLOPE * vSensor - OFFSET;
    if psi < PSI_MIN {
      psi := PSI_MIN;
    }
    if psi > PSI_MAX {
      psi := PSI_MAX;
    }
  }

  // ---- Properties of the calibration ----

  /** The fit sends the sensor's declared span onto the physical band. */
  lemma CalibrationConsistent()
    ensures LinearPsi(VMIN) == PSI_MIN
    ensures LinearPsi(VMAX) == PSI_MAX
  {
  }

  /** The fit is strictly increasing in the voltage. */
  lemma LinearPsiStrictlyMonotone(v: real, w: real)
    requires v < w
    ensures LinearPsi(v) < LinearPsi(w)
  {
  }

  // ---- Properties of the clamp ----

  lemma ClampIdempotent(x: real)
    ensures Clamp(Clamp(x)) == Clamp(x)
  {
  }

  lemma ClampMonotone(x: real, y: real)
    requires x <= y
    ensures Clamp(x) <= Clamp(y)
  {
  }

  // ---- Properties of the conversion ----

  /** Code 0 is 0 V, a linear value of -OFFSET, clamped up to PSI_MIN. */
  lemma AdcToPsiAtZero()
    ensures LinearPsi(SensorVoltage(0)) == -OFFSET
    ensures AdcToPsi(0) == PSI_MIN
  {
  }

  /** The full-scale code is 6.6 V, a linear value of 762.5, clamped down to PSI_MAX. */
  lemma AdcToPsiAtFullScale()
    ensures SensorVoltage(ADC_MAX) == 6.6
    ensures LinearPsi(SensorVoltage(ADC_MAX)) == 762.5
    ensures AdcToPsi(ADC_MAX) == PSI_MAX
  {
  }

  /** The largest 32-bit code is far outside the ADC's range and still reads PSI_MAX. */
  lemma AdcToPsiAtUint32Max()
    ensures AdcToPsi(0xFFFF_FFFF) == PSI_MAX
  {
    AdcToPsiSaturatesHigh(0xFFFF_FFFF);
  }

  lemma AdcToPsiMonotone(a: nat, b: nat)
    requires a <= b
    ensures AdcToPsi(a) <= AdcToPsi(b)
  {
    assert SensorVoltage(a) <= SensorVoltage(b);
    if SensorVoltage(a) < SensorVoltage(b) {
      LinearPsiStrictlyMonotone(SensorVoltage(a), SensorVoltage(b));
    }
    ClampMonotone(LinearPsi(SensorVoltage(a)), LinearPsi(SensorVoltage(b)));
  }

  /** Inside the band the clamps do nothing: the reading is the fit's value. */
  lemma AdcToPsiInBand(counts: nat)
    requires PSI_MIN <= LinearPsi(SensorVoltage(counts)) <= PSI_MAX
    ensures AdcToPsi(counts) == SLOPE * SensorVoltage(counts) - OFFSET
  {
  }

  /** A code reads PSI_MIN exactly when it is at most 310. */
  lemma AdcToPsiSaturatesLow(counts: nat)
    ensures AdcToPsi(counts) == PSI_MIN <==> counts <= LOW_SATURATION_CODE
  {
    if counts <= LOW_SATURATION_CODE {
      assert LinearPsi(SensorVoltage(counts)) < PSI_MIN;
    } else {
      assert counts as real >= 311.0;
      assert LinearPsi(SensorVoltage(counts)) > PSI_MIN;
    }
  }

  /** A code reads PSI_MAX exactly when it is at least 2793. */
  lemma AdcToPsiSaturatesHigh(counts: nat)
    ensures AdcToPsi(counts) == PSI_MAX <==> counts >= HIGH_SATURATION_CODE
  {
    if counts >= HIGH_SATURATION_CODE {
      assert LinearPsi(SensorVoltage(counts)) > PSI_MAX;
    } else {
      assert counts as real <= 2792.0;
      assert LinearPsi(SensorVoltage(counts)) < PSI_MAX;
    }
  }

  /** Half of one count's worth of voltage: the rounding error of the nearest code. */
  const HALF_COUNT_VOLTS: real := VREF * DIVIDER / (2.0 * ADC_MAX as real)

  /** Code `counts` lies within half a count of the sensor voltage `v`. */
  predicate NearestCode(counts: nat, v: real) {
    -HALF_COUNT_VOLTS <= SensorVoltage(counts) - v <= HALF_COUNT_VOLTS
  }

  /** 1551 is the one code that rounds to 2.5 V at the sensor. */
  lemma CalibrationCode(counts: nat)
    ensures NearestCode(counts, 2.5) <==> counts == 1551
  {
    if counts <= 1550 {
      assert counts as real <= 1550.0;
    } else if counts >= 1552 {
      assert counts as real >= 1552.0;
    }
  }

  /** The code nearest to 2.5 V at the sensor reads 125 * 2.5 - 62.5 = 250 PSI to within 1 PSI. */
  lemma AdcToPsiCalibrationPoint(counts: nat)
    requires NearestCode(counts, 2.5)
    ensures 249.0 <= AdcToPsi(counts) <= 251.0
  {
    CalibrationCode(counts);
    AdcToPsiInBand(counts);
  }

  /** Neighbouring codes never differ by more than one count's worth of pressure. */
  lemma AdcToPsiStep(counts: nat)
    ensures 0.0 <= AdcToPsi(counts + 1) - AdcToPsi(counts) <= PSI_PER_COUNT
  {
    AdcToPsiMonotone(counts, counts + 1);
    assert LinearPsi(SensorVoltage(counts + 1)) == LinearPsi(SensorVoltage(counts)) + PSI_PER_COUNT;
  }

  /**
   * The band has no gaps: every pressure in it is reported, from below and to
   * within one count's worth, by some code the 12-bit ADC can produce.
   */
  lemma Resolution(p: real)
    requires PSI_MIN <= p <= PSI_MAX
    ensures exists counts: nat :: counts <= ADC_MAX && AdcToPsi(counts) <= p <= AdcToPsi(counts) + PSI_PER_COUNT
  {
    var x := (p + OFFSET) / PSI_PER_COUNT;
    assert 0.0 <= x <= ADC_MAX as real;
    var c: nat := x.Floor;
    assert c as real <= x < c as real + 1.0;
    var y := LinearPsi(SensorVoltage(c));
    assert y == c as real * PSI_PER_COUNT - OFFSET;
    assert y <= p < y + PSI_PER_COUNT;
    ClampMonotone(y, p);
    assert AdcToPsi(c) <= p;
    assert y <= AdcToPsi(c);
    assert c <= ADC_MAX && AdcToPsi(c) <= p <= AdcToPsi(c) + PSI_PER_COUNT;
  }
}
