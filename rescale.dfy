/** The generic clamped linear rescaling utility `Rescale` of main.py,
    over exact reals. */
module Rescaling {

  function Abs(x: real): (r: real)
    ensures r >= 0.0 && (r == x || r == -x)
  {
    if x < 0.0 then -x else x
  }

  /** `value / abs(value)`: the sign of a non-zero input as a factor. */
  function Sign(value: real): (s: real)
    requires value != 0.0
    ensures value > 0.0 ==> s == 1.0
    ensures value < 0.0 ==> s == -1.0
  {
    SignIsUnit(value);
    value / Abs(value)
  }

  lemma SignIsUnit(value: real)
    requires value != 0.0
    ensures value > 0.0 ==> value / Abs(value) == 1.0
    ensures value < 0.0 ==> value / Abs(value) == -1.0
  {
  }

  /** The clamped magnitude computed from the absolute input: clamp it into
      [inMin, inMax], scale by outMax / (inMax - inMin) (outMin takes no
      part in the slope), then clamp from above by outMax and from below
      by outMin, in that order. */
  function Magnitude(a: real, inMin: real, inMax: real, outMin: real, outMax: real): real
    requires inMin != inMax
  {
    ClampOutput(Raw(a, inMin, inMax, outMax), outMin, outMax)
  }

  /** `retvalue = (value - in_min) * (out_max / (in_max - in_min))` on the
      input clamped into [inMin, inMax]. */
  function Raw(a: real, inMin: real, inMax: real, outMax: real): real
    requires inMin != inMax
  {
    (ClampInput(a, inMin, inMax) - inMin) * (outMax / (inMax - inMin))
  }

  /** `if value < in_min: value = in_min` then `if value > in_max: value = in_max`. */
  function ClampInput(a: real, inMin: real, inMax: real): real
  {
    var low := if a < inMin then inMin else a;
    if low > inMax then inMax else low
  }

  /** `if retvalue > out_max: ...` then `if retvalue < out_min: ...`. */
  function ClampOutput(raw: real, outMin: real, outMax: real): real
  {
    var capped := if raw > outMax then outMax else raw;
    if capped < outMin then outMin else capped
  }

  /** Rescale(value, in_min, in_max, out_min, out_max). Python raises
      ZeroDivisionError for value == 0 and for in_min == in_max; those inputs
      are excluded. */
  function Rescale(value: real, inMin: real, inMax: real, outMin: real, outMax: real): (r: real)
    requires value != 0.0
    requires inMin != inMax
    // the last clamp is from below, so the magnitude never falls under outMin
    ensures value > 0.0 ==> r >= outMin
    ensures value < 0.0 ==> r <= -outMin
    // with a well-formed output range it never exceeds outMax either
    ensures outMin <= outMax && value > 0.0 ==> r <= outMax
    ensures outMin <= outMax && value < 0.0 ==> r >= -outMax
    // a positive lower bound makes the result carry the sign of the input
    ensures 0.0 < outMin ==> (r > 0.0 <==> value > 0.0) && (r < 0.0 <==> value < 0.0)
    ensures 0.0 <= outMin ==> outMin <= Abs(r)
  {
    Magnitude(Abs(value), inMin, inMax, outMin, outMax) * Sign(value)
  }

  /** Only |value| enters the computation: the function is odd. */
  lemma RescaleOdd(value: real, inMin: real, inMax: real, outMin: real, outMax: real)
    requires value != 0.0
    requires inMin != inMax
    ensures Rescale(-value, inMin, inMax, outMin, outMax) == -Rescale(value, inMin, inMax, outMin, outMax)
  {
  }

  /** At or above inMax the magnitude saturates at outMax. */
  lemma RescaleSaturatesHigh(value: real, inMin: real, inMax: real, outMin: real, outMax: real)
    requires value != 0.0
    requires inMin < inMax && outMin <= outMax
    requires Abs(value) >= inMax
    ensures Rescale(value, inMin, inMax, outMin, outMax) == Sign(value) * outMax
  {
  }

  /** At or below inMin the raw result is 0, which the lower clamp lifts to
      a non-negative outMin. */
  lemma RescaleSaturatesLow(value: real, inMin: real, inMax: real, outMin: real, outMax: real)
    requires value != 0.0
    requires inMin < inMax && 0.0 <= outMin
    requires Abs(value) <= inMin
    ensures Rescale(value, inMin, inMax, outMin, outMax) == Sign(value) * outMin
  {
  }

  /** Between inMin and inMax the magnitude is the linear interpolation
      (with slope outMax / (inMax - inMin)), clamped into [outMin, outMax]. */
  lemma RescaleLinear(value: real, inMin: real, inMax: real, outMin: real, outMax: real)
    requires value != 0.0
    requires inMin < inMax && outMin <= outMax
    requires inMin <= Abs(value) <= inMax
    ensures var line := (Abs(value) - inMin) * outMax / (inMax - inMin);
            var m := if line < outMin then outMin else if line > outMax then outMax else line;
            Rescale(value, inMin, inMax, outMin, outMax) == Sign(value) * m
  {
    MagnitudeLinear(Abs(value), inMin, inMax, outMin, outMax);
  }

  lemma MagnitudeLinear(a: real, inMin: real, inMax: real, outMin: real, outMax: real)
    requires inMin < inMax && outMin <= outMax
    requires inMin <= a <= inMax
    ensures var line := (a - inMin) * outMax / (inMax - inMin);
            var m := if line < outMin then outMin else if line > outMax then outMax else line;
            Magnitude(a, inMin, inMax, outMin, outMax) == m
  {
    var line := (a - inMin) * outMax / (inMax - inMin);
    DivMulAssoc(a - inMin, outMax, inMax - inMin);
    var slope := outMax / (inMax - inMin);
    assert ClampInput(a, inMin, inMax) == a;
    assert (a - inMin) * slope == line;
    assert Magnitude(a, inMin, inMax, outMin, outMax) == ClampOutput((a - inMin) * slope, outMin, outMax);
  }

  /** Every step of Magnitude is monotone in the absolute input when the
      slope is positive (outMax > 0); with a slope that is not positive the
      lower clamp by a non-negative outMin makes it constant. */
  lemma MagnitudeMonotone(a: real, b: real, inMin: real, inMax: real, outMin: real, outMax: real)
    requires inMin < inMax && (0.0 <= outMin || 0.0 < outMax)
    requires a <= b
    ensures Magnitude(a, inMin, inMax, outMin, outMax) <= Magnitude(b, inMin, inMax, outMin, outMax)
  {
    var ra, rb := Raw(a, inMin, inMax, outMax), Raw(b, inMin, inMax, outMax);
    if outMax > 0.0 {
      RawMonotone(a, b, inMin, inMax, outMax);
      ClampOutputMonotone(ra, rb, outMin, outMax);
    } else {
      // the raw value is never positive, so the lower clamp decides
      RawNonPositive(a, inMin, inMax, outMax);
      RawNonPositive(b, inMin, inMax, outMax);
      ClampOutputNonPositive(ra, outMin, outMax);
      ClampOutputNonPositive(rb, outMin, outMax);
    }
  }

  lemma RawMonotone(a: real, b: real, inMin: real, inMax: real, outMax: real)
    requires inMin < inMax && a <= b && outMax > 0.0
    ensures Raw(a, inMin, inMax, outMax) <= Raw(b, inMin, inMax, outMax)
  {
    var da, db := ClampInput(a, inMin, inMax) - inMin, ClampInput(b, inMin, inMax) - inMin;
    SlopeSign(outMax, inMax - inMin);
    ScaleMonotone(da, db, outMax / (inMax - inMin));
  }

  /** The magnitude is never negative: either the last clamp lifts it to a
      non-negative outMin, or the slope is positive and the raw value lies
      in [0, outMax]. */
  lemma MagnitudeNonNegative(a: real, inMin: real, inMax: real, outMin: real, outMax: real)
    requires inMin < inMax && (0.0 <= outMin || 0.0 < outMax)
    ensures Magnitude(a, inMin, inMax, outMin, outMax) >= 0.0
  {
  }

  lemma RawNonPositive(a: real, inMin: real, inMax: real, outMax: real)
    requires inMin < inMax && outMax <= 0.0
    ensures Raw(a, inMin, inMax, outMax) <= 0.0
  {
  }

  lemma SlopeSign(x: real, d: real)
    requires d > 0.0
    ensures x > 0.0 ==> x / d > 0.0
    ensures x <= 0.0 ==> x / d <= 0.0
  {
  }

  lemma ClampOutputMonotone(x: real, y: real, outMin: real, outMax: real)
    requires x <= y
    ensures ClampOutput(x, outMin, outMax) <= ClampOutput(y, outMin, outMax)
  {
  }

  lemma ClampOutputNonPositive(x: real, outMin: real, outMax: real)
    requires x <= 0.0 && outMax <= 0.0 && 0.0 <= outMin
    ensures ClampOutput(x, outMin, outMax) == outMin
  {
  }

  lemma DivMulAssoc(a: real, x: real, d: real)
    requires d != 0.0
    ensures a * (x / d) == a * x / d
  {
  }

  lemma ScaleMonotone(x: real, y: real, c: real)
    requires x <= y && c > 0.0
    ensures x * c <= y * c
  {
  }

  /** Rescale is monotone on all non-zero inputs, across 0 too, whenever
      outMin >= 0 or outMax > 0: larger values never give a smaller result. */
  lemma RescaleMonotone(v: real, w: real, inMin: real, inMax: real, outMin: real, outMax: real)
    requires v != 0.0 && w != 0.0 && v <= w
    requires inMin < inMax && (0.0 <= outMin || 0.0 < outMax)
    ensures Rescale(v, inMin, inMax, outMin, outMax) <= Rescale(w, inMin, inMax, outMin, outMax)
  {
    if 0.0 < v {
      MagnitudeMonotone(Abs(v), Abs(w), inMin, inMax, outMin, outMax);
    } else if w < 0.0 {
      MagnitudeMonotone(Abs(w), Abs(v), inMin, inMax, outMin, outMax);
    } else {
      // v < 0 < w: one result is at most 0, the other at least 0
      MagnitudeNonNegative(Abs(v), inMin, inMax, outMin, outMax);
      MagnitudeNonNegative(Abs(w), inMin, inMax, outMin, outMax);
    }
  }
}
