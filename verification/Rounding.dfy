// Step and tick rounding over exact numbers, with the facts sizing and exit placement rely on.
module Rounding {

  // The integer part, toward zero.
  function Truncate(x: real): int { if x >= 0.0 then x.Floor else -((-x).Floor) }

  // The nearest integer, halves going to the even one.
  function RoundHalfEven(x: real): int {
    var low := x.Floor;
    var rest := x - low as real;
    if rest < 0.5 then low else if rest > 0.5 then low + 1 else if low % 2 == 0 then low else low + 1
  }

  function DownToStep(value: real, step: real): real {
    if step <= 0.0 then value else Steps(Truncate(value / step), step)
  }

  function NearestStep(value: real, step: real): real {
    if step <= 0.0 then value else Steps(RoundHalfEven(value / step), step)
  }

  function Steps(k: int, step: real): real { k as real * step }

  ghost predicate WholeSteps(value: real, step: real) { exists k: int :: value == Steps(k, step) }

  lemma QuotientTimesStep(value: real, step: real)
    requires step > 0.0
    ensures value / step * step == value
  {
  }

  lemma ScaleMonotone(a: real, b: real, step: real)
    requires step > 0.0
    ensures a <= b <==> a * step <= b * step
    ensures a < b <==> a * step < b * step
  {
  }

  lemma QuotientOfProduct(x: real, y: real)
    requires y > 0.0
    ensures x * y / y == x
  {
  }

  lemma ScaleGrows(x: real, f: real, g: real)
    requires x >= 0.0 && f <= g
    ensures x * f <= x * g && f * x <= g * x
  {
  }

  // Rounding down a non-negative value gives the largest whole number of steps not above it.
  lemma DownToStepIsMaximal(value: real, step: real)
    requires step > 0.0 && value >= 0.0
    ensures var r := DownToStep(value, step); WholeSteps(r, step) && 0.0 <= r <= value < r + step
  {
    var q := value / step;
    QuotientTimesStep(value, step);
    ScaleMonotone(0.0, q, step);
    var k := q.Floor;
    assert DownToStep(value, step) == Steps(k, step) by { assert Truncate(q) == k; }
    ScaleMonotone(k as real, q, step);
    ScaleMonotone(q, k as real + 1.0, step);
    ScaleMonotone(0.0, k as real, step);
    Distribute(k as real, 1.0, step);
    calc {
      value;
      q * step;
    < (k as real + 1.0) * step;
      Steps(k, step) + step;
    }
  }

  lemma Distribute(a: real, b: real, step: real)
    ensures (a + b) * step == a * step + b * step
  {
  }

  lemma NearestInteger(x: real)
    ensures var k := RoundHalfEven(x) as real; x - 0.5 <= k <= x + 0.5
  {
  }

  // Rounding down is toward zero on either side of it.
  lemma DownToStepIsOdd(value: real, step: real)
    ensures DownToStep(-value, step) == -DownToStep(value, step)
  {
    if step > 0.0 {
      var q := value / step;
      assert (-value) / step == -q by {
        QuotientTimesStep(value, step);
        QuotientOfProduct(-q, step);
        assert -value == -q * step;
      }
      assert Truncate(-q) == -Truncate(q);
      Opposite(Truncate(q), step);
    }
  }

  lemma Opposite(k: int, step: real)
    ensures Steps(-k, step) == -Steps(k, step)
  {
    assert (-k) as real == -(k as real);
  }

  // A value halfway between two integers goes to the even one.
  lemma HalfGoesEven(k: int)
    ensures RoundHalfEven(k as real + 0.5) % 2 == 0
  {
    assert (k as real + 0.5).Floor == k;
  }

  // Rounding to the nearest step moves a value by at most half a step.
  lemma NearestStepIsClose(value: real, step: real)
    requires step > 0.0
    ensures var r := NearestStep(value, step);
            WholeSteps(r, step) && value - step / 2.0 <= r <= value + step / 2.0
  {
    QuotientTimesStep(value, step);
    NearestInteger(value / step);
    ScaledClose(value, value / step, RoundHalfEven(value / step), step);
  }

  lemma ScaledClose(value: real, q: real, k: int, step: real)
    requires step > 0.0 && q * step == value && q - 0.5 <= k as real <= q + 0.5
    ensures value - step / 2.0 <= Steps(k, step) <= value + step / 2.0
  {
    var x := k as real;
    ScaleMonotone(q - 0.5, x, step);
    ScaleMonotone(x, q + 0.5, step);
    assert (q - 0.5) * step == value - step / 2.0 by { Distribute(q, -0.5, step); }
    assert (q + 0.5) * step == value + step / 2.0 by { Distribute(q, 0.5, step); }
  }

  // A whole number of steps is left alone.
  lemma NearestStepFixesWholeSteps(value: real, step: real)
    requires step > 0.0 && WholeSteps(value, step)
    ensures NearestStep(value, step) == value
  {
    var k: int :| value == Steps(k, step);
    QuotientTimesStep(value, step);
    assert value / step == k as real by {
      ScaleMonotone(value / step, k as real, step);
      ScaleMonotone(k as real, value / step, step);
    }
  }
}
