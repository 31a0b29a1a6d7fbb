/** Decimal arithmetic over exact reals.

    The system computes money with Python's `Decimal`.  A `Decimal` is modelled by a
    `real`, and every rounding step the code performs is written out: `quantize` is
    round-half-even on a grid, `ROUND_DOWN` is truncation toward zero and
    `ROUND_CEILING` is the ceiling.
 */
module Decimals {

  function Abs(x: real): (r: real)
    ensures 0.0 <= r && (r == x || r == -x)
  {
    if x < 0.0 then -x else x
  }

  function Min(x: real, y: real): (r: real)
    ensures r <= x && r <= y && (r == x || r == y)
  {
    if x <= y then x else y
  }

  function Max(x: real, y: real): (r: real)
    ensures x <= r && y <= r && (r == x || r == y)
  {
    if x <= y then y else x
  }

  function MinInt(x: int, y: int): (r: int)
    ensures r <= x && r <= y && (r == x || r == y)
  {
    if x <= y then x else y
  }

  /** `to_integral_value(ROUND_CEILING)`: the least integer not below `x`. */
  function Ceiling(x: real): (n: int)
    ensures x <= n as real < x + 1.0
  {
    -((-x).Floor)
  }

  /** `to_integral_value(ROUND_DOWN)`: the fraction is dropped, toward zero. */
  function Truncate(x: real): (n: int)
    ensures 0.0 <= x ==> n as real <= x < n as real + 1.0
    ensures x <= 0.0 ==> n as real - 1.0 < x <= n as real
  {
    if 0.0 <= x then x.Floor else -((-x).Floor)
  }

  /** The integer nearest to `x`; a tie goes to the even neighbour. */
  function RoundHalfEven(x: real): (n: int)
    ensures n as real - 0.5 <= x <= n as real + 0.5
  {
    var low := x.Floor;
    var fraction := x - low as real;
    if fraction < 0.5 || (fraction == 0.5 && low % 2 == 0) then low else low + 1
  }

  /** The `k`-th point of the grid with the given step. */
  function Multiple(k: int, step: real): real {
    k as real * step
  }

  /** The value lies on the grid of integer multiples of `step`. */
  ghost predicate OnGrid(value: real, step: real) {
    exists k: int :: value == Multiple(k, step)
  }

  /** `value.quantize(quantum)` under the default rounding mode. */
  function Quantize(value: real, quantum: real): real
    requires 0.0 < quantum
  {
    Multiple(RoundHalfEven(value / quantum), quantum)
  }

  /** Rounds `value` down, toward zero, to a multiple of `step`. */
  function FloorToStep(value: real, step: real): real
    requires 0.0 < step
  {
    Multiple(Truncate(value / step), step)
  }

  // ---------- Products ----------
  // Facts about products are stated on `Mul`, so that the solver keeps each product whole.

  function Mul(x: real, y: real): real {
    x * y
  }

  lemma MulLe(x: real, y: real, z: real)
    requires x <= y && 0.0 <= z
    ensures Mul(x, z) <= Mul(y, z)
  {
  }

  lemma MulLt(x: real, y: real, z: real)
    requires x < y && 0.0 < z
    ensures Mul(x, z) < Mul(y, z)
  {
  }

  lemma MulNonNeg(x: real, y: real)
    requires 0.0 <= x && 0.0 <= y
    ensures 0.0 <= Mul(x, y)
  {
  }

  lemma MulAdd(x: real, y: real, z: real)
    ensures Mul(x + y, z) == Mul(x, z) + Mul(y, z)
    ensures Mul(x - y, z) == Mul(x, z) - Mul(y, z)
  {
  }

  lemma MulDiv(x: real, z: real)
    requires z != 0.0
    ensures Mul(x / z, z) == x
  {
  }

  lemma ProductLe(q: real, x: real, y: real, z: real)
    requires 0.0 < z && Mul(q, z) == x
    ensures q <= y <==> x <= Mul(y, z)
  {
    if q <= y {
      MulLe(q, y, z);
    } else {
      MulLt(y, q, z);
    }
  }

  /** `x / z <= y` and `x <= y * z` say the same for positive `z`. */
  lemma DivLe(x: real, y: real, z: real)
    requires 0.0 < z
    ensures x / z <= y <==> x <= Mul(y, z)
  {
    MulDiv(x, z);
    ProductLe(x / z, x, y, z);
  }

  lemma DivEq(x: real, y: real, z: real)
    requires 0.0 < z && x == Mul(y, z)
    ensures x / z == y
  {
    ProductLe(y, x, x / z, z);
    DivLe(x, y, z);
    MulDiv(x, z);
  }

  // ---------- Rounding ----------

  /** A number rounds to an integer exactly when it is nearer to it than to any other, or half way and it is even. */
  lemma RoundsTo(x: real, n: int)
    ensures RoundHalfEven(x) == n
       <==> if n % 2 == 0 then n as real - 0.5 <= x <= n as real + 0.5 else n as real - 0.5 < x < n as real + 0.5
  {
    var low := x.Floor;
    assert low as real <= x < low as real + 1.0;
    assert low % 2 == 0 <==> (low + 1) % 2 != 0;
    if n < low {
      assert n as real + 1.0 <= low as real;
    } else if low + 1 < n {
      assert low as real + 2.0 <= n as real;
    }
  }

  lemma NearestMultiple(y: real, value: real, quantum: real)
    requires 0.0 < quantum && Mul(y, quantum) == value
    ensures value - quantum / 2.0 <= Multiple(RoundHalfEven(y), quantum) <= value + quantum / 2.0
  {
    var n := RoundHalfEven(y) as real;
    MulLe(n - 0.5, y, quantum);
    MulLe(y, n + 0.5, quantum);
    MulAdd(n, 0.5, quantum);
    assert Mul(0.5, quantum) == quantum / 2.0;
  }

  /** Quantizing moves a value by at most half a quantum and lands on the grid. */
  lemma QuantizeError(value: real, quantum: real)
    requires 0.0 < quantum
    ensures value - quantum / 2.0 <= Quantize(value, quantum) <= value + quantum / 2.0
    ensures OnGrid(Quantize(value, quantum), quantum)
  {
    MulDiv(value, quantum);
    NearestMultiple(value / quantum, value, quantum);
  }

  /** Values already on the grid are kept. */
  lemma QuantizeExact(k: int, quantum: real)
    requires 0.0 < quantum
    ensures Quantize(Multiple(k, quantum), quantum) == Multiple(k, quantum)
  {
    DivEq(Multiple(k, quantum), k as real, quantum);
  }

  lemma MultipleMono(j: int, k: int, step: real)
    requires j <= k && 0.0 <= step
    ensures Multiple(j, step) <= Multiple(k, step)
  {
    MulLe(j as real, k as real, step);
  }

  lemma MultipleAdd(j: int, k: int, step: real)
    ensures Multiple(j + k, step) == Multiple(j, step) + Multiple(k, step)
    ensures Multiple(j - k, step) == Multiple(j, step) - Multiple(k, step)
  {
    MulAdd(j as real, k as real, step);
  }

  /** Sums and differences of grid values are on the grid already. */
  lemma GridSum(x: real, y: real, quantum: real)
    requires OnGrid(x, quantum) && OnGrid(y, quantum)
    ensures OnGrid(x + y, quantum) && OnGrid(x - y, quantum)
  {
    var j, k :| x == Multiple(j, quantum) && y == Multiple(k, quantum);
    MultipleAdd(j, k, quantum);
  }

  lemma QuantizeMonotone(x: real, y: real, quantum: real)
    requires 0.0 < quantum && x <= y
    ensures Quantize(x, quantum) <= Quantize(y, quantum)
  {
    MulDiv(y, quantum);
    DivLe(x, y / quantum, quantum);
    MultipleMono(RoundHalfEven(x / quantum), RoundHalfEven(y / quantum), quantum);
  }

  lemma MultipleBelow(y: real, value: real, step: real)
    requires 0.0 < step && 0.0 <= value && Mul(y, step) == value
    ensures 0.0 <= y
    ensures 0.0 <= Multiple(Truncate(y), step) <= value < Multiple(Truncate(y), step) + step
    ensures forall k: int :: Multiple(k, step) <= value ==> Multiple(k, step) <= Multiple(Truncate(y), step)
  {
    if y < 0.0 {
      MulLt(y, 0.0, step);
    }
    var n := Truncate(y);
    MulLe(0.0, n as real, step);
    MulLe(n as real, y, step);
    MulAdd(n as real, 1.0, step);
    MulLt(y, n as real + 1.0, step);
    forall k: int | Multiple(k, step) <= value
      ensures Multiple(k, step) <= Multiple(n, step)
    {
      MultipleOrder(k, n, step);
    }
  }

  lemma MultipleOrder(k: int, n: int, step: real)
    requires 0.0 < step && Multiple(k, step) < Multiple(n, step) + step
    ensures Multiple(k, step) <= Multiple(n, step)
  {
    if n < k {
      MultipleMono(n + 1, k, step);
      MultipleAdd(n, 1, step);
      assert false;
    }
    MultipleMono(k, n, step);
  }

  /** `FloorToStep` gives the greatest multiple of the step below a value that is not negative. */
  lemma FloorToStepLargest(value: real, step: real)
    requires 0.0 < step && 0.0 <= value
    ensures 0.0 <= FloorToStep(value, step) <= value < FloorToStep(value, step) + step
    ensures OnGrid(FloorToStep(value, step), step)
    ensures forall k: int :: Multiple(k, step) <= value ==> Multiple(k, step) <= FloorToStep(value, step)
  {
    MulDiv(value, step);
    MultipleBelow(value / step, value, step);
  }

  /** A multiple of the step that is not negative is its own floor. */
  lemma FloorToStepExact(k: int, step: real)
    requires 0.0 < step && 0 <= k
    ensures FloorToStep(Multiple(k, step), step) == Multiple(k, step)
  {
    DivEq(Multiple(k, step), k as real, step);
  }
}
