/** The few Python numeric conventions the spirograph scripts rely on, stated over
    Dafny's unbounded `int` and exact `real`. */
module PyNum {

  /** Python's `None` or a value. */
  datatype Option<+T> = None | Some(value: T)

  function Abs(x: real): (r: real)
    ensures 0.0 <= r && (r == x || r == -x)
  {
    if x < 0.0 then -x else x
  }

  /** Python's `int()` applied to a float: truncation toward zero, not `.Floor`. */
  function Trunc(x: real): (n: int)
    ensures 0.0 <= x ==> n as real <= x < n as real + 1.0
    ensures x < 0.0 ==> n as real - 1.0 < x <= n as real
  {
    if x >= 0.0 then x.Floor else -((-x).Floor)
  }

  /** Python's `a % m` on floats for a positive modulus `m`: the result has the
      sign of `m`, so it lies in [0, m). */
  function FloorMod(a: real, m: real): (r: real)
    requires 0.0 < m
    ensures 0.0 <= r < m
  {
    FloorDivBand(a, m);
    a - FloorDiv(a, m) as real * m
  }

  /** Python's `a // m` on floats for a positive modulus. */
  function FloorDiv(a: real, m: real): int
    requires 0.0 < m
  {
    (a / m).Floor
  }

  lemma FloorDivBand(a: real, m: real)
    requires 0.0 < m
    ensures FloorDiv(a, m) as real * m <= a < FloorDiv(a, m) as real * m + m
  {
    var q := FloorDiv(a, m);
    assert q as real <= a / m < q as real + 1.0;
    assert (a / m) * m == a;
    MulPositive(q as real + 1.0 - a / m, m);
  }

  lemma MulPositive(x: real, y: real)
    requires 0.0 < x && 0.0 < y
    ensures 0.0 < x * y
  {
  }

  lemma NonNegativeProduct(x: real, y: real)
    requires 0.0 <= x && 0.0 <= y
    ensures 0.0 <= x * y
  {
  }

  /** Truncation moves every value toward zero, by less than one. */
  lemma TruncShrinks(x: real)
    ensures Abs(Trunc(x) as real) <= Abs(x) < Abs(Trunc(x) as real) + 1.0
  {
  }

  /** `FloorMod` leaves a value already in [0, m) alone. */
  lemma FloorModOfSmall(a: real, m: real)
    requires 0.0 < m && 0.0 <= a < m
    ensures FloorMod(a, m) == a
  {
    var q := a / m;
    assert q * m == a;
    if q < 0.0 {
      MulPositive(-q, m);
    } else if q >= 1.0 {
      NonNegativeProduct(q - 1.0, m);
    }
    assert 0.0 <= q < 1.0;
  }

  /** Shifting the dividend by a whole number of moduli does not change `FloorMod`. */
  lemma FloorModShift(a: real, q: int, m: real)
    requires 0.0 < m
    ensures FloorMod(a + q as real * m, m) == FloorMod(a, m)
  {
    assert (a + q as real * m) / m == a / m + q as real;
    assert FloorDiv(a + q as real * m, m) == FloorDiv(a, m) + q;
  }

  /** `FloorMod` on a value lying in the q-th band [q*m, (q+1)*m). */
  lemma FloorModInBand(a: real, q: int, m: real)
    requires 0.0 < m && q as real * m <= a < q as real * m + m
    ensures FloorMod(a, m) == a - q as real * m
  {
    FloorModShift(a - q as real * m, q, m);
    FloorModOfSmall(a - q as real * m, m);
  }

  /** Reducing an intermediate sum first does not change the final remainder:
      `((a % m) + b) % m == (a + b) % m`. */
  lemma FloorModOfSum(a: real, b: real, m: real)
    requires 0.0 < m
    ensures FloorMod(FloorMod(a, m) + b, m) == FloorMod(a + b, m)
  {
    var q := FloorDiv(a, m);
    var reduced := FloorMod(a, m) + b;
    assert reduced + q as real * m == a + b;
    FloorModShift(reduced, q, m);
  }
}
