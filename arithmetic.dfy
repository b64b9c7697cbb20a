/**
 * Integer division and remainder on a positive divisor, written as repeated
 * subtraction so that proofs using them stay in linear arithmetic, and proved
 * equal to Dafny's (Euclidean) `/` and `%`.
 */
module Arithmetic {
  /** `a % n` for a natural `a`: PHP's `%` and Dafny's agree on these operands. */
  function Mod(a: nat, n: nat): (r: nat)
    requires n > 0
    ensures r < n
    decreases a
  {
    if a < n then a else Mod(a - n, n)
  }

  /** `a / d` rounded down, for any integer `a`. */
  function FloorDiv(a: int, d: nat): int
    requires d > 0
    decreases if a < 0 then d - a else a
  {
    if a < 0 then FloorDiv(a + d, d) - 1
    else if a < d then 0
    else FloorDiv(a - d, d) + 1
  }

  lemma MulAtLeast(m: int, n: int)
    requires m >= 1 && n > 0
    ensures m * n >= n
  {
  }

  /** Euclidean division is unique: a quotient and remainder in range are `a / n` and `a % n`. */
  lemma DivModUnique(a: int, n: int, q: int, r: int)
    requires n > 0 && a == q * n + r && 0 <= r < n
    ensures a / n == q && a % n == r
  {
    var q', r' := a / n, a % n;
    assert (q' - q) * n == r - r';
    if q' > q {
      MulAtLeast(q' - q, n);
      assert false;
    } else if q' < q {
      MulAtLeast(q - q', n);
      assert false;
    }
  }

  /** The quotient brackets `a`: `d * q <= a < d * q + d`. */
  lemma {:induction false} FloorDivBounds(a: int, d: nat)
    requires d > 0
    ensures d * FloorDiv(a, d) <= a < d * FloorDiv(a, d) + d
    decreases if a < 0 then d - a else a
  {
    if a < 0 {
      FloorDivBounds(a + d, d);
      assert d * FloorDiv(a, d) == d * FloorDiv(a + d, d) - d;
    } else if a >= d {
      FloorDivBounds(a - d, d);
      assert d * FloorDiv(a, d) == d * FloorDiv(a - d, d) + d;
    }
  }

  lemma FloorDivIsDiv(a: int, d: nat)
    requires d > 0
    ensures FloorDiv(a, d) == a / d
  {
    FloorDivBounds(a, d);
    var q := FloorDiv(a, d);
    DivModUnique(a, d, q, a - d * q);
  }

  lemma {:induction false} ModIsRemainder(a: nat, n: nat)
    requires n > 0
    ensures Mod(a, n) == a % n
    decreases a
  {
    if a >= n {
      ModIsRemainder(a - n, n);
      var q, r := (a - n) / n, (a - n) % n;
      assert a == (q + 1) * n + r;
      DivModUnique(a, n, q + 1, r);
    } else {
      DivModUnique(a, n, 0, a);
    }
  }

  /** Adding the divisor does not change the remainder. */
  lemma ModShift(a: nat, n: nat)
    requires n > 0
    ensures Mod(a + n, n) == Mod(a, n)
  {
  }

  /** Two naturals less than `n` apart have different remainders. */
  lemma {:induction false} ModInjectiveWithin(a: nat, b: nat, n: nat)
    requires n > 0 && a < b < a + n
    ensures Mod(a, n) != Mod(b, n)
    decreases a
  {
    if a >= n {
      ModInjectiveWithin(a - n, b - n, n);
    } else if b >= n {
      assert Mod(b, n) == Mod(b - n, n) == b - n;
    }
  }
}
