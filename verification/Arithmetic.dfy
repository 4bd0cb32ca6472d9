/** Powers of two, division with remainder, and the remainder a wrapping counter holds. */
module Arithmetic {

  function Pow2(n: nat): (p: nat)
    ensures p > 0
  {
    if n == 0 then 1 else 2 * Pow2(n - 1)
  }

  lemma Twice(p: nat, q: nat)
    ensures (2 * p) * q == 2 * (p * q)
  {
  }

  lemma {:induction false} Pow2Plus(a: nat, b: nat)
    ensures Pow2(a + b) == Pow2(a) * Pow2(b)
  {
    if a == 0 {
      assert Pow2(0) * Pow2(b) == Pow2(b);
    } else {
      Pow2Plus(a - 1, b);
      Twice(Pow2(a - 1), Pow2(b));
    }
  }

  lemma {:induction false} Pow2Order(a: nat, b: nat)
    ensures Pow2(a) <= Pow2(b) <==> a <= b
    decreases a + b
  {
    if a != 0 && b != 0 {
      Pow2Order(a - 1, b - 1);
    }
  }

  lemma AtLeast(b: nat, x: int)
    requires x >= 1
    ensures b * x >= b
  {
  }

  /** Quotient and remainder are determined by the division equation. */
  lemma DivModUnique(x: nat, m: nat, q: int, r: nat)
    requires r < m && x == m * q + r
    ensures x / m == q && x % m == r
  {
    var q', r' := x / m, x % m;
    assert x == m * q' + r';
    assert m * (q' - q) == m * q' - m * q && m * (q - q') == m * q - m * q';
    if q < q' {
      AtLeast(m, q' - q);
    } else if q' < q {
      AtLeast(m, q - q');
    }
  }

  /** A wrapping counter that owes nothing holds the remainder of what it counts. */
  lemma ResidueIsUnique(size: nat, owed: int, m: nat, range: nat)
    requires size < range && (size + owed - m) % range == 0 && owed == 0
    ensures size == m % range
  {
    var q := (size - m) / range;
    assert size - m == range * q;
    assert m == range * (-q) + size;
    DivModUnique(m, range, -q, size);
  }

  /** `fetch_add(d)` on an unsigned counter of `range` values. */
  function Wrapped(size: nat, d: int, range: nat): int
    requires range > 1
  {
    if d == 1 then (size + 1) % range else if d == -1 then (size + range - 1) % range else size
  }

  /** Updating the counter pays what was owed, and what it counts moves with the debt. */
  lemma CountMoves(size: nat, owed: int, m: nat, size': int, owed': int, m': nat, d: int, range: nat)
    requires range > 1 && size < range && (size + owed - m) % range == 0 && -1 <= d <= 1
    requires size' == Wrapped(size, d, range) && owed' - owed == m' - m - d
    ensures 0 <= size' < range && (size' + owed' - m') % range == 0
  {
    var q := (size + owed - m) / range;
    assert size + owed - m == range * q;
    if d == 1 && size + 1 == range {
      DivModUnique(size + 1, range, 1, 0);
      MultipleOf(size' + owed' - m', range, q - 1);
    } else if d == 1 {
      DivModUnique(size + 1, range, 0, size + 1);
      MultipleOf(size' + owed' - m', range, q);
    } else if d == -1 && size == 0 {
      DivModUnique(range - 1, range, 0, range - 1);
      MultipleOf(size' + owed' - m', range, q + 1);
    } else if d == -1 {
      DivModUnique(size + range - 1, range, 1, size - 1);
      MultipleOf(size' + owed' - m', range, q);
    } else {
      MultipleOf(size' + owed' - m', range, q);
    }
  }

  lemma SumOfMultiples(a: int, b: int, range: nat)
    requires range > 0 && a % range == 0 && b % range == 0
    ensures (a + b) % range == 0
  {
    assert a + b == range * (a / range) + range * (b / range);
    assert a + b == range * (a / range + b / range);
    MultipleOf(a + b, range, a / range + b / range);
  }

  lemma MultipleOf(x: int, range: nat, q: int)
    requires range > 0 && x == range * q
    ensures x % range == 0
  {
    var r, d := x % range, q - x / range;
    assert x == range * (x / range) + r;
    assert range * d == range * q - range * (x / range);
    if d >= 1 {
      AtLeast(range, d);
    }
  }
}
