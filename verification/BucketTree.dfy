/**
  The growing table of bucket slots: a tree of nodes with 1024 slots each whose root, together
  with the exponent of the table's size, is replaced by compare-and-swap.

  `At` is `operator[]`: it returns a place, the leaf and the offset of the slot it refers to.
  Sizes are unbounded numbers here.
*/
module BucketTree {
  import opened Arithmetic

  const NULL: int := -1
  const SLOTS: nat := 1024

  // ---------------------------------------------------------------- powers and digits

  function Pow(x: nat, y: nat): nat { if y == 0 then 1 else x * Pow(x, y - 1) }

  method PowLoop(x: nat, y: nat) returns (ans: nat)
    ensures ans == Pow(x, y)
  {
    ans := 1;
    for i := 0 to y
      invariant ans == Pow(x, i)
    {
      ans := ans * x;
    }
  }

  lemma {:induction false} PowOfPow2(b: nat, n: nat)
    ensures Pow(Pow2(b), n) == Pow2(b * n)
  {
    if n == 0 {
      assert b * n == 0;
    } else {
      PowOfPow2(b, n - 1);
      Pow2Plus(b, b * (n - 1));
      assert b * n == b + b * (n - 1);
    }
  }

  /** The number of slots below a node of height `h - 1`. */
  function Capacity(h: nat): (c: nat)
    ensures c > 0
  {
    if h == 0 then 1 else SLOTS * Capacity(h - 1)
  }

  lemma {:induction false} CapacityIs(h: nat)
    ensures Capacity(h) == Pow(SLOTS, h) == Pow2(10 * h)
  {
    if h != 0 {
      CapacityIs(h - 1);
      Pow2Plus(10, 10 * (h - 1));
      TenBits();
    }
  }

  lemma TenBits()
    ensures Pow2(10) == SLOTS
  {
    assert Pow2(5) == 32;
    Pow2Plus(5, 5);
  }

  /** `i / pow(sBucketSize, h)`, one digit at a time. */
  function Quot(i: nat, h: nat): nat { if h == 0 then i else Quot(i, h - 1) / SLOTS }

  /** `i % pow(sBucketSize, h)`. */
  function Rest(i: nat, h: nat): nat { i % Capacity(h) }

  /** `i / size` in `getImpl`. */
  function ChildIndex(i: nat, h: nat): nat { i / Capacity(h) }

  lemma {:induction false} QuotIs(i: nat, h: nat)
    ensures i == Capacity(h) * Quot(i, h) + Rest(i, h)
    ensures ChildIndex(i, h) == Quot(i, h)
  {
    if h == 0 {
      DivModUnique(i, 1, i, 0);
    } else {
      QuotIs(i, h - 1);
      OneMoreDigit(i, Quot(i, h), Quot(i, h - 1) % SLOTS, Capacity(h - 1), Rest(i, h - 1));
    }
  }

  lemma OneMoreDigit(i: nat, q: nat, d: nat, m: nat, r: nat)
    requires d < SLOTS && r < m && i == m * (q * SLOTS + d) + r
    ensures i / (SLOTS * m) == q && i % (SLOTS * m) == m * d + r
    ensures i == (SLOTS * m) * q + i % (SLOTS * m)
    ensures (m * d + r) / m == d && (m * d + r) % m == r
  {
    Distribute(m, q, d);
    BelowProduct(m, d, r);
    hide Pow2;
    DivModUnique(i, SLOTS * m, q, m * d + r);
    DivModUnique(m * d + r, m, d, r);
  }

  lemma Distribute(m: nat, q: nat, d: nat)
    ensures m * (q * SLOTS + d) == (SLOTS * m) * q + m * d
  {
    assert m * (q * SLOTS + d) == m * (q * SLOTS) + m * d;
    assert m * (q * SLOTS) == (SLOTS * m) * q;
  }

  lemma BelowProduct(m: nat, d: nat, r: nat)
    requires d < SLOTS && r < m
    ensures m * d + r < SLOTS * m
  {
    var e: nat := SLOTS - 1 - d;
    assert m * d + m * e == m * (d + e);
    assert m * (d + e) == m * 1023;
  }

  /** What the arithmetic of `getImpl` computes: the next digit, and the index below the child. */
  lemma Descend(i: nat, h: nat)
    ensures ChildIndex(Rest(i, h + 1), h) == Quot(i, h) % SLOTS
    ensures Rest(Rest(i, h + 1), h) == Rest(i, h)
    ensures Quot(i, h) == Quot(i, h + 1) * SLOTS + Quot(i, h) % SLOTS
  {
    QuotIs(i, h);
    OneMoreDigit(i, Quot(i, h + 1), Quot(i, h) % SLOTS, Capacity(h), Rest(i, h));
  }

  lemma SmallIndex(i: nat, h: nat)
    requires i < Capacity(h)
    ensures Quot(i, h) == 0 && Rest(i, h) == i
  {
    QuotIs(i, h);
    DivModUnique(i, Capacity(h), 0, i);
  }

  // ---------------------------------------------------------------- which sizes a tree can hold

  /** Height of the root and exponent of the size after `n` successful calls of `extend`. */
  datatype Extent = Extent(height: nat, exp: nat)

  /** The test of `extend`: grow in place, or put a new root on top. */
  predicate GrowsInPlace(b: nat, e: Extent) { Pow2(e.exp) <= Pow(Pow2(b), e.height + 1) }

  function Extended(b: nat, e: Extent): Extent {
    Extent(if GrowsInPlace(b, e) then e.height else e.height + 1, e.exp + 1)
  }

  function Extents(b: nat, e0: nat, n: nat): Extent {
    if n == 0 then Extent(0, e0) else Extended(b, Extents(b, e0, n - 1))
  }

  /** There is a slot for every index below the size. */
  predicate Fits(e: Extent) { Pow2(e.exp) <= Capacity(e.height + 1) }

  lemma FitsMeans(e: Extent)
    ensures Fits(e) <==> e.exp <= 10 * (e.height + 1)
  {
    CapacityIs(e.height + 1);
    Pow2Order(e.exp, 10 * (e.height + 1));
  }

  lemma GrowsMeans(b: nat, e: Extent)
    ensures GrowsInPlace(b, e) <==> e.exp <= b * (e.height + 1)
  {
    PowOfPow2(b, e.height + 1);
    Pow2Order(e.exp, b * (e.height + 1));
  }

  /** With a base array of at most 512 elements, growing never outruns the tree. */
  lemma ExtendFits(b: nat, e: Extent)
    requires b <= 9 && Fits(e)
    ensures Fits(Extended(b, e))
  {
    FitsMeans(e);
    GrowsMeans(b, e);
    FitsMeans(Extended(b, e));
    assert b * (e.height + 1) <= 9 * (e.height + 1);
  }

  lemma {:induction false} ExtentsFit(b: nat, e0: nat, n: nat)
    requires b <= 9 && e0 <= 10
    ensures Fits(Extents(b, e0, n))
  {
    if n == 0 {
      FitsMeans(Extent(0, e0));
    } else {
      ExtentsFit(b, e0, n - 1);
      ExtendFits(b, Extents(b, e0, n - 1));
    }
  }

  /** While the exponent is at most `b` the single leaf is kept. */
  lemma {:induction false} StaysOneLeaf(b: nat, e0: nat, n: nat)
    requires e0 + n <= b + 1
    ensures Extents(b, e0, n) == Extent(0, e0 + n)
  {
    if n != 0 {
      StaysOneLeaf(b, e0, n - 1);
      GrowsMeans(b, Extent(0, e0 + n - 1));
    }
  }

  /**
    Exactly when the table always has a slot for every index: the base array has at most 512
    elements and the initial size is at most 1024.  With the default base array of 1024 elements
    the table outgrows its single leaf.
  */
  lemma AlwaysFitsIff(b: nat, e0: nat)
    ensures (forall n :: Fits(Extents(b, e0, n))) <==> b <= 9 && e0 <= 10
  {
    if b <= 9 && e0 <= 10 {
      forall n ensures Fits(Extents(b, e0, n)) {
        ExtentsFit(b, e0, n);
      }
    } else if e0 > 10 {
      FitsMeans(Extents(b, e0, 0));
      assert !Fits(Extents(b, e0, 0));
    } else {
      StaysOneLeaf(b, e0, b + 1 - e0);
      FitsMeans(Extent(0, b + 1));
      assert !Fits(Extents(b, e0, b + 1 - e0));
    }
  }

  /** The child indices of `getImpl` from a node of height `h` down, and the offset in the leaf last. */
  function Path(i: nat, h: nat): seq<nat> {
    if h == 0 then [i % SLOTS] else [ChildIndex(i, h)] + Path(Rest(i, h), h - 1)
  }

  /** Every index on the path is within its array. */
  predicate InRange(path: seq<nat>) { forall k :: 0 <= k < |path| ==> path[k] < SLOTS }

  ghost predicate Faithful(h: nat, n: nat) {
    && (forall i :: 0 <= i < n ==> InRange(Path(i, h)))
    && (forall i, j :: 0 <= i < j < n ==> Path(i, h) != Path(j, h))
  }

  lemma {:induction false} PathInRange(i: nat, h: nat)
    ensures i < Capacity(h + 1) ==> InRange(Path(i, h))
    ensures h > 0 && i >= Capacity(h + 1) ==> Path(i, h)[0] >= SLOTS
  {
    if h != 0 {
      QuotIs(i, h);
      PathInRange(Rest(i, h), h - 1);
      QuotientBelow(i, Capacity(h), ChildIndex(i, h), Rest(i, h));
    }
  }

  lemma QuotientBelow(i: nat, m: nat, q: nat, r: nat)
    requires i == m * q + r && r < m
    ensures q < SLOTS <==> i < SLOTS * m
  {
    if q < SLOTS {
      BelowProduct(m, q, r);
    } else {
      var e: nat := q - SLOTS;
      assert m * q == m * SLOTS + m * e;
    }
  }

  lemma {:induction false} PathInjective(i: nat, j: nat, h: nat)
    requires i < Capacity(h + 1) && j < Capacity(h + 1) && Path(i, h) == Path(j, h)
    ensures i == j
  {
    if h == 0 {
      assert i % SLOTS == Path(i, 0)[0] == Path(j, 0)[0] == j % SLOTS;
    } else {
      var a, b := Path(i, h), Path(j, h);
      assert a[0] == ChildIndex(i, h) && b[0] == ChildIndex(j, h);
      assert Path(Rest(i, h), h - 1) == a[1..] == b[1..] == Path(Rest(j, h), h - 1);
      PathInjective(Rest(i, h), Rest(j, h), h - 1);
      QuotIs(i, h);
      QuotIs(j, h);
    }
  }

  /** The table works for the indices below `n` if and only if it has that many slots. */
  lemma FaithfulIff(h: nat, n: nat)
    ensures Faithful(h, n) <==> n <= Capacity(h + 1)
  {
    if n <= Capacity(h + 1) {
      forall i | 0 <= i < n ensures InRange(Path(i, h)) {
        PathInRange(i, h);
      }
      forall i, j | 0 <= i < j < n ensures Path(i, h) != Path(j, h) {
        if Path(i, h) == Path(j, h) {
          PathInjective(i, j, h);
        }
      }
    } else if h == 0 {
      assert Path(0, 0) == Path(SLOTS, 0);
    } else {
      PathInRange(Capacity(h + 1), h);
      assert !InRange(Path(Capacity(h + 1), h));
    }
  }

  /** The default: base array 1024, initial size 2.  After ten extensions bucket 1024 is bucket 0. */
  lemma DefaultAliases()
    ensures Extents(10, 1, 10) == Extent(0, 11)
    ensures 0 < SLOTS < Pow2(11) && Path(0, 0) == Path(SLOTS, 0)
  {
    StaysOneLeaf(10, 1, 10);
    TenBits();
  }

  /** The height of the default table after `n` extensions. */
  lemma {:induction false} DefaultExtents(n: nat)
    ensures Extents(10, 1, n) == Extent(if n == 0 then 0 else (n - 1) / 10, n + 1)
  {
    if n > 0 {
      DefaultExtents(n - 1);
      GrowsMeans(10, Extents(10, 1, n - 1));
    }
  }

  /** The default table lacks slots after every tenth extension, and only then. */
  lemma DefaultFitsIff(n: nat)
    ensures Fits(Extents(10, 1, n)) <==> n == 0 || n % 10 != 0
  {
    DefaultExtents(n);
    FitsMeans(Extents(10, 1, n));
  }

  /**
    After twenty extensions of the default table bucket 2^20 is below its size, and its child index is
    out of range.
  */
  lemma DefaultOverruns()
    ensures Extents(10, 1, 20) == Extent(1, 21) && 1048576 < Pow2(21)
    ensures Path(1048576, 1)[0] == SLOTS
  {
    DefaultExtents(20);
    CapacityIs(1);
    CapacityIs(2);
    TenBits();
    Pow2Plus(10, 10);
    Pow2Order(20, 21);
    Pow2Order(21, 20);
    DivModUnique(1048576, 1024, 1024, 0);
  }

  /** A new root on top keeps every index on its old path, below child 0. */
  lemma NewRootKeepsPaths(i: nat, h: nat)
    requires i < Capacity(h + 1)
    ensures Path(i, h + 1) == [0] + Path(i, h)
  {
    SmallIndex(i, h + 1);
    QuotIs(i, h + 1);
  }
}
