/**
  Bit-reversed ("split-ordered") keys of the lock-free hash map.

  Words are natural numbers below `Pow2(w)`, where `w` is the width of the hash type.
  A bucket `i` owns the sentinel key `Reverse(i)`; an element with hash `h` owns the
  ordinary key `Reverse(h) | 1`.  Both drop the two highest bits of their argument first,
  so the two lowest bits of a reversed key are free.
*/
module SplitOrder {
  import opened Arithmetic

  /** The `w` lowest bits of `x` in opposite order. */
  function Reverse(w: nat, x: nat): nat {
    if w == 0 then 0 else (if x % 2 == 1 then Pow2(w - 1) else 0) + Reverse(w - 1, x / 2)
  }

  /** `value & sMask`: the two highest of the `w` bits are cleared. */
  function Masked(w: nat, value: nat): nat
    requires w >= 2
  {
    Low(value, w - 2)
  }

  function SentinelKey(w: nat, index: nat): nat
    requires w >= 2
  {
    Reverse(w, Masked(w, index))
  }

  /** `reverse(value & sMask) | 1`; setting the lowest bit of `r` gives `r - r % 2 + 1`. */
  function OrdinaryKey(w: nat, hash: nat): nat
    requires w >= 2
  {
    var r := Reverse(w, Masked(w, hash));
    r - r % 2 + 1
  }

  /** The key of the last node of the list: all bits set. */
  function MaxKey(w: nat): nat { Pow2(w) - 1 }

  // ---------------------------------------------------------------- shifts

  function Shl(x: nat, n: nat): nat {
    if n == 0 then x else 2 * Shl(x, n - 1)
  }

  function Shr(x: nat, n: nat): nat {
    if n == 0 then x else Shr(x / 2, n - 1)
  }

  /** The `n` lowest bits of `x`. */
  function Low(x: nat, n: nat): nat {
    if n == 0 then 0 else x % 2 + 2 * Low(x / 2, n - 1)
  }

  /** The bucket of a hash value among `Pow2(bits)` buckets, `hashValue % bucketSize`, is its lowest bits. */
  lemma {:induction false} LowIsMod(hash: nat, bits: nat)
    ensures Low(hash, bits) == hash % Pow2(bits) < Pow2(bits)
  {
    LowOfSmall(hash, bits);
    var q := LowQuotient(hash, bits);
    DivModUnique(hash, Pow2(bits), q, Low(hash, bits));
  }

  lemma {:induction false} LowQuotient(x: nat, n: nat) returns (q: nat)
    ensures x == Pow2(n) * q + Low(x, n)
  {
    if n == 0 {
      q := x;
    } else {
      q := LowQuotient(x / 2, n - 1);
      assert 2 * (Pow2(n - 1) * q) == Pow2(n) * q;
    }
  }

  lemma {:induction false} LowOfSmall(x: nat, n: nat)
    ensures Low(x, n) < Pow2(n)
    ensures x < Pow2(n) ==> Low(x, n) == x && Shr(x, n) == 0
  {
    if n != 0 {
      LowOfSmall(x / 2, n - 1);
    }
  }

  lemma {:induction false} ShrOfLow(x: nat, n: nat)
    ensures Shr(Low(x, n), n) == 0
  {
    LowOfSmall(x, n);
    LowOfSmall(Low(x, n), n);
  }

  lemma {:induction false} LowSucc(x: nat, n: nat)
    ensures Low(x, n + 1) == Low(x, n) || Low(x, n + 1) == Low(x, n) + Pow2(n)
  {
    if n != 0 {
      LowSucc(x / 2, n - 1);
    }
  }

  lemma {:induction false} ShlSum(a: nat, b: nat, n: nat)
    ensures Shl(a + b, n) == Shl(a, n) + Shl(b, n)
  {
    if n != 0 {
      ShlSum(a, b, n - 1);
    }
  }

  lemma {:induction false} ShlPow2(m: nat, n: nat)
    ensures Shl(Pow2(m), n) == Pow2(m + n)
    ensures Shl(0, n) == 0
  {
    if n != 0 {
      ShlPow2(m, n - 1);
    }
  }

  /** Shifted numbers keep their order, and different ones are a whole unit apart. */
  lemma {:induction false} ShlOrder(a: nat, b: nat, n: nat)
    ensures a < b ==> Shl(a, n) + Pow2(n) <= Shl(b, n)
    ensures a == b ==> Shl(a, n) == Shl(b, n)
    ensures a > b ==> Shl(b, n) + Pow2(n) <= Shl(a, n)
  {
    if n != 0 {
      ShlOrder(a, b, n - 1);
    }
  }

  lemma {:induction false} Pow2Monotone(m: nat, n: nat)
    requires m <= n
    ensures Pow2(m) <= Pow2(n)
    decreases n
  {
    if m < n {
      Pow2Monotone(m, n - 1);
    }
  }

  // ---------------------------------------------------------------- reversal

  lemma {:induction false} ReverseBound(w: nat, x: nat)
    ensures Reverse(w, x) < Pow2(w)
    ensures Reverse(w, 0) == 0
  {
    if w != 0 {
      ReverseBound(w - 1, x / 2);
    }
  }

  lemma {:induction false} ReverseOfLow(k: nat, x: nat, m: nat)
    requires k <= m
    ensures Reverse(k, Low(x, m)) == Reverse(k, x)
  {
    if k != 0 {
      ReverseOfLow(k - 1, x / 2, m - 1);
    }
  }

  /** The low `k` bits of a word become the high `k` bits of its reversal. */
  lemma {:induction false} ReverseSplit(w: nat, k: nat, x: nat)
    requires k <= w
    ensures Reverse(w, x) == Shl(Reverse(k, x), w - k) + Reverse(w - k, Shr(x, k))
    decreases k
  {
    ShlPow2(0, w - k);
    if k != 0 {
      ReverseSplit(w - 1, k - 1, x / 2);
      ShlPow2(k - 1, w - k);
      ShlSum(if x % 2 == 1 then Pow2(k - 1) else 0, Reverse(k - 1, x / 2), w - k);
    }
  }

  /** Reversing twice gives the word back. */
  lemma {:induction false} ReverseInvolution(w: nat, x: nat)
    requires x < Pow2(w)
    ensures Reverse(w, Reverse(w, x)) == x
  {
    if w != 0 {
      var r, y := Reverse(w - 1, x / 2), Reverse(w, x);
      ReverseBound(w - 1, x / 2);
      ReverseSplit(w, w - 1, y);
      TopBitOf(w - 1, x % 2, r);
      ReverseInvolution(w - 1, x / 2);
    }
  }

  /** Cutting a word into its highest bit and the `n` bits below. */
  lemma {:induction false} TopBitOf(n: nat, bit: nat, r: nat)
    requires bit < 2 && r < Pow2(n)
    ensures var y := (if bit == 1 then Pow2(n) else 0) + r;
            Reverse(n, y) == Reverse(n, r) && Reverse(1, Shr(y, n)) == bit && Shl(Reverse(n, r), 1) == 2 * Reverse(n, r)
  {
    if n == 0 {
      assert Reverse(1, bit) == (if bit % 2 == 1 then Pow2(0) else 0) + Reverse(0, bit / 2);
    } else {
      TopBitOf(n - 1, bit, r / 2);
      assert Shl(Reverse(n, r), 1) == 2 * Shl(Reverse(n, r), 0);
    }
  }

  lemma ReverseInjective(w: nat, x: nat, y: nat)
    requires x < Pow2(w) && y < Pow2(w)
    requires Reverse(w, x) == Reverse(w, y)
    ensures x == y
  {
    ReverseInvolution(w, x);
    ReverseInvolution(w, y);
  }

  // ---------------------------------------------------------------- the loops of the source

  /** The bit loop of `reverse`, on a `w`-bit accumulator. */
  method ReverseLoop(w: nat, value: nat) returns (ans: nat)
    ensures ans == Reverse(w, value)
    ensures value < Pow2(w) ==> Reverse(w, ans) == value
  {
    ans := 0;
    var v := value;
    ShlPow2(0, w);
    for i := 0 to w
      invariant ans < Pow2(i)
      invariant Reverse(w, value) == Shl(ans, w - i) + Reverse(w - i, v)
    {
      var bit := v % 2;
      Pow2Monotone(i + 1, w);
      ShlPow2(0, w - i - 1);
      ShlSum(ans, ans, w - i - 1);
      ShlSum(2 * ans, bit, w - i - 1);
      ShlTwice(ans, w - i - 1);
      LowOfSmall(2 * ans, w);
      ans := Low(2 * ans, w);
      ans := ans + bit;
      v := v / 2;
    }
    if value < Pow2(w) {
      ReverseInvolution(w, value);
    }
  }

  lemma {:induction false} ShlTwice(x: nat, n: nat)
    ensures Shl(2 * x, n) == Shl(x, n + 1)
  {
    if n != 0 {
      ShlTwice(x, n - 1);
    }
  }

  /** The largest power of two not above `x`. */
  function TopBit(x: nat): (p: nat)
    requires x > 0
    ensures 0 < p <= x < 2 * p
  {
    if x == 1 then 1 else 2 * TopBit(x / 2)
  }

  /** The bucket whose interval the bucket `index` is split from: `index` without its top bit. */
  function Parent(index: nat): nat
    requires index > 0
  {
    index - TopBit(index)
  }

  lemma {:induction false} TopBitUnique(x: nat, j: nat)
    requires Pow2(j) <= x < 2 * Pow2(j)
    ensures TopBit(x) == Pow2(j)
  {
    if j != 0 {
      TopBitUnique(x / 2, j - 1);
    }
  }

  /** The halving loop of `getParentIndex`, started at a bucket count `Pow2(k)`. */
  method GetParentIndex(index: nat, k: nat) returns (parent: nat)
    requires 0 < index < Pow2(k)
    ensures parent == Parent(index) < index
  {
    var i := Pow2(k) / 2;
    ghost var j := k - 1;
    while index < i
      invariant 0 <= j < k && i == Pow2(j) && index < 2 * i
      decreases i
    {
      i := i / 2;
      j := j - 1;
    }
    TopBitUnique(index, j);
    parent := index - i;
  }

  // ---------------------------------------------------------------- split ordering

  /** A reversed masked word has its two lowest bits clear and stays below the last key. */
  lemma MaskedReverse(w: nat, value: nat)
    requires w >= 2
    ensures Reverse(w, Masked(w, value)) % 4 == 0
    ensures Reverse(w, Masked(w, value)) + 4 <= Pow2(w)
  {
    var x := Masked(w, value);
    ReverseSplit(w, w - 2, x);
    ShrOfLow(value, w - 2);
    ReverseBound(2, 0);
    ReverseBound(w - 2, x);
    var r := Reverse(w - 2, x);
    assert Shl(r, 2) == 2 * Shl(r, 1) && Shl(r, 1) == 2 * Shl(r, 0);
    assert Pow2(w) == 2 * Pow2(w - 1) && Pow2(w - 1) == 2 * Pow2(w - 2);
  }

  /** The classes of keys: sentinels end in 00, elements in 01, the last node in 11. */
  lemma KeyShape(w: nat, x: nat)
    requires w >= 2
    ensures SentinelKey(w, x) % 4 == 0 && SentinelKey(w, x) < MaxKey(w)
    ensures OrdinaryKey(w, x) % 4 == 1 && OrdinaryKey(w, x) < MaxKey(w)
    ensures OrdinaryKey(w, x) == SentinelKey(w, x) + 1
    ensures MaxKey(w) % 4 == 3
  {
    MaskedReverse(w, x);
    assert Pow2(w) == 2 * Pow2(w - 1) && Pow2(w - 1) == 2 * Pow2(w - 2);
  }

  /** What follows the `k` highest bits of an element's key. */
  function Tail(w: nat, k: nat, h: nat): nat
    requires w >= 2 && k <= w
  {
    Reverse(w - k, Shr(Masked(w, h), k))
  }

  lemma SentinelDigits(w: nat, k: nat, i: nat)
    requires w >= 2 && k <= w - 2 && i < Pow2(k)
    ensures SentinelKey(w, i) == Shl(Reverse(k, i), w - k)
  {
    Pow2Monotone(k, w - 2);
    LowOfSmall(i, w - 2);
    LowOfSmall(i, k);
    ReverseSplit(w, k, i);
    ReverseBound(w - k, 0);
  }

  lemma OrdinarySplit(w: nat, k: nat, h: nat)
    requires w >= 2 && k <= w - 2
    ensures SentinelKey(w, h) == Shl(Reverse(k, Low(h, k)), w - k) + Tail(w, k, h)
    ensures Tail(w, k, h) < Pow2(w - k)
  {
    ReverseSplit(w, k, Masked(w, h));
    ReverseOfLow(k, h, w - 2);
    ReverseOfLow(k, h, k);
    ReverseBound(w - k, Shr(Masked(w, h), k));
  }

  /** The key of an element, cut after its `k` highest bits. */
  lemma OrdinaryDigits(w: nat, k: nat, h: nat)
    requires w >= 2 && k <= w - 2
    ensures OrdinaryKey(w, h) == Shl(Reverse(k, Low(h, k)), w - k) + Tail(w, k, h) + 1
    ensures Tail(w, k, h) + 1 < Pow2(w - k)
  {
    KeyShape(w, h);
    OrdinarySplit(w, k, h);
    ShlByTwo(Reverse(k, Low(h, k)), w - k);
    ShlByTwo(1, w - k);
    ShlPow2(0, w - k);
    MultiplesOfFour(Shl(Reverse(k, Low(h, k)), w - k), Tail(w, k, h), Pow2(w - k));
  }

  lemma MultiplesOfFour(a: nat, b: nat, p: nat)
    requires a % 4 == 0 && (a + b) % 4 == 0 && p % 4 == 0 && b < p
    ensures b + 1 < p
  {
  }

  lemma ShlByTwo(x: nat, n: nat)
    requires n >= 2
    ensures Shl(x, n) % 4 == 0
  {
    var y := Shl(x, n - 2);
    assert Shl(x, n - 1) == 2 * y;
    assert Shl(x, n) == 4 * y;
    FourTimes(y);
  }

  lemma FourTimes(y: nat)
    ensures (4 * y) % 4 == 0
  {
  }

  /**
    The order the list relies on.  With `n = Pow2(k)` buckets, the element `h` lies after the
    sentinel of bucket `h % n` (the `k` low bits of `h`), and every sentinel among `0..n-1` that
    lies after that one lies after `h` too.  Different buckets have different sentinels.
  */
  lemma SplitOrderInterval(w: nat, k: nat, h: nat, i: nat)
    requires w >= 2 && k <= w - 2 && i < Pow2(k)
    ensures SentinelKey(w, Low(h, k)) < OrdinaryKey(w, h)
    ensures SentinelKey(w, Low(h, k)) < SentinelKey(w, i) ==> OrdinaryKey(w, h) < SentinelKey(w, i)
    ensures SentinelKey(w, i) == SentinelKey(w, Low(h, k)) <==> i == Low(h, k)
  {
    var b := Low(h, k);
    LowOfSmall(h, k);
    SentinelDigits(w, k, b);
    SentinelDigits(w, k, i);
    OrdinaryDigits(w, k, h);
    ShlOrder(Reverse(k, b), Reverse(k, i), w - k);
    if Reverse(k, b) == Reverse(k, i) {
      ReverseInjective(k, i, b);
    }
  }

  /** `key` lies in the interval of bucket `i` among `n` buckets. */
  ghost predicate InBucket(w: nat, n: nat, i: nat, key: nat)
    requires w >= 2
  {
    && SentinelKey(w, i) < key
    && forall j: nat :: j < n && SentinelKey(w, i) < SentinelKey(w, j) ==> key < SentinelKey(w, j)
  }

  /** The interval of a bucket holds exactly the elements hashing to it. */
  lemma BucketIsInterval(w: nat, k: nat, h: nat, i: nat)
    requires w >= 2 && k <= w - 2 && i < Pow2(k)
    ensures InBucket(w, Pow2(k), i, OrdinaryKey(w, h)) <==> Low(h, k) == i
  {
    var n := Pow2(k);
    var b := Low(h, k);
    LowOfSmall(h, k);
    forall j: nat | j < n
      ensures SentinelKey(w, b) < SentinelKey(w, j) ==> OrdinaryKey(w, h) < SentinelKey(w, j)
    {
      SplitOrderInterval(w, k, h, j);
    }
    SplitOrderInterval(w, k, h, i);
    assert InBucket(w, n, b, OrdinaryKey(w, h));
  }

  /** The sentinel of `i + n` lies half a bucket behind the sentinel of `i`. */
  lemma UpperHalfSentinel(w: nat, k: nat, i: nat)
    requires w >= 2 && k + 1 <= w - 2 && i < Pow2(k)
    ensures SentinelKey(w, i + Pow2(k)) == SentinelKey(w, i) + Pow2(w - k - 1)
    ensures SentinelKey(w, i) == Shl(Reverse(k, i), w - k)
  {
    var i' := i + Pow2(k);
    var r := Reverse(k, i);
    SentinelDigits(w, k, i);
    SentinelDigits(w, k + 1, i');
    ReverseSplit(k + 1, k, i');
    TopBitOf(k, 1, i);
    assert Reverse(k + 1, i') == 2 * r + 1;
    ShlSum(2 * r, 1, w - k - 1);
    ShlTwice(r, w - k - 1);
    ShlPow2(0, w - k - 1);
  }

  /**
    Doubling the bucket count moves no element: the interval of bucket `i` is cut in two by the
    new sentinel `i + n`, elements of `i` before it and elements of `i + n` behind it.
  */
  lemma DoublingSplitsBucket(w: nat, k: nat, h: nat, i: nat)
    requires w >= 2 && k + 1 <= w - 2 && i < Pow2(k)
    requires Low(h, k) == i
    ensures InBucket(w, Pow2(k), i, SentinelKey(w, i + Pow2(k)))
    ensures OrdinaryKey(w, h) < SentinelKey(w, i + Pow2(k)) <==> Low(h, k + 1) == i
    ensures SentinelKey(w, i + Pow2(k)) < OrdinaryKey(w, h) <==> Low(h, k + 1) == i + Pow2(k)
  {
    var n := Pow2(k);
    var i' := i + n;
    LowSucc(h, k);
    UpperHalfSentinel(w, k, i);
    SplitOrderInterval(w, k + 1, h, i');
    SplitOrderInterval(w, k + 1, h, i);
    forall j: nat | j < n && SentinelKey(w, i) < SentinelKey(w, j)
      ensures SentinelKey(w, i') < SentinelKey(w, j)
    {
      SentinelDigits(w, k, j);
      ShlOrder(Reverse(k, i), Reverse(k, j), w - k);
    }
  }

  /** The parent of a bucket is a smaller bucket with a smaller sentinel, so creation descends. */
  lemma ParentPrecedes(w: nat, k: nat, index: nat)
    requires w >= 2 && k <= w - 2 && 0 < index < Pow2(k)
    ensures Parent(index) < index
    ensures SentinelKey(w, Parent(index)) < SentinelKey(w, index)
  {
    var j := TopExponent(index, k);
    TopBitUnique(index, j);
    UpperHalfSentinel(w, j, Parent(index));
  }

  lemma {:induction false} TopExponent(x: nat, k: nat) returns (j: nat)
    requires 0 < x < Pow2(k)
    ensures j < k && Pow2(j) <= x < 2 * Pow2(j)
  {
    if Pow2(k - 1) <= x {
      j := k - 1;
    } else {
      j := TopExponent(x, k - 1);
    }
  }
}
