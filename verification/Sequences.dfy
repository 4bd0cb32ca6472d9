/** Options, sequences of distinct elements, counting by pigeonhole, and sums. */
module Sequences {

  datatype Option<T> = None | Some(value: T)

  ghost predicate Distinct<T>(q: seq<T>) { forall i, j :: 0 <= i < j < |q| ==> q[i] != q[j] }

  /** Different elements that all lie in `r` are at most as many as the elements of `r`. */
  lemma {:induction false} Pigeons<T>(q: seq<T>, r: seq<T>)
    requires Distinct(q) && forall i :: 0 <= i < |q| ==> q[i] in r
    ensures |q| <= |r|
  {
    if q != [] {
      var init, last := q[..|q| - 1], q[|q| - 1];
      var i :| 0 <= i < |r| && r[i] == last;
      var fewer := r[..i] + r[i + 1..];
      forall k | 0 <= k < |init| ensures init[k] in fewer {
        var j :| 0 <= j < |r| && r[j] == q[k];
        assert fewer[if j < i then j else j - 1] == q[k];
      }
      Pigeons(init, fewer);
    }
  }

  /** Different elements that all lie in the set `r` are at most as many as the elements of `r`. */
  lemma {:induction false} PigeonSet<T>(q: seq<T>, r: set<T>)
    requires Distinct(q) && forall i :: 0 <= i < |q| ==> q[i] in r
    ensures |q| <= |r|
  {
    if q != [] {
      var last := q[|q| - 1];
      assert r == (r - {last}) + {last};
      PigeonSet(q[..|q| - 1], r - {last});
    }
  }

  function Sum(a: seq<int>): int { if a == [] then 0 else a[0] + Sum(a[1..]) }

  lemma {:induction false} SumUpdate(a: seq<int>, i: nat, v: int)
    requires i < |a|
    ensures Sum(a[i := v]) == Sum(a) - a[i] + v
  {
    if i == 0 {
      assert a[0 := v][1..] == a[1..];
    } else {
      SumUpdate(a[1..], i - 1, v);
      assert a[i := v][1..] == a[1..][i - 1 := v];
    }
  }

  lemma {:induction false} SumIsNatural(a: seq<int>)
    requires forall i :: 0 <= i < |a| ==> a[i] >= 0
    ensures Sum(a) >= 0
  {
    if a != [] {
      SumIsNatural(a[1..]);
    }
  }

  lemma {:induction false} SumOfZeros(a: seq<int>)
    requires forall i :: 0 <= i < |a| ==> a[i] == 0
    ensures Sum(a) == 0
  {
    if a != [] {
      SumOfZeros(a[1..]);
    }
  }
}
