/**
  The lists of retired pointers: one per thread and a global one that takes over the list of a
  thread that exits.  The lists are linked through the nodes and relinked in place.

  A pointer is a number; deleting a list node deletes the pointer it carries.
*/
module DeleteLists {
  import opened Sequences

  class DeleteListNode {
    const mData: int
    var mNext: DeleteListNode?

    constructor (data: int)
      ensures mData == data && mNext == null
    {
      mData := data;
      mNext := null;
    }
  }

  /** The links from `head` visit exactly `nodes`, each once, and then reach `end`. */
  ghost predicate IsSegment(head: DeleteListNode?, nodes: seq<DeleteListNode>, end: DeleteListNode?)
    reads nodes
  {
    if nodes == [] then head == end
    else head == nodes[0] && nodes[0] !in nodes[1..] && IsSegment(nodes[0].mNext, nodes[1..], end)
  }

  ghost predicate IsList(head: DeleteListNode?, nodes: seq<DeleteListNode>)
    reads nodes
  {
    IsSegment(head, nodes, null)
  }

  lemma {:induction false} JoinSegments(
    head: DeleteListNode?, a: seq<DeleteListNode>, mid: DeleteListNode?, b: seq<DeleteListNode>, end: DeleteListNode?)
    requires IsSegment(head, a, mid) && IsSegment(mid, b, end) && forall n :: n in a ==> n !in b
    ensures IsSegment(head, a + b, end)
  {
    if a == [] {
      assert a + b == b;
    } else {
      JoinSegments(a[0].mNext, a[1..], mid, b, end);
      assert (a + b)[1..] == a[1..] + b;
    }
  }

  /** The part of a list before its last node. */
  lemma {:induction false} BeforeLast(head: DeleteListNode?, a: seq<DeleteListNode>)
    requires IsList(head, a) && a != []
    ensures IsSegment(head, a[..|a| - 1], a[|a| - 1]) && a[|a| - 1] !in a[..|a| - 1]
  {
    var init, last := a[..|a| - 1], a[|a| - 1];
    if |a| > 1 {
      BeforeLast(a[0].mNext, a[1..]);
      assert a[1..][..|a| - 2] == init[1..] && a[1..][|a| - 2] == last;
      assert last in a[1..];
      assert forall n :: n in init[1..] ==> n in a[1..];
    }
  }

  function Data(nodes: seq<DeleteListNode>): seq<int> { seq(|nodes|, i requires 0 <= i < |nodes| => nodes[i].mData) }

  ghost function Reversed<T>(s: seq<T>): (r: seq<T>)
    ensures |r| == |s| && (forall e :: e in r ==> e in s) && (forall e :: e in s ==> e in r)
  {
    if s == [] then [] else Reversed(s[1..]) + [s[0]]
  }

  /** The pointers that some hazard pointer protects. */
  function Kept(d: seq<int>, hazards: seq<int>): seq<int> {
    if d == [] then [] else
      var rest := Kept(d[..|d| - 1], hazards);
      if d[|d| - 1] in hazards then rest + [d[|d| - 1]] else rest
  }

  function Freed(d: seq<int>, hazards: seq<int>): seq<int> {
    if d == [] then [] else
      var rest := Freed(d[..|d| - 1], hazards);
      if d[|d| - 1] in hazards then rest else rest + [d[|d| - 1]]
  }

  // ---------------------------------------------------------------- what a scan does

  /** A scan loses nothing: every pointer is kept or freed, as often as it was listed. */
  lemma {:induction false} ScanConserves(d: seq<int>, hazards: seq<int>)
    ensures multiset(Kept(d, hazards)) + multiset(Freed(d, hazards)) == multiset(d)
  {
    if d != [] {
      var init, last := d[..|d| - 1], d[|d| - 1];
      ScanConserves(init, hazards);
      assert d == init + [last];
    }
  }

  /** It keeps what is protected and frees the rest. */
  lemma {:induction false} ScanSeparates(d: seq<int>, hazards: seq<int>)
    ensures forall p :: p in Kept(d, hazards) <==> p in d && p in hazards
    ensures forall p :: p in Freed(d, hazards) <==> p in d && p !in hazards
  {
    if d != [] {
      var init, last := d[..|d| - 1], d[|d| - 1];
      ScanSeparates(init, hazards);
      assert d == init + [last];
    }
  }

  lemma {:induction false} KeptDistinct(d: seq<int>, hazards: seq<int>)
    requires Distinct(d)
    ensures Distinct(Kept(d, hazards)) && forall p :: p in Kept(d, hazards) ==> p in d && p in hazards
  {
    if d != [] {
      var init, last := d[..|d| - 1], d[|d| - 1];
      KeptDistinct(init, hazards);
      assert last !in init;
    }
  }

  /** If each pointer is retired once, no more pointers survive a scan than it has seen hazard pointers. */
  lemma ScanBound(d: seq<int>, hazards: seq<int>)
    requires Distinct(d)
    ensures |Kept(d, hazards)| <= |hazards|
  {
    KeptDistinct(d, hazards);
    Contained(Kept(d, hazards), hazards);
  }

  lemma Contained(q: seq<int>, r: seq<int>)
    requires Distinct(q) && forall p :: p in q ==> p in r
    ensures |q| <= |r|
  {
    forall i | 0 <= i < |q| ensures q[i] in r {
      var p := q[i];
      assert p in q;
    }
    Pigeons(q, r);
  }

  lemma {:induction false} ReversedSame(s: seq<int>)
    ensures multiset(Reversed(s)) == multiset(s)
  {
    if s != [] {
      ReversedSame(s[1..]);
      assert s == [s[0]] + s[1..];
    }
  }

  // ---------------------------------------------------------------- the lists

  class GlobalDeleteList {
    var mHead: DeleteListNode?
    ghost var nodes: seq<DeleteListNode>

    ghost predicate Valid()
      reads this, nodes
    {
      IsList(mHead, nodes)
    }

    constructor ()
      ensures Valid() && nodes == []
    {
      mHead := null;
      nodes := [];
    }

    /** Puts the chain from `head` to `last` in front. */
    method Append(head: DeleteListNode, last: DeleteListNode, ghost chain: seq<DeleteListNode>)
      requires Valid() && IsList(head, chain) && chain != [] && last == chain[|chain| - 1]
      requires forall n :: n in chain ==> n !in nodes
      modifies this, last
      ensures Valid() && nodes == chain + old(nodes)
    {
      ghost var init := chain[..|chain| - 1];
      BeforeLast(head, chain);
      assert chain == init + [last] && last in chain;
      last.mNext := mHead;
      assert IsSegment(last, [last], mHead) by { assert [last][1..] == []; }
      assert IsSegment(mHead, nodes, null) && IsSegment(head, init, last);
      hide IsSegment;
      JoinSegments(last, [last], mHead, nodes, null);
      assert forall n :: n in init ==> n in chain;
      JoinSegments(head, init, last, [last] + nodes, null);
      assert init + ([last] + nodes) == chain + nodes;
      mHead := head;
      nodes := chain + nodes;
    }

    method ResetHead() returns (head: DeleteListNode?)
      requires Valid()
      modifies this
      ensures Valid() && nodes == [] && IsList(head, old(nodes))
    {
      head := mHead;
      mHead := null;
      nodes := [];
    }
  }

  class LocalDeleteList {
    var mHead: DeleteListNode?
    var mSize: nat
    ghost var nodes: seq<DeleteListNode>

    ghost predicate Valid()
      reads this, nodes
    {
      IsList(mHead, nodes) && mSize == |nodes|
    }

    constructor ()
      ensures Valid() && nodes == []
    {
      mHead, mSize := null, 0;
      nodes := [];
    }

    method Append(node: DeleteListNode)
      requires Valid() && node !in nodes
      modifies this, node
      ensures Valid() && nodes == [node] + old(nodes)
    {
      mSize := mSize + 1;
      node.mNext := mHead;
      mHead := node;
      assert ([node] + nodes)[1..] == nodes;
      nodes := [node] + nodes;
    }

    /** Moves the first node of a chain in front of this list and goes on to the rest of the chain. */
    method AppendFirst(cur: DeleteListNode, ghost chain: seq<DeleteListNode>) returns (next: DeleteListNode?)
      requires Valid() && IsList(cur, chain) && forall n :: n in chain ==> n !in nodes
      modifies this, cur
      ensures Valid() && chain != [] && cur == chain[0] && nodes == [cur] + old(nodes)
      ensures IsList(next, chain[1..]) && forall n :: n in chain[1..] ==> n !in nodes
    {
      next := cur.mNext;
      assert forall n :: n in chain[1..] ==> n in chain;
      assert cur in chain;
      Append(cur);
    }

    method ResetHead() returns (head: DeleteListNode?)
      requires Valid()
      modifies this
      ensures Valid() && nodes == [] && IsList(head, old(nodes))
    {
      head := mHead;
      mHead, mSize := null, 0;
      nodes := [];
    }

    /** Takes over the nodes of the global list, one by one. */
    method Adopt(global: GlobalDeleteList)
      requires Valid() && global.Valid() && forall n :: n in nodes ==> n !in global.nodes
      modifies this, global, global.nodes
      ensures Valid() && global.Valid() && global.nodes == []
      ensures nodes == Reversed(old(global.nodes)) + old(nodes)
    {
      ghost var before, all := nodes, global.nodes;
      ghost var done: seq<DeleteListNode>, rest := [], all;
      if global.mHead != null {
        var cur := global.ResetHead();
        while cur != null
          invariant Valid() && global.Valid() && global.nodes == []
          invariant IsList(cur, rest) && done + rest == all && all == old(global.nodes)
          invariant nodes == Reversed(done) + before
          invariant forall n :: n in rest ==> n !in nodes
          decreases |rest|
        {
          assert rest[0] == cur && (done + rest)[|done|] == cur && cur in old(global.nodes);
          MoveOne(done, rest, before);
          cur := AppendFirst(cur, rest);
          done, rest := done + [rest[0]], rest[1..];
        }
        assert done == all;
      } else {
        assert Reversed(all) + before == before;
      }
    }

    /** The filtering loop of `tryDeallocateLocalList`, for the pointers it found in the hazard slots. */
    method Scan(hazards: seq<int>) returns (freed: seq<int>)
      requires Valid()
      modifies this, nodes
      ensures Valid()
      ensures Data(nodes) == Reversed(Kept(Data(old(nodes)), hazards))
      ensures freed == Freed(Data(old(nodes)), hazards)
      ensures forall n :: n in nodes ==> n in old(nodes)
    {
      hide Kept, Freed, Reversed;
      ghost var all := nodes;
      ghost var k := 0;
      ScanNone(hazards);
      var cur := ResetHead();
      freed := [];
      while cur != null
        invariant Valid() && 0 <= k <= |all| && all == old(nodes) && IsList(cur, all[k..])
        invariant forall n :: n in all[k..] ==> n !in nodes
        invariant forall n :: n in nodes ==> n in all[..k]
        invariant Data(nodes) == Reversed(Kept(Data(all)[..k], hazards))
        invariant freed == Freed(Data(all)[..k], hazards)
        decreases |all| - k
      {
        assert all[k..][0] == cur && all[k..][1..] == all[k + 1..];
        assert forall n :: n in all[k + 1..] ==> n in all[k..];
        assert cur in all[..k + 1] && forall n :: n in all[..k] ==> n in all[..k + 1];
        ScanOne(Data(all), k, hazards);
        if cur.mData !in hazards {
          freed := freed + [cur.mData];
          cur := cur.mNext;
        } else {
          DataFront(cur, nodes);
          cur := AppendFirst(cur, all[k..]);
        }
        k := k + 1;
      }
      assert Data(all)[..k] == Data(all);
    }

    /** `tryDeallocateLocalList`: takes over the global list, then scans. */
    method TryDeallocate(hazards: seq<int>, global: GlobalDeleteList) returns (freed: seq<int>)
      requires Valid() && global.Valid() && forall n :: n in nodes ==> n !in global.nodes
      modifies this, nodes, global, global.nodes
      ensures Valid() && global.Valid() && global.nodes == []
      ensures forall n :: n in nodes ==> n in old(nodes) || n in old(global.nodes)
      ensures var d := Reversed(Data(old(global.nodes))) + Data(old(nodes));
              freed == Freed(d, hazards) && Data(nodes) == Reversed(Kept(d, hazards))
    {
      ghost var taken, listed := global.nodes, nodes;
      Adopt(global);
      assert forall i :: 0 <= i < |nodes| ==>
               nodes[i] in nodes && (nodes[i] in old(nodes) || nodes[i] in old(global.nodes));
      DataJoin(Reversed(taken), listed);
      DataReversed(taken);
      freed := Scan(hazards);
    }

    /**
      `retire`.  `slots` is the counter of the hazard slots, read before the scan is decided on, and
      `hazards` what the scan finds in them; slots may have been added in between.  Both are at
      most the counter's value at the end (`HazardSlots.ScanSeesCounted`), so the list is at most
      twice as long as that.
    */
    method Retire(data: int, slots: nat, hazards: seq<int>, global: GlobalDeleteList) returns (freed: seq<int>)
      requires Valid() && global.Valid() && forall n :: n in nodes ==> n !in global.nodes
      modifies this, nodes, global, global.nodes
      ensures Valid() && global.Valid() && forall n :: n in nodes ==> n !in global.nodes
      ensures multiset(freed) + multiset(Data(nodes)) + multiset(Data(global.nodes))
           == multiset{data} + multiset(Data(old(nodes))) + multiset(Data(old(global.nodes)))
      ensures forall p :: p in freed ==> p !in hazards
      ensures Distinct([data] + Data(old(nodes)) + Data(old(global.nodes)))
           ==> forall counter: nat :: slots <= counter && |hazards| <= counter ==> mSize <= 2 * counter
    {
      freed := [];
      var node := new DeleteListNode(data);
      Append(node);
      ghost var mine, theirs := Data(nodes), Data(global.nodes);
      assert mine == [data] + Data(old(nodes));
      if 2 * slots < mSize {
        freed := TryDeallocate(hazards, global);
        RetireAccounts(mine, theirs, hazards);
        assert |Data(nodes)| == mSize;
      }
    }

    /** A thread exits: its list goes in front of the global list. */
    method Exit(global: GlobalDeleteList)
      requires Valid() && global.Valid() && forall n :: n in nodes ==> n !in global.nodes
      modifies global, nodes
      ensures global.Valid() && global.nodes == nodes + old(global.nodes)
    {
      if mHead != null {
        var last := mHead;
        ghost var k := 0;
        while last.mNext != null
          invariant 0 <= k < |nodes| && last == nodes[k]
          invariant Valid() && global.Valid() && global.nodes == old(global.nodes) && IsList(last, nodes[k..])
          decreases |nodes| - k
        {
          assert nodes[k..][1..] == nodes[k + 1..];
          assert IsSegment(last.mNext, nodes[k + 1..], null);
          assert last.mNext == nodes[k + 1..][0];
          last := last.mNext;
          k := k + 1;
        }
        assert nodes[k..][1..] == nodes[k + 1..];
        assert IsSegment(last.mNext, nodes[k + 1..], null);
        assert nodes[k + 1..] == [];
        global.Append(mHead, last, nodes);
      }
    }
  }

  lemma ScanNone(hazards: seq<int>)
    ensures Kept([], hazards) == [] && Freed([], hazards) == [] && Reversed<int>([]) == []
  {
  }

  /** What the scan does with one more node. */
  lemma ScanOne(d: seq<int>, k: nat, hazards: seq<int>)
    requires k < |d|
    ensures if d[k] in hazards then
              && Freed(d[..k + 1], hazards) == Freed(d[..k], hazards)
              && Reversed(Kept(d[..k + 1], hazards)) == [d[k]] + Reversed(Kept(d[..k], hazards))
            else
              && Freed(d[..k + 1], hazards) == Freed(d[..k], hazards) + [d[k]]
              && Kept(d[..k + 1], hazards) == Kept(d[..k], hazards)
  {
    assert d[..k + 1][..k] == d[..k];
    if d[k] in hazards {
      ReversedSnoc(Kept(d[..k + 1], hazards));
    }
  }

  /** What taking over `theirs` and scanning does to the pointers `mine`. */
  lemma RetireAccounts(mine: seq<int>, theirs: seq<int>, hazards: seq<int>)
    ensures var d := Reversed(theirs) + mine;
            && multiset(Freed(d, hazards)) + multiset(Reversed(Kept(d, hazards))) == multiset(mine) + multiset(theirs)
            && (forall p :: p in Freed(d, hazards) ==> p !in hazards)
            && (Distinct(mine + theirs) ==> |Reversed(Kept(d, hazards))| <= |hazards|)
  {
    var d := Reversed(theirs) + mine;
    ScanConserves(d, hazards);
    ScanSeparates(d, hazards);
    ReversedSame(Kept(d, hazards));
    ReversedSame(theirs);
    assert multiset(d) == multiset(mine) + multiset(theirs) && multiset(mine + theirs) == multiset(d);
    if Distinct(mine + theirs) {
      SameDistinct(mine + theirs, d);
      ScanBound(d, hazards);
    }
  }

  lemma {:induction false} ReversedSnoc<T>(s: seq<T>)
    requires s != []
    ensures Reversed(s) == [s[|s| - 1]] + Reversed(s[..|s| - 1])
  {
    if |s| > 1 {
      ReversedSnoc(s[1..]);
      assert s[1..][..|s| - 2] == s[..|s| - 1][1..];
    }
  }

  lemma MoveOne<T>(done: seq<T>, rest: seq<T>, before: seq<T>)
    requires rest != []
    ensures done + [rest[0]] + rest[1..] == done + rest
    ensures Reversed(done + [rest[0]]) + before == [rest[0]] + (Reversed(done) + before)
  {
    ReversedSnoc(done + [rest[0]]);
    assert (done + [rest[0]])[..|done|] == done;
  }

  lemma DataFront(n: DeleteListNode, b: seq<DeleteListNode>)
    ensures Data([n] + b) == [n.mData] + Data(b)
  {
  }

  lemma DataJoin(a: seq<DeleteListNode>, b: seq<DeleteListNode>)
    ensures Data(a + b) == Data(a) + Data(b)
  {
  }

  lemma {:induction false} DataReversed(a: seq<DeleteListNode>)
    ensures Data(Reversed(a)) == Reversed(Data(a))
  {
    if a != [] {
      DataReversed(a[1..]);
      assert Data(a)[1..] == Data(a[1..]);
    }
  }

  /** Whether all elements differ depends on the multiset only. */
  lemma SameDistinct(a: seq<int>, b: seq<int>)
    requires multiset(a) == multiset(b) && Distinct(a)
    ensures Distinct(b)
  {
    forall p ensures multiset(a)[p] <= 1 {
      AtMostOnce(a, p);
    }
    forall i, j | 0 <= i < j < |b| ensures b[i] != b[j] {
      if b[i] == b[j] {
        TwiceCounts(b, i, j);
      }
    }
  }

  lemma {:induction false} AtMostOnce(a: seq<int>, p: int)
    requires Distinct(a)
    ensures multiset(a)[p] <= 1
  {
    if a != [] {
      var init := a[..|a| - 1];
      AtMostOnce(init, p);
      assert a == init + [a[|a| - 1]];
      assert a[|a| - 1] !in init;
    }
  }

  lemma TwiceCounts(b: seq<int>, i: nat, j: nat)
    requires i < j < |b| && b[i] == b[j]
    ensures multiset(b)[b[i]] >= 2
  {
    assert b == b[..j] + [b[j]] + b[j + 1..];
    assert b[..j][i] == b[i];
  }
}
