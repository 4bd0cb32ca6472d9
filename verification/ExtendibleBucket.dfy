/**
  The growing table as a step machine: any number of threads run `operator[]`, which creates
  missing nodes on its way down, and `extend`.

  Node identities are fresh; nodes are only freed by the destructor.
*/
module ExtendibleBucket {
  import opened Arithmetic
  import opened BucketTree

  /** An inner node has 1024 child links, a leaf (height 0) has 1024 slots and no links. */
  datatype Node = Node(height: nat, children: seq<int>)

  datatype Pc =
    | Idle
    | AtRoot(i: nat)
    | AtNode(i: nat, rest: nat, node: int)
    | AtCas(i: nat, rest: nat, node: int, child: int)
    | AtDone(i: nat, leaf: int, offset: nat)
    | ExtLoad
    | ExtCas(root: int, exp: nat)
    | ExtTree(root: int, exp: nat)
    | ExtTreeCas(root: int, exp: nat, top: int)

  /** `base` is the exponent of `BaseArraySize`; root and exponent are one atomic pair. */
  datatype State = State(base: nat, nodes: seq<Node>, root: int, exp: nat, threads: seq<Pc>)

  /** A caller of `operator[]` passes an index below a size it has read. */
  datatype Step = BeginAt(t: nat, i: nat) | BeginExtend(t: nat) | Run(t: nat)

  function NoLinks(h: nat): seq<int> { if h == 0 then [] else seq(SLOTS, _ => NULL) }

  ghost predicate Init(s: State) {
    && s.base <= 9 && s.exp <= 10
    && s.nodes == [Node(0, [])] && s.root == 0
    && forall t :: 0 <= t < |s.threads| ==> s.threads[t].Idle?
  }

  predicate IsNode(s: State, n: int) { 0 <= n < |s.nodes| }

  /** The node exists, and an inner node has the link that the index selects. */
  predicate HasLink(s: State, rest: nat, n: int) {
    && IsNode(s, n)
    && (s.nodes[n].height > 0 ==> ChildIndex(rest, s.nodes[n].height) < |s.nodes[n].children|)
  }

  predicate Enabled(s: State, a: Step) {
    && a.t < |s.threads|
    && match a
       case BeginAt(t, i) => s.threads[t].Idle? && i < Pow2(s.exp)
       case BeginExtend(t) => s.threads[t].Idle?
       case Run(t) =>
         match s.threads[t]
         case Idle => false
         case AtNode(_, rest, n) => HasLink(s, rest, n)
         case AtCas(_, rest, n, _) => HasLink(s, rest, n) && s.nodes[n].height > 0
         case ExtLoad => IsNode(s, s.root)
         case ExtTree(root, _) => IsNode(s, root)
         case _ => true
  }

  function Goto(s: State, t: nat, pc: Pc): (s': State)
    requires t < |s.threads|
  {
    s.(threads := s.threads[t := pc])
  }

  function Link(s: State, n: int, k: nat): int
    requires IsNode(s, n) && k < |s.nodes[n].children|
  {
    s.nodes[n].children[k]
  }

  function SetLink(s: State, n: int, k: nat, child: int): State
    requires IsNode(s, n) && k < |s.nodes[n].children|
  {
    s.(nodes := s.nodes[n := s.nodes[n].(children := s.nodes[n].children[k := child])])
  }

  /** One level of `getImpl`. */
  function DoAtNode(s: State, t: nat, i: nat, rest: nat, n: int): State
    requires t < |s.threads| && HasLink(s, rest, n)
  {
    var h := s.nodes[n].height;
    if h == 0 then Goto(s, t, AtDone(i, n, rest % SLOTS))
    else
      var child := Link(s, n, ChildIndex(rest, h));
      if child != NULL then Goto(s, t, AtNode(i, Rest(rest, h), child))
      else Goto(s.(nodes := s.nodes + [Node(h - 1, NoLinks(h - 1))]), t, AtCas(i, rest, n, |s.nodes|))
  }

  function DoAtCas(s: State, t: nat, i: nat, rest: nat, n: int, child: int): State
    requires t < |s.threads| && HasLink(s, rest, n) && s.nodes[n].height > 0
  {
    var h := s.nodes[n].height;
    var k := ChildIndex(rest, h);
    if Link(s, n, k) == NULL then Goto(SetLink(s, n, k, child), t, AtNode(i, Rest(rest, h), child))
    else Goto(s, t, AtNode(i, Rest(rest, h), Link(s, n, k)))
  }

  function DoExtLoad(s: State, t: nat): State
    requires t < |s.threads| && IsNode(s, s.root)
  {
    if GrowsInPlace(s.base, Extent(s.nodes[s.root].height, s.exp)) then Goto(s, t, ExtCas(s.root, s.exp))
    else Goto(s, t, ExtTree(s.root, s.exp))
  }

  /** The new root: the old one is child 0. */
  function Top(height: nat, root: int): Node
    requires height > 0
  {
    Node(height, NoLinks(height)[0 := root])
  }

  function DoExtTree(s: State, t: nat, root: int, exp: nat): State
    requires t < |s.threads| && IsNode(s, root)
  {
    Goto(s.(nodes := s.nodes + [Top(s.nodes[root].height + 1, root)]), t, ExtTreeCas(root, exp, |s.nodes|))
  }

  function Next(s: State, a: Step): (s': State)
    requires Enabled(s, a)
    ensures |s'.threads| == |s.threads| && s'.threads == s.threads[a.t := s'.threads[a.t]] && s'.base == s.base
  {
    match a
    case BeginAt(t, i) => Goto(s, t, AtRoot(i))
    case BeginExtend(t) => Goto(s, t, ExtLoad)
    case Run(t) =>
      match s.threads[t]
      case AtRoot(i) => Goto(s, t, AtNode(i, i, s.root))
      case AtNode(i, rest, n) => DoAtNode(s, t, i, rest, n)
      case AtCas(i, rest, n, child) => DoAtCas(s, t, i, rest, n, child)
      case AtDone(_, _, _) => Goto(s, t, Idle)
      case ExtLoad => DoExtLoad(s, t)
      case ExtCas(root, exp) => Goto(if s.root == root && s.exp == exp then s.(exp := exp + 1) else s, t, Idle)
      case ExtTree(root, exp) => DoExtTree(s, t, root, exp)
      case ExtTreeCas(root, exp, top) =>
        Goto(if s.root == root && s.exp == exp then s.(root := top, exp := exp + 1) else s, t, Idle)
  }

  // ---------------------------------------------------------------- the invariant

  /** `prefix[n]` is the number that the indices below node `n` share; a node not yet linked has none. */
  datatype Aux = Aux(prefix: seq<int>)

  const PRIVATE: int := -1

  predicate Linked(x: Aux, n: int) { 0 <= n < |x.prefix| && x.prefix[n] >= 0 }

  predicate SamePlace(s: State, x: Aux, n: int, m: int)
    requires |x.prefix| == |s.nodes| && IsNode(s, n) && IsNode(s, m)
  {
    s.nodes[n].height == s.nodes[m].height && x.prefix[n] == x.prefix[m]
  }

  ghost predicate ChildOk(s: State, x: Aux, n: int, k: nat)
    requires |x.prefix| == |s.nodes| && IsNode(s, n) && k < |s.nodes[n].children|
  {
    var c := s.nodes[n].children[k];
    c != NULL ==>
      IsNode(s, c) && s.nodes[c].height == s.nodes[n].height - 1 && x.prefix[c] == x.prefix[n] * SLOTS + k
  }

  ghost predicate NodeOk(s: State, x: Aux, n: int)
    requires |x.prefix| == |s.nodes| && IsNode(s, n)
  {
    && (s.nodes[n].height > 0 ==> |s.nodes[n].children| == SLOTS)
    && (Linked(x, n) && s.nodes[n].height > 0 ==> forall k :: 0 <= k < SLOTS ==> ChildOk(s, x, n, k))
  }

  /** A linked node other than the root is the child of a linked node. */
  ghost predicate HasParent(s: State, x: Aux, m: int)
    requires |x.prefix| == |s.nodes|
  {
    exists n, k :: 0 <= k < SLOTS && IsParent(s, x, n, k, m)
  }

  predicate IsParent(s: State, x: Aux, n: int, k: nat, m: int)
    requires |x.prefix| == |s.nodes|
  {
    IsNode(s, n) && Linked(x, n) && s.nodes[n].height > 0 && k < |s.nodes[n].children| && s.nodes[n].children[k] == m
  }

  ghost predicate TreeOk(s: State, x: Aux) {
    && |x.prefix| == |s.nodes| && IsNode(s, s.root) && x.prefix[s.root] == 0
    && (forall n :: 0 <= n < |s.nodes| ==> NodeOk(s, x, n))
    && (forall n :: Linked(x, n) ==> s.nodes[n].height <= s.nodes[s.root].height)
    && (forall n, m :: Linked(x, n) && Linked(x, m) && n != m ==> !SamePlace(s, x, n, m))
    && (forall m :: Linked(x, m) && m != s.root ==> HasParent(s, x, m))
  }

  /** The walk for index `i` stands at the node whose indices include `i`. */
  ghost predicate WalkOk(s: State, x: Aux, i: nat, rest: nat, n: int) {
    && IsNode(s, n) && Linked(x, n)
    && x.prefix[n] == Quot(i, s.nodes[n].height + 1) && rest == Rest(i, s.nodes[n].height + 1)
  }

  predicate PrivateNode(s: State, x: Aux, n: int, node: Node) {
    IsNode(s, n) && n < |x.prefix| && x.prefix[n] == PRIVATE && s.nodes[n] == node
  }

  ghost predicate ThreadOk(s: State, x: Aux, pc: Pc) {
    match pc
    case AtRoot(i) => i < Pow2(s.exp)
    case AtNode(i, rest, n) => WalkOk(s, x, i, rest, n)
    case AtCas(i, rest, n, child) =>
      && WalkOk(s, x, i, rest, n) && s.nodes[n].height > 0
      && PrivateNode(s, x, child, Node(s.nodes[n].height - 1, NoLinks(s.nodes[n].height - 1)))
    case AtDone(i, leaf, offset) =>
      && IsNode(s, leaf) && Linked(x, leaf) && s.nodes[leaf].height == 0
      && x.prefix[leaf] == i / SLOTS && offset == i % SLOTS
    case ExtCas(root, exp) => IsNode(s, root) && GrowsInPlace(s.base, Extent(s.nodes[root].height, exp))
    case ExtTree(root, exp) =>
      && IsNode(s, root) && Linked(x, root) && x.prefix[root] == 0
      && !GrowsInPlace(s.base, Extent(s.nodes[root].height, exp))
    case ExtTreeCas(root, exp, top) =>
      && IsNode(s, root) && Linked(x, root) && x.prefix[root] == 0
      && !GrowsInPlace(s.base, Extent(s.nodes[root].height, exp))
      && PrivateNode(s, x, top, Top(s.nodes[root].height + 1, root))
    case _ => true
  }

  /** The node a thread has allocated and not linked yet. */
  function Own(pc: Pc): int { if pc.AtCas? then pc.child else if pc.ExtTreeCas? then pc.top else NULL }

  ghost predicate OwnDistinct(ths: seq<Pc>) {
    forall t, u :: 0 <= t < u < |ths| && Own(ths[t]) != NULL ==> Own(ths[t]) != Own(ths[u])
  }

  /** The table has a slot for every index below its size. */
  ghost predicate SizeOk(s: State) {
    s.base <= 9 && IsNode(s, s.root) && Fits(Extent(s.nodes[s.root].height, s.exp))
  }

  ghost predicate Inv(s: State, x: Aux) {
    && TreeOk(s, x) && SizeOk(s) && OwnDistinct(s.threads)
    && forall t :: 0 <= t < |s.threads| ==> ThreadOk(s, x, s.threads[t])
  }

  function AuxNext(s: State, a: Step, x: Aux): Aux
    requires Enabled(s, a) && |x.prefix| == |s.nodes|
  {
    if !a.Run? then x else
    match s.threads[a.t]
    case AtNode(i, rest, n) => if |Next(s, a).nodes| > |s.nodes| then Aux(x.prefix + [PRIVATE]) else x
    case AtCas(i, rest, n, child) =>
      var k := ChildIndex(rest, s.nodes[n].height);
      if Link(s, n, k) == NULL && 0 <= child < |x.prefix| then Aux(x.prefix[child := x.prefix[n] * SLOTS + k]) else x
    case ExtTree(_, _) => Aux(x.prefix + [PRIVATE])
    case ExtTreeCas(root, exp, top) =>
      if s.root == root && s.exp == exp && 0 <= top < |x.prefix| then Aux(x.prefix[top := 0]) else x
    case _ => x
  }

  // ---------------------------------------------------------------- a step, seen by the other threads

  /** Heights and places are for ever; private nodes of other threads stay as they are. */
  ghost predicate Evolves(s: State, x: Aux, s': State, x': Aux, own: int)
    requires |x.prefix| == |s.nodes|
  {
    && s'.base == s.base && s.exp <= s'.exp
    && |s.nodes| <= |s'.nodes| == |x'.prefix|
    && (forall n :: 0 <= n < |s.nodes| ==> s'.nodes[n].height == s.nodes[n].height)
    && (forall n :: Linked(x, n) ==> x'.prefix[n] == x.prefix[n])
    && (forall n :: 0 <= n < |s.nodes| && !Linked(x, n) && n != own ==>
          s'.nodes[n] == s.nodes[n] && x'.prefix[n] == x.prefix[n])
  }

  lemma ThreadSurvives(s: State, x: Aux, s': State, x': Aux, own: int, pc: Pc)
    requires |x.prefix| == |s.nodes| && Evolves(s, x, s', x', own) && ThreadOk(s, x, pc)
    requires Own(pc) != NULL ==> Own(pc) != own
    ensures ThreadOk(s', x', pc)
  {
    if pc.AtRoot? {
      Pow2Order(s.exp, s'.exp);
    }
  }

  ghost predicate StepOk(s: State, x: Aux, s': State, x': Aux, t: nat) {
    && |x.prefix| == |s.nodes|
    && t < |s.threads| == |s'.threads| && s'.threads == s.threads[t := s'.threads[t]]
    && Evolves(s, x, s', x', Own(s.threads[t]))
    && TreeOk(s', x') && SizeOk(s') && ThreadOk(s', x', s'.threads[t])
    && (Own(s'.threads[t]) == NULL || Own(s'.threads[t]) == |s.nodes|)
  }

  lemma OwnInRange(s: State, x: Aux, pc: Pc)
    requires ThreadOk(s, x, pc)
    ensures Own(pc) < |s.nodes|
  {
  }

  lemma Frame(s: State, x: Aux, s': State, x': Aux, t: nat)
    requires Inv(s, x) && StepOk(s, x, s', x', t)
    ensures Inv(s', x')
  {
    forall u | 0 <= u < |s'.threads| ensures ThreadOk(s', x', s'.threads[u]) {
      if u != t {
        ThreadSurvives(s, x, s', x', Own(s.threads[t]), s.threads[u]);
      }
    }
    forall u, v | 0 <= u < v < |s'.threads| && Own(s'.threads[u]) != NULL
      ensures Own(s'.threads[u]) != Own(s'.threads[v])
    {
      OwnInRange(s, x, s.threads[u]);
      OwnInRange(s, x, s.threads[v]);
    }
  }

  // ---------------------------------------------------------------- the tree

  lemma SameTree(s: State, x: Aux, s': State)
    requires TreeOk(s, x) && s'.nodes == s.nodes && s'.root == s.root && s'.base == s.base && s'.exp >= s.exp
    ensures TreeOk(s', x) && Evolves(s, x, s', x, NULL)
  {
    forall n | 0 <= n < |s'.nodes| ensures NodeOk(s', x, n) {
      assert NodeOk(s, x, n);
      if Linked(x, n) && s.nodes[n].height > 0 {
        forall k | 0 <= k < SLOTS ensures ChildOk(s', x, n, k) {
          assert ChildOk(s, x, n, k);
        }
      }
    }
    forall m | Linked(x, m) && m != s'.root ensures HasParent(s', x, m) {
      assert HasParent(s, x, m);
      var n, k :| 0 <= k < SLOTS && IsParent(s, x, n, k, m);
      assert IsParent(s', x, n, k, m);
    }
    forall n, m | Linked(x, n) && Linked(x, m) && n != m ensures !SamePlace(s', x, n, m) {
      assert !SamePlace(s, x, n, m);
    }
  }

  /** Allocating a node does not touch the tree. */
  lemma NewNode(s: State, x: Aux, s': State, node: Node)
    requires TreeOk(s, x) && s'.nodes == s.nodes + [node] && s'.root == s.root && s'.base == s.base && s'.exp == s.exp
    requires node.height > 0 ==> |node.children| == SLOTS
    ensures TreeOk(s', Aux(x.prefix + [PRIVATE])) && Evolves(s, x, s', Aux(x.prefix + [PRIVATE]), NULL)
  {
    var x' := Aux(x.prefix + [PRIVATE]);
    assert forall n :: Linked(x', n) <==> Linked(x, n);
    forall n | 0 <= n < |s'.nodes| ensures NodeOk(s', x', n) {
      if n < |s.nodes| {
        assert NodeOk(s, x, n);
        if Linked(x, n) && s.nodes[n].height > 0 {
          forall k | 0 <= k < SLOTS ensures ChildOk(s', x', n, k) {
            assert ChildOk(s, x, n, k);
          }
        }
      }
    }
    forall m | Linked(x', m) && m != s'.root ensures HasParent(s', x', m) {
      assert HasParent(s, x, m);
      var n, k :| 0 <= k < SLOTS && IsParent(s, x, n, k, m);
      assert IsParent(s', x', n, k, m);
    }
    forall n, m | Linked(x', n) && Linked(x', m) && n != m ensures !SamePlace(s', x', n, m) {
      assert !SamePlace(s, x, n, m);
    }
  }

  /** Whoever is at the place of child `k` of `n` is that child. */
  lemma PlaceOfChild(s: State, x: Aux, n: int, k: nat, m: int)
    requires TreeOk(s, x) && IsNode(s, n) && Linked(x, n) && s.nodes[n].height > 0 && k < |s.nodes[n].children| == SLOTS
    requires Linked(x, m) && s.nodes[m].height == s.nodes[n].height - 1 && x.prefix[m] == x.prefix[n] * SLOTS + k
    ensures s.nodes[n].children[k] == m
  {
    assert HasParent(s, x, m);
    var p, j :| 0 <= j < SLOTS && IsParent(s, x, p, j, m);
    assert NodeOk(s, x, p) && ChildOk(s, x, p, j);
    assert x.prefix[p] == x.prefix[n] && j == k;
    assert SamePlace(s, x, p, n);
  }

  /** Nobody is at the place of a missing child yet. */
  lemma PlaceIsFree(s: State, x: Aux, n: int, k: nat, m: int)
    requires TreeOk(s, x) && IsNode(s, n) && Linked(x, n) && s.nodes[n].height > 0 && k < |s.nodes[n].children| == SLOTS
    requires s.nodes[n].children[k] == NULL && Linked(x, m)
    ensures !(s.nodes[m].height == s.nodes[n].height - 1 && x.prefix[m] == x.prefix[n] * SLOTS + k)
  {
    if s.nodes[m].height == s.nodes[n].height - 1 && x.prefix[m] == x.prefix[n] * SLOTS + k {
      PlaceOfChild(s, x, n, k, m);
    }
  }

  /** Before and after linking node `c` as child `k` of `n`. */
  ghost predicate Linking(s: State, x: Aux, s': State, n: int, k: nat, c: int, x': Aux) {
    && TreeOk(s, x) && IsNode(s, n) && Linked(x, n) && s.nodes[n].height > 0 && k < |s.nodes[n].children| == SLOTS
    && s.nodes[n].children[k] == NULL
    && PrivateNode(s, x, c, Node(s.nodes[n].height - 1, NoLinks(s.nodes[n].height - 1)))
    && s'.nodes == SetLink(s, n, k, c).nodes && s'.root == s.root && s'.exp == s.exp && s'.base == s.base
    && x' == Aux(x.prefix[c := x.prefix[n] * SLOTS + k])
  }

  lemma LinkNodes(s: State, x: Aux, s': State, n: int, k: nat, c: int, x': Aux, m: int)
    requires Linking(s, x, s', n, k, c, x') && IsNode(s, m)
    ensures NodeOk(s', x', m)
  {
    assert NodeOk(s, x, m);
    if Linked(x', m) && s'.nodes[m].height > 0 {
      forall j | 0 <= j < SLOTS ensures ChildOk(s', x', m, j) {
        if m != c {
          assert ChildOk(s, x, m, j);
          ChildIsLinked(s, x, m, j);
        }
      }
    }
  }

  lemma LinkParents(s: State, x: Aux, s': State, n: int, k: nat, c: int, x': Aux, m: int)
    requires Linking(s, x, s', n, k, c, x') && Linked(x', m) && m != s'.root
    ensures HasParent(s', x', m)
  {
    if m == c {
      assert IsParent(s', x', n, k, c);
    } else {
      assert HasParent(s, x, m);
      var p, j :| 0 <= j < SLOTS && IsParent(s, x, p, j, m);
      assert IsParent(s', x', p, j, m);
    }
  }

  lemma LinkPlaces(s: State, x: Aux, s': State, n: int, k: nat, c: int, x': Aux, a: int, b: int)
    requires Linking(s, x, s', n, k, c, x') && Linked(x', a) && Linked(x', b) && a != b
    ensures !SamePlace(s', x', a, b)
  {
    if a == c {
      PlaceIsFree(s, x, n, k, b);
    } else if b == c {
      PlaceIsFree(s, x, n, k, a);
    } else {
      assert !SamePlace(s, x, a, b);
    }
  }

  lemma LinkSizes(s: State, x: Aux, s': State, n: int, k: nat, c: int, x': Aux)
    requires Linking(s, x, s', n, k, c, x')
    ensures Evolves(s, x, s', x', c) && |s'.nodes| == |s.nodes| && IsNode(s', s'.root) && x'.prefix[s'.root] == 0
    ensures forall m :: Linked(x', m) ==> s'.nodes[m].height <= s'.nodes[s'.root].height
  {
    assert forall m :: Linked(x', m) <==> Linked(x, m) || m == c;
  }

  lemma LinkChild(s: State, x: Aux, s': State, n: int, k: nat, c: int, x': Aux)
    requires Linking(s, x, s', n, k, c, x')
    ensures TreeOk(s', x') && Evolves(s, x, s', x', c)
  {
    LinkSizes(s, x, s', n, k, c, x');
    hide Linking, NodeOk, HasParent, Evolves;
    forall m | 0 <= m < |s'.nodes| ensures NodeOk(s', x', m) {
      LinkNodes(s, x, s', n, k, c, x', m);
    }
    forall m | Linked(x', m) && m != s'.root ensures HasParent(s', x', m) {
      LinkParents(s, x, s', n, k, c, x', m);
    }
    forall a, b | Linked(x', a) && Linked(x', b) && a != b ensures !SamePlace(s', x', a, b) {
      LinkPlaces(s, x, s', n, k, c, x', a, b);
    }
  }

  lemma ChildIsLinked(s: State, x: Aux, n: int, k: nat)
    requires |x.prefix| == |s.nodes| && IsNode(s, n) && Linked(x, n) && k < |s.nodes[n].children| && ChildOk(s, x, n, k)
    ensures s.nodes[n].children[k] != NULL ==> Linked(x, s.nodes[n].children[k])
  {
  }

  lemma PutRoot(s: State, x: Aux, s': State, top: int, x': Aux)
    requires TreeOk(s, x) && PrivateNode(s, x, top, Top(s.nodes[s.root].height + 1, s.root))
    requires s'.nodes == s.nodes && s'.root == top && s'.exp == s.exp + 1 && s'.base == s.base
    requires x' == Aux(x.prefix[top := 0])
    ensures TreeOk(s', x') && Evolves(s, x, s', x', top)
  {
    assert forall m :: Linked(x', m) <==> Linked(x, m) || m == top;
    forall m | 0 <= m < |s'.nodes| ensures NodeOk(s', x', m) {
      assert NodeOk(s, x, m);
      if Linked(x', m) && s'.nodes[m].height > 0 {
        forall j | 0 <= j < SLOTS ensures ChildOk(s', x', m, j) {
          if m != top {
            assert ChildOk(s, x, m, j);
            ChildIsLinked(s, x, m, j);
          }
        }
      }
    }
    forall m | Linked(x', m) && m != s'.root ensures HasParent(s', x', m) {
      if m == s.root {
        assert IsParent(s', x', top, 0, m);
      } else {
        assert HasParent(s, x, m);
        var p, j :| 0 <= j < SLOTS && IsParent(s, x, p, j, m);
        assert IsParent(s', x', p, j, m);
      }
    }
    forall a, b | Linked(x', a) && Linked(x', b) && a != b ensures !SamePlace(s', x', a, b) {
      if a != top && b != top {
        assert !SamePlace(s, x, a, b);
      }
    }
  }

  // ---------------------------------------------------------------- the steps

  /** What is known of the stepping thread. */
  ghost predicate Local(s: State, x: Aux, t: nat) {
    TreeOk(s, x) && SizeOk(s) && t < |s.threads| && ThreadOk(s, x, s.threads[t])
  }

  lemma SizeKept(s: State, s': State)
    requires SizeOk(s) && s'.base == s.base && s'.root == s.root && s'.exp == s.exp
    requires |s'.nodes| >= |s.nodes| && s'.nodes[s.root].height == s.nodes[s.root].height
    ensures SizeOk(s')
  {
  }

  /** The arithmetic keeps the walk inside the 1024 links of a node. */
  lemma WalkHasLink(s: State, x: Aux, i: nat, rest: nat, n: int)
    requires TreeOk(s, x) && WalkOk(s, x, i, rest, n)
    ensures HasLink(s, rest, n)
    ensures s.nodes[n].height > 0 ==>
              && ChildIndex(rest, s.nodes[n].height) == Quot(i, s.nodes[n].height) % SLOTS
              && Rest(rest, s.nodes[n].height) == Rest(i, s.nodes[n].height)
              && x.prefix[n] * SLOTS + ChildIndex(rest, s.nodes[n].height) == Quot(i, s.nodes[n].height)
  {
    assert NodeOk(s, x, n);
    Descend(i, s.nodes[n].height);
  }

  lemma StepInBounds(s: State, x: Aux, t: nat)
    requires Local(s, x, t) && !s.threads[t].Idle?
    ensures Enabled(s, Run(t))
  {
    match s.threads[t]
    case AtNode(i, rest, n) => WalkHasLink(s, x, i, rest, n);
    case AtCas(i, rest, n, _) => WalkHasLink(s, x, i, rest, n);
    case _ =>
  }

  lemma ChildWalk(s: State, x: Aux, i: nat, rest: nat, n: int)
    requires TreeOk(s, x) && WalkOk(s, x, i, rest, n) && HasLink(s, rest, n) && s.nodes[n].height > 0
    requires Link(s, n, ChildIndex(rest, s.nodes[n].height)) != NULL
    ensures WalkOk(s, x, i, Rest(rest, s.nodes[n].height), Link(s, n, ChildIndex(rest, s.nodes[n].height)))
  {
    WalkHasLink(s, x, i, rest, n);
    assert NodeOk(s, x, n) && ChildOk(s, x, n, ChildIndex(rest, s.nodes[n].height));
  }

  lemma AtRootOk(s: State, x: Aux, t: nat)
    requires Local(s, x, t) && s.threads[t].AtRoot? && Enabled(s, Run(t))
    ensures StepOk(s, x, Next(s, Run(t)), x, t)
  {
    var s' := Next(s, Run(t));
    SameTree(s, x, s');
    SmallIndex(s.threads[t].i, s.nodes[s.root].height + 1);
  }

  lemma LeafOk(s: State, x: Aux, t: nat)
    requires Local(s, x, t) && s.threads[t].AtNode? && Enabled(s, Run(t)) && s.nodes[s.threads[t].node].height == 0
    ensures StepOk(s, x, Next(s, Run(t)), x, t)
  {
    SameTree(s, x, Next(s, Run(t)));
    LowestDigit(s.threads[t].i);
  }

  lemma LowestDigit(i: nat)
    ensures Quot(i, 1) == i / SLOTS && Rest(i, 1) == i % SLOTS && Rest(i, 1) % SLOTS == i % SLOTS
  {
    assert Capacity(1) == SLOTS * Capacity(0);
    assert Quot(i, 1) == Quot(i, 0) / SLOTS;
  }

  lemma DescendOk(s: State, x: Aux, t: nat)
    requires Local(s, x, t) && s.threads[t].AtNode? && Enabled(s, Run(t)) && s.nodes[s.threads[t].node].height > 0
    requires Link(s, s.threads[t].node, ChildIndex(s.threads[t].rest, s.nodes[s.threads[t].node].height)) != NULL
    ensures StepOk(s, x, Next(s, Run(t)), x, t)
  {
    var pc := s.threads[t];
    SameTree(s, x, Next(s, Run(t)));
    ChildWalk(s, x, pc.i, pc.rest, pc.node);
  }

  lemma CreateOk(s: State, x: Aux, t: nat)
    requires Local(s, x, t) && s.threads[t].AtNode? && Enabled(s, Run(t)) && s.nodes[s.threads[t].node].height > 0
    requires Link(s, s.threads[t].node, ChildIndex(s.threads[t].rest, s.nodes[s.threads[t].node].height)) == NULL
    ensures StepOk(s, x, Next(s, Run(t)), Aux(x.prefix + [PRIVATE]), t)
  {
    var h := s.nodes[s.threads[t].node].height - 1;
    NewNode(s, x, Next(s, Run(t)), Node(h, NoLinks(h)));
    SizeKept(s, Next(s, Run(t)));
  }

  lemma CasFailsOk(s: State, x: Aux, t: nat)
    requires Local(s, x, t) && s.threads[t].AtCas? && Enabled(s, Run(t))
    requires Link(s, s.threads[t].node, ChildIndex(s.threads[t].rest, s.nodes[s.threads[t].node].height)) != NULL
    ensures StepOk(s, x, Next(s, Run(t)), x, t)
  {
    var pc := s.threads[t];
    SameTree(s, x, Next(s, Run(t)));
    ChildWalk(s, x, pc.i, pc.rest, pc.node);
  }

  lemma CasLinksOk(s: State, x: Aux, t: nat)
    requires Local(s, x, t) && s.threads[t].AtCas? && Enabled(s, Run(t))
    requires Link(s, s.threads[t].node, ChildIndex(s.threads[t].rest, s.nodes[s.threads[t].node].height)) == NULL
    ensures StepOk(s, x, Next(s, Run(t)), AuxNext(s, Run(t), x), t)
  {
    var pc, s', x' := s.threads[t], Next(s, Run(t)), AuxNext(s, Run(t), x);
    var k := ChildIndex(pc.rest, s.nodes[pc.node].height);
    WalkHasLink(s, x, pc.i, pc.rest, pc.node);
    assert NodeOk(s, x, pc.node);
    LinkChild(s, x, s', pc.node, k, pc.child, x');
    SizeKept(s, s');
  }

  lemma ExtendLooksOk(s: State, x: Aux, t: nat)
    requires Local(s, x, t) && s.threads[t].ExtLoad? && Enabled(s, Run(t))
    ensures StepOk(s, x, Next(s, Run(t)), x, t)
  {
    SameTree(s, x, Next(s, Run(t)));
    hide GrowsInPlace;
  }

  lemma GrowOk(s: State, x: Aux, t: nat)
    requires Local(s, x, t) && s.threads[t].ExtCas? && Enabled(s, Run(t))
    ensures StepOk(s, x, Next(s, Run(t)), x, t)
  {
    var pc := s.threads[t];
    SameTree(s, x, Next(s, Run(t)));
    if s.root == pc.root && s.exp == pc.exp {
      ExtendFits(s.base, Extent(s.nodes[s.root].height, s.exp));
    }
    hide GrowsInPlace, Fits;
  }

  lemma MakeRootOk(s: State, x: Aux, t: nat)
    requires Local(s, x, t) && s.threads[t].ExtTree? && Enabled(s, Run(t))
    ensures StepOk(s, x, Next(s, Run(t)), Aux(x.prefix + [PRIVATE]), t)
  {
    var root := s.threads[t].root;
    NewNode(s, x, Next(s, Run(t)), Top(s.nodes[root].height + 1, root));
    SizeKept(s, Next(s, Run(t)));
    hide GrowsInPlace, Fits;
  }

  lemma PutRootOk(s: State, x: Aux, t: nat)
    requires Local(s, x, t) && s.threads[t].ExtTreeCas? && Enabled(s, Run(t))
    ensures StepOk(s, x, Next(s, Run(t)), AuxNext(s, Run(t), x), t)
  {
    var pc, s', x' := s.threads[t], Next(s, Run(t)), AuxNext(s, Run(t), x);
    if s.root == pc.root && s.exp == pc.exp {
      PutRoot(s, x, s', pc.top, x');
      ExtendFits(s.base, Extent(s.nodes[s.root].height, s.exp));
    } else {
      SameTree(s, x, s');
    }
    hide GrowsInPlace, Fits;
  }

  lemma BeginOk(s: State, x: Aux, a: Step)
    requires Local(s, x, a.t) && Enabled(s, a) && (!a.Run? || s.threads[a.t].AtDone?)
    ensures StepOk(s, x, Next(s, a), x, a.t)
  {
    SameTree(s, x, Next(s, a));
  }

  lemma RunOk(s: State, x: Aux, t: nat)
    requires Local(s, x, t) && Enabled(s, Run(t))
    ensures StepOk(s, x, Next(s, Run(t)), AuxNext(s, Run(t), x), t)
  {
    hide StepOk, Evolves, TreeOk, SizeOk, WalkOk, GrowsInPlace;
    var pc := s.threads[t];
    match pc
    case AtRoot(_) => AtRootOk(s, x, t);
    case AtNode(i, rest, n) =>
      if s.nodes[n].height == 0 {
        LeafOk(s, x, t);
      } else if Link(s, n, ChildIndex(rest, s.nodes[n].height)) != NULL {
        DescendOk(s, x, t);
      } else {
        CreateOk(s, x, t);
      }
    case AtCas(i, rest, n, _) =>
      if Link(s, n, ChildIndex(rest, s.nodes[n].height)) == NULL { CasLinksOk(s, x, t); } else { CasFailsOk(s, x, t); }
    case AtDone(_, _, _) => BeginOk(s, x, Run(t));
    case ExtLoad => ExtendLooksOk(s, x, t);
    case ExtCas(_, _) => GrowOk(s, x, t);
    case ExtTree(_, _) => MakeRootOk(s, x, t);
    case ExtTreeCas(_, _, _) => PutRootOk(s, x, t);
  }

  lemma AnyStepOk(s: State, x: Aux, a: Step)
    requires Local(s, x, a.t) && Enabled(s, a) && |x.prefix| == |s.nodes|
    ensures StepOk(s, x, Next(s, a), AuxNext(s, a, x), a.t)
  {
    hide StepOk, Local;
    if a.Run? {
      RunOk(s, x, a.t);
    } else {
      BeginOk(s, x, a);
    }
  }

  /** Every step of every thread keeps the tree. */
  lemma StepKeeps(s: State, x: Aux, a: Step)
    requires Inv(s, x) && Enabled(s, a)
    ensures |x.prefix| == |s.nodes| && Inv(Next(s, a), AuxNext(s, a, x))
    ensures StepOk(s, x, Next(s, a), AuxNext(s, a, x), a.t)
  {
    assert Local(s, x, a.t) && |x.prefix| == |s.nodes|;
    hide Inv, StepOk, Local, Next;
    AnyStepOk(s, x, a);
    Frame(s, x, Next(s, a), AuxNext(s, a, x), a.t);
  }

  // ---------------------------------------------------------------- whole runs

  ghost predicate IsRun(states: seq<State>, steps: seq<Step>) {
    && |states| == |steps| + 1 && Init(states[0])
    && forall i :: 0 <= i < |steps| ==> Enabled(states[i], steps[i]) && states[i + 1] == Next(states[i], steps[i])
  }

  lemma InitOk(s: State)
    requires Init(s)
    ensures Inv(s, Aux([0]))
  {
    FitsMeans(Extent(0, s.exp));
  }

  ghost function AuxAt(states: seq<State>, steps: seq<Step>, n: nat): (x: Aux)
    requires IsRun(states, steps) && n <= |steps|
    ensures Inv(states[n], x)
  {
    if n == 0 then
      InitOk(states[0]);
      Aux([0])
    else
      var x := AuxAt(states, steps, n - 1);
      StepKeeps(states[n - 1], x, steps[n - 1]);
      AuxNext(states[n - 1], steps[n - 1], x)
  }

  /** Every thread inside a call can take its next step without a fault, in every reachable state. */
  lemma RunsAreSafe(states: seq<State>, steps: seq<Step>, n: nat, t: nat)
    requires IsRun(states, steps) && n <= |steps| && t < |states[n].threads| && !states[n].threads[t].Idle?
    ensures Enabled(states[n], Run(t))
  {
    var x := AuxAt(states, steps, n);
    assert Local(states[n], x, t);
    hide IsRun, Enabled, Local, Inv;
    StepInBounds(states[n], x, t);
  }

  /** The tree has a slot for every index below the size, in every reachable state. */
  lemma SizeFits(states: seq<State>, steps: seq<Step>, n: nat)
    requires IsRun(states, steps) && n <= |steps|
    ensures IsNode(states[n], states[n].root)
    ensures Pow2(states[n].exp) <= Capacity(states[n].nodes[states[n].root].height + 1)
  {
    var x := AuxAt(states, steps, n);
  }

  /** Node `n` is linked, has height `h`, and its indices share the prefix `p`. */
  predicate Placed(s: State, x: Aux, n: int, h: nat, p: nat) {
    IsNode(s, n) && Linked(x, n) && s.nodes[n].height == h && x.prefix[n] == p
  }

  ghost predicate PlacesKept(s: State, x: Aux, s': State, x': Aux) {
    forall n, h, p :: Placed(s, x, n, h, p) ==> Placed(s', x', n, h, p)
  }

  lemma StepKeepsPlaces(s: State, x: Aux, a: Step)
    requires Inv(s, x) && Enabled(s, a)
    ensures |x.prefix| == |s.nodes| && PlacesKept(s, x, Next(s, a), AuxNext(s, a, x))
  {
    StepKeeps(s, x, a);
    hide Inv, Next, AuxNext, TreeOk, SizeOk, ThreadOk;
  }

  lemma RunKeepsPlaces(states: seq<State>, steps: seq<Step>, n: nat, node: int, h: nat, p: nat)
    requires IsRun(states, steps) && 0 < n <= |steps| && Placed(states[n - 1], AuxAt(states, steps, n - 1), node, h, p)
    ensures Placed(states[n], AuxAt(states, steps, n), node, h, p)
  {
    PlacesKeptAt(states, steps, n);
    hide AuxAt, Placed, IsRun;
  }

  lemma PlacesKeptAt(states: seq<State>, steps: seq<Step>, n: nat)
    requires IsRun(states, steps) && 0 < n <= |steps|
    ensures PlacesKept(states[n - 1], AuxAt(states, steps, n - 1), states[n], AuxAt(states, steps, n))
  {
    hide Inv, Next, Enabled, AuxNext, PlacesKept;
    StepKeepsPlaces(states[n - 1], AuxAt(states, steps, n - 1), steps[n - 1]);
  }

  lemma RunLength(states: seq<State>, steps: seq<Step>)
    requires IsRun(states, steps)
    ensures |states| == |steps| + 1
  {
  }

  /** A linked node keeps its height and its place. */
  lemma {:induction false} PlacesAreForever(states: seq<State>, steps: seq<Step>, m: nat, n: nat, node: int, h: nat,
      p: nat)
    requires IsRun(states, steps) && m <= n <= |steps| && Placed(states[m], AuxAt(states, steps, m), node, h, p)
    ensures Placed(states[n], AuxAt(states, steps, n), node, h, p)
    decreases n
  {
    hide *;
    RunLength(states, steps);
    if m < n {
      PlacesAreForever(states, steps, m, n - 1, node, h, p);
      RunKeepsPlaces(states, steps, n, node, h, p);
    }
  }

  lemma DoneMeans(s: State, x: Aux, t: nat)
    requires Inv(s, x) && t < |s.threads| && s.threads[t].AtDone?
    ensures var pc := s.threads[t]; Placed(s, x, pc.leaf, 0, pc.i / SLOTS) && pc.offset == pc.i % SLOTS
  {
  }

  lemma PlaceIsUnique(s: State, x: Aux, n: int, m: int, h: nat, p: nat)
    requires Inv(s, x) && Placed(s, x, n, h, p) && Placed(s, x, m, h, p)
    ensures n == m
  {
    assert SamePlace(s, x, n, m);
  }

  /**
    `operator[]` is a function of the index alone and injective: two calls, by any threads, at any
    two instants of a run, get the same slot if and only if they asked for the same index, whatever
    nodes were created and however often the table was extended in between.
  */
  lemma SlotsAreFixed(states: seq<State>, steps: seq<Step>, m: nat, n: nat, t: nat, u: nat)
    requires IsRun(states, steps) && m <= n <= |steps|
    requires t < |states[m].threads| && states[m].threads[t].AtDone?
    requires u < |states[n].threads| && states[n].threads[u].AtDone?
    ensures var a, b := states[m].threads[t], states[n].threads[u];
            (a.leaf == b.leaf && a.offset == b.offset) <==> a.i == b.i
  {
    var a, b := states[m].threads[t], states[n].threads[u];
    var x := AuxAt(states, steps, n);
    DoneMeans(states[m], AuxAt(states, steps, m), t);
    DoneMeans(states[n], x, u);
    PlacesAreForever(states, steps, m, n, a.leaf, 0, a.i / SLOTS);
    hide Inv, IsRun;
    if a.i == b.i {
      PlaceIsUnique(states[n], x, a.leaf, b.leaf, 0, a.i / SLOTS);
    }
  }
}
