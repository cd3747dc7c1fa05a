/** The heap of gps/utils/LocHeap.cpp as values: what push, pop and remove make of
    the tree of nodes. The class in LocHeap.dfy performs the same operations in
    place, by swapping data and cutting links, and is proved equal to these
    functions; what the operations promise is proved here.

    A stored object is a T: equality on T is pointer identity, and "ranks" is the
    virtual method by which two objects are compared. */
module HeapTree {

  import opened Wrappers

  // size is the node's own counter, which the operations maintain by hand.
  datatype Tree<T> = Leaf | Node(size: int, data: T, left: Tree<T>, right: Tree<T>)

  predicate OutRanks<T>(ranks: (T, T) -> int, a: T, b: T) {
    ranks(a, b) > 0
  }

  ghost predicate TotalPreorder<T(!new)>(ranks: (T, T) -> int) {
    && (forall a, b :: OutRanks(ranks, a, b) ==> !OutRanks(ranks, b, a))
    && (forall a, b, c :: !OutRanks(ranks, a, b) && !OutRanks(ranks, b, c) ==> !OutRanks(ranks, a, c))
  }

  function Single<T>(x: T): Tree<T> {
    Node(1, x, Leaf, Leaf)
  }

  // ---------- The three operations ----------

  // The smaller subtree gets the new node; on a tie the left one does.
  predicate PushesLeft<T>(l: Tree<T>, r: Tree<T>) {
    l.Leaf? || (r.Node? && l.size <= r.size)
  }

  function Push<T>(ranks: (T, T) -> int, t: Tree<T>, x: T): Tree<T> {
    match t
    case Leaf => Single(x)
    case Node(s, d, l, r) =>
      var (high, low) := if OutRanks(ranks, x, d) then (x, d) else (d, x);
      if PushesLeft(l, r) then Node(s + 1, high, Push(ranks, l, low), r)
      else Node(s + 1, high, l, Push(ranks, r, low))
  }

  // The child whose data replaces the top; on a tie the right one.
  predicate PullsLeft<T>(ranks: (T, T) -> int, l: Tree<T>, r: Tree<T>) {
    l.Node? && (r.Leaf? || OutRanks(ranks, l.data, r.data))
  }

  function Pop<T>(ranks: (T, T) -> int, t: Tree<T>): Tree<T>
    requires t.Node?
  {
    var Node(s, d, l, r) := t;
    if l.Leaf? && r.Leaf? then Leaf
    else if PullsLeft(ranks, l, r) then Node(s - 1, l.data, Pop(ranks, l), r)
    else Node(s - 1, r.data, l, Pop(ranks, r))
  }

  datatype Removal<T> = Removal(found: bool, rest: Tree<T>)

  function Remove<T(==)>(ranks: (T, T) -> int, t: Tree<T>, x: T): Removal<T> {
    match t
    case Leaf => Removal(false, Leaf)
    case Node(s, d, l, r) =>
      if x == d then Removal(true, Pop(ranks, t))
      else if OutRanks(ranks, x, d) then Removal(false, t)
      else
        var inLeft := Remove(ranks, l, x);
        if inLeft.found then Removal(true, Node(s - 1, d, inLeft.rest, r))
        else
          var inRight := Remove(ranks, r, x);
          if inRight.found then Removal(true, Node(s - 1, d, l, inRight.rest))
          else Removal(false, t)
  }

  function Top<T>(t: Tree<T>): Option<T> {
    if t.Leaf? then None else Some(t.data)
  }

  // ---------- What a good heap is ----------

  function Elements<T>(t: Tree<T>): multiset<T> {
    match t
    case Leaf => multiset{}
    case Node(_, d, l, r) => Elements(l) + multiset{d} + Elements(r)
  }

  function Count<T>(t: Tree<T>): nat {
    match t
    case Leaf => 0
    case Node(_, _, l, r) => 1 + Count(l) + Count(r)
  }

  // Every counter is the number of nodes of its subtree.
  ghost predicate SizesExact<T>(t: Tree<T>) {
    t.Node? ==> t.size == Count(t) && SizesExact(t.left) && SizesExact(t.right)
  }

  // x is outranked by no element of t.
  ghost predicate Highest<T>(ranks: (T, T) -> int, x: T, t: Tree<T>) {
    forall y | y in Elements(t) :: !OutRanks(ranks, y, x)
  }

  // At every node, no element of the whole subtree outranks the node.
  ghost predicate Ordered<T>(ranks: (T, T) -> int, t: Tree<T>) {
    t.Node? ==>
      && Highest(ranks, t.data, t.left) && Highest(ranks, t.data, t.right)
      && Ordered(ranks, t.left) && Ordered(ranks, t.right)
  }

  ghost predicate Good<T>(ranks: (T, T) -> int, t: Tree<T>) {
    Ordered(ranks, t) && SizesExact(t)
  }

  // ---------- checkNodes: the source's own consistency check ----------

  predicate CheckNodes<T>(ranks: (T, T) -> int, t: Tree<T>)
    requires t.Node?
  {
    var Node(s, d, l, r) := t;
    && (l.Node? ==> !OutRanks(ranks, l.data, d) && CheckNodes(ranks, l))
    && (r.Node? ==> !OutRanks(ranks, r.data, d) && CheckNodes(ranks, r))
    && s - (if l.Node? then l.size else 0) - (if r.Node? then r.size else 0) == 1
  }

  // A top that outranks, and is not outranked by, the tops of its subtrees is the highest of all.
  lemma HighestByTops<T(!new)>(ranks: (T, T) -> int, x: T, t: Tree<T>)
    requires TotalPreorder(ranks) && Ordered(ranks, t) && t.Node? && !OutRanks(ranks, t.data, x)
    ensures Highest(ranks, x, t)
  {
    forall y | y in Elements(t) ensures !OutRanks(ranks, y, x) {
      assert !OutRanks(ranks, y, t.data);
    }
  }

  // The check looks at neighbours only, yet it decides the global property.
  lemma {:induction false} CheckNodesDecidesGood<T(!new)>(ranks: (T, T) -> int, t: Tree<T>)
    requires TotalPreorder(ranks) && t.Node?
    ensures CheckNodes(ranks, t) <==> Good(ranks, t)
    decreases t, 0
  {
    CheckChild(ranks, t.data, t.left);
    CheckChild(ranks, t.data, t.right);
    var Node(s, d, l, r) := t;
    if Good(ranks, l) && Good(ranks, r) {
      assert Count(l) == if l.Node? then l.size else 0;
      assert Count(r) == if r.Node? then r.size else 0;
      assert SizesExact(t) <==> s - (if l.Node? then l.size else 0) - (if r.Node? then r.size else 0) == 1;
      assert Ordered(ranks, t) <==>
        (l.Node? ==> !OutRanks(ranks, l.data, d)) && (r.Node? ==> !OutRanks(ranks, r.data, d));
    }
  }

  lemma {:induction false} CheckChild<T(!new)>(ranks: (T, T) -> int, x: T, t: Tree<T>)
    requires TotalPreorder(ranks)
    ensures t.Node? ==> (CheckNodes(ranks, t) <==> Good(ranks, t))
    ensures t.Node? && Good(ranks, t) ==> (!OutRanks(ranks, t.data, x) <==> Highest(ranks, x, t))
    decreases t, 1
  {
    if t.Node? {
      CheckNodesDecidesGood(ranks, t);
      assert t.data in Elements(t);
      if Good(ranks, t) && !OutRanks(ranks, t.data, x) {
        HighestByTops(ranks, x, t);
      }
    }
  }

  // ---------- push ----------

  lemma Exchange<T>(a: multiset<T>, b: multiset<T>, high: T, low: T, x: T, d: T)
    requires (high, low) == (x, d) || (high, low) == (d, x)
    ensures (a + multiset{low}) + multiset{high} + b == a + multiset{d} + b + multiset{x}
    ensures a + multiset{high} + (b + multiset{low}) == a + multiset{d} + b + multiset{x}
  {}

  lemma {:induction false} PushElements<T>(ranks: (T, T) -> int, t: Tree<T>, x: T)
    ensures Elements(Push(ranks, t, x)) == Elements(t) + multiset{x}
  {
    if t.Node? {
      var Node(s, d, l, r) := t;
      var (high, low) := if OutRanks(ranks, x, d) then (x, d) else (d, x);
      PushElements(ranks, if PushesLeft(l, r) then l else r, low);
      Exchange(Elements(l), Elements(r), high, low, x, d);
    }
  }

  lemma {:induction false} PushSizes<T>(ranks: (T, T) -> int, t: Tree<T>, x: T)
    ensures Count(Push(ranks, t, x)) == Count(t) + 1
    ensures SizesExact(t) ==> SizesExact(Push(ranks, t, x))
  {
    if t.Node? {
      var Node(s, d, l, r) := t;
      var low := if OutRanks(ranks, x, d) then d else x;
      PushSizes(ranks, if PushesLeft(l, r) then l else r, low);
    }
  }

  lemma {:induction false} PushOrdered<T(!new)>(ranks: (T, T) -> int, t: Tree<T>, x: T)
    requires TotalPreorder(ranks) && Ordered(ranks, t)
    ensures Ordered(ranks, Push(ranks, t, x))
  {
    if t.Node? {
      var Node(s, d, l, r) := t;
      var (high, low) := if OutRanks(ranks, x, d) then (x, d) else (d, x);
      var grown := if PushesLeft(l, r) then l else r;
      PushOrdered(ranks, grown, low);
      HighestOfBoth(ranks, high, d, l);
      HighestOfBoth(ranks, high, d, r);
      HighestAfterPush(ranks, high, grown, low);
    }
  }

  lemma HighestAfterPush<T(!new)>(ranks: (T, T) -> int, high: T, t: Tree<T>, low: T)
    requires Highest(ranks, high, t) && !OutRanks(ranks, low, high)
    ensures Highest(ranks, high, Push(ranks, t, low))
  {
    PushElements(ranks, t, low);
  }

  // What is at least as high as the highest of a tree is the highest of that tree.
  lemma HighestOfBoth<T(!new)>(ranks: (T, T) -> int, high: T, d: T, t: Tree<T>)
    requires TotalPreorder(ranks) && Highest(ranks, d, t) && !OutRanks(ranks, d, high)
    ensures Highest(ranks, high, t)
  {
    forall y | y in Elements(t) ensures !OutRanks(ranks, y, high) {
      assert !OutRanks(ranks, y, d);
    }
  }

  lemma PushKeepsGood<T(!new)>(ranks: (T, T) -> int, t: Tree<T>, x: T)
    requires TotalPreorder(ranks) && Good(ranks, t)
    ensures Good(ranks, Push(ranks, t, x))
    ensures Elements(Push(ranks, t, x)) == Elements(t) + multiset{x}
  {
    PushElements(ranks, t, x);
    PushSizes(ranks, t, x);
    PushOrdered(ranks, t, x);
  }

  // The top changes exactly when the new object outranks it.
  lemma PushTop<T(!new)>(ranks: (T, T) -> int, t: Tree<T>, x: T)
    ensures Top(Push(ranks, t, x)) ==
            Some(if t.Leaf? || OutRanks(ranks, x, t.data) then x else t.data)
  {}

  // ---------- pop ----------

  lemma {:induction false} PopElements<T>(ranks: (T, T) -> int, t: Tree<T>)
    requires t.Node?
    ensures Elements(t) == Elements(Pop(ranks, t)) + multiset{t.data}
  {
    var Node(s, d, l, r) := t;
    if PullsLeft(ranks, l, r) {
      PopElements(ranks, l);
    } else if r.Node? {
      PopElements(ranks, r);
    }
  }

  lemma {:induction false} PopSizes<T>(ranks: (T, T) -> int, t: Tree<T>)
    requires t.Node?
    ensures Count(t) == Count(Pop(ranks, t)) + 1
    ensures SizesExact(t) ==> SizesExact(Pop(ranks, t))
  {
    var Node(s, d, l, r) := t;
    if PullsLeft(ranks, l, r) {
      PopSizes(ranks, l);
    } else if r.Node? {
      PopSizes(ranks, r);
    }
  }

  lemma {:induction false} PopOrdered<T(!new)>(ranks: (T, T) -> int, t: Tree<T>)
    requires TotalPreorder(ranks) && Ordered(ranks, t) && t.Node?
    ensures Ordered(ranks, Pop(ranks, t))
  {
    var Node(s, d, l, r) := t;
    if PullsLeft(ranks, l, r) {
      PopOrdered(ranks, l);
      PulledUp(ranks, l, r);
    } else if r.Node? {
      PopOrdered(ranks, r);
      PulledUp(ranks, r, l);
    }
  }

  // The top of the winning subtree may stand above what is left of both.
  lemma PulledUp<T(!new)>(ranks: (T, T) -> int, winner: Tree<T>, other: Tree<T>)
    requires TotalPreorder(ranks) && Ordered(ranks, winner) && Ordered(ranks, other) && winner.Node?
    requires other.Node? ==> !OutRanks(ranks, other.data, winner.data)
    ensures Highest(ranks, winner.data, other) && Highest(ranks, winner.data, Pop(ranks, winner))
  {
    PopElements(ranks, winner);
    TopIsHighest(ranks, winner);
    if other.Node? {
      HighestByTops(ranks, winner.data, other);
    }
  }

  lemma TopIsHighest<T(!new)>(ranks: (T, T) -> int, t: Tree<T>)
    requires TotalPreorder(ranks) && Ordered(ranks, t) && t.Node?
    ensures Highest(ranks, t.data, t)
  {
    assert !OutRanks(ranks, t.data, t.data);
  }

  lemma PopKeepsGood<T(!new)>(ranks: (T, T) -> int, t: Tree<T>)
    requires TotalPreorder(ranks) && Good(ranks, t) && t.Node?
    ensures Good(ranks, Pop(ranks, t))
    ensures Elements(t) == Elements(Pop(ranks, t)) + multiset{t.data}
    ensures Highest(ranks, t.data, t)
  {
    PopElements(ranks, t);
    PopSizes(ranks, t);
    PopOrdered(ranks, t);
    TopIsHighest(ranks, t);
  }

  // ---------- remove ----------

  // An object that outranks the top of a good heap is nowhere in it: pruning is safe.
  lemma PrunedSubtreeLacksIt<T(!new)>(ranks: (T, T) -> int, t: Tree<T>, x: T)
    requires TotalPreorder(ranks) && Ordered(ranks, t) && t.Node? && OutRanks(ranks, x, t.data)
    ensures x !in Elements(t)
  {
    assert !OutRanks(ranks, x, x);
  }

  // Whatever is removed, the rest is the tree without it, and every counter stays exact.
  ghost predicate TookOut<T>(t: Tree<T>, o: Removal<T>, x: T) {
    && (!o.found ==> o.rest == t)
    && (o.found ==> Elements(t) == Elements(o.rest) + multiset{x})
  }

  lemma {:induction false} RemoveElements<T>(ranks: (T, T) -> int, t: Tree<T>, x: T)
    ensures TookOut(t, Remove(ranks, t, x), x)
  {
    if t.Node? {
      if x == t.data {
        PopElements(ranks, t);
      } else {
        RemoveElements(ranks, t.left, x);
        RemoveElements(ranks, t.right, x);
        TakenOut(Elements(t.left), Elements(t.right), t.data, x, Elements(Remove(ranks, t.left, x).rest));
        TakenOut(Elements(t.left), Elements(t.right), t.data, x, Elements(Remove(ranks, t.right, x).rest));
      }
    }
  }

  lemma TakenOut<T>(l: multiset<T>, r: multiset<T>, d: T, x: T, rest: multiset<T>)
    ensures l == rest + multiset{x} ==> l + multiset{d} + r == (rest + multiset{d} + r) + multiset{x}
    ensures r == rest + multiset{x} ==> l + multiset{d} + r == (l + multiset{d} + rest) + multiset{x}
  {}

  lemma {:induction false} RemoveSizes<T>(ranks: (T, T) -> int, t: Tree<T>, x: T)
    ensures var o := Remove(ranks, t, x);
      && Count(t) == Count(o.rest) + (if o.found then 1 else 0)
      && (SizesExact(t) ==> SizesExact(o.rest))
  {
    if t.Node? {
      RemoveSizes(ranks, t.left, x);
      RemoveSizes(ranks, t.right, x);
      PopSizes(ranks, t);
    }
  }

  lemma {:induction false} RemoveOrdered<T(!new)>(ranks: (T, T) -> int, t: Tree<T>, x: T)
    requires TotalPreorder(ranks) && Ordered(ranks, t)
    ensures Ordered(ranks, Remove(ranks, t, x).rest)
  {
    if t.Node? {
      if x == t.data {
        PopOrdered(ranks, t);
      } else {
        RemoveOrdered(ranks, t.left, x);
        RemoveOrdered(ranks, t.right, x);
        HighestAfterRemove(ranks, t.data, t.left, x);
        HighestAfterRemove(ranks, t.data, t.right, x);
      }
    }
  }

  lemma HighestAfterRemove<T>(ranks: (T, T) -> int, high: T, t: Tree<T>, x: T)
    requires Highest(ranks, high, t)
    ensures Highest(ranks, high, Remove(ranks, t, x).rest)
  {
    RemoveElements(ranks, t, x);
  }

  lemma {:induction false} RemoveFindsIt<T(!new)>(ranks: (T, T) -> int, t: Tree<T>, x: T)
    requires TotalPreorder(ranks) && Ordered(ranks, t)
    ensures Remove(ranks, t, x).found <==> x in Elements(t)
  {
    if t.Node? {
      RemoveFindsIt(ranks, t.left, x);
      RemoveFindsIt(ranks, t.right, x);
      if x != t.data && OutRanks(ranks, x, t.data) {
        PrunedSubtreeLacksIt(ranks, t, x);
      }
    }
  }

  lemma RemoveKeepsGood<T(!new)>(ranks: (T, T) -> int, t: Tree<T>, x: T)
    requires TotalPreorder(ranks) && Good(ranks, t)
    ensures var o := Remove(ranks, t, x);
      && Good(ranks, o.rest)
      && (o.found <==> x in Elements(t))
      && (if o.found then Elements(t) == Elements(o.rest) + multiset{x} else o.rest == t)
  {
    RemoveElements(ranks, t, x);
    RemoveSizes(ranks, t, x);
    RemoveOrdered(ranks, t, x);
    RemoveFindsIt(ranks, t, x);
  }

  // Removing an object below the top leaves the top alone.
  lemma RemoveTop<T(!new)>(ranks: (T, T) -> int, t: Tree<T>, x: T)
    requires t.Node? && t.data != x
    ensures Top(Remove(ranks, t, x).rest) == Some(t.data)
  {}

  // ---------- Only the order matters ----------

  // Two rankings agree on the objects at hand, which are all within some family.
  ghost predicate AgreeOn<T(!new)>(ranks: (T, T) -> int, other: (T, T) -> int, within: T -> bool, t: Tree<T>) {
    && (forall a, b | within(a) && within(b) :: OutRanks(ranks, a, b) <==> OutRanks(other, a, b))
    && forall y | y in Elements(t) :: within(y)
  }

  lemma {:induction false} SameOrderSamePush<T(!new)>(
    ranks: (T, T) -> int, other: (T, T) -> int, within: T -> bool, t: Tree<T>, x: T)
    requires AgreeOn(ranks, other, within, t) && within(x)
    ensures Push(ranks, t, x) == Push(other, t, x)
  {
    if t.Node? {
      assert t.data in Elements(t);
      var low := if OutRanks(ranks, x, t.data) then t.data else x;
      SameOrderSamePush(ranks, other, within, if PushesLeft(t.left, t.right) then t.left else t.right, low);
    }
  }

  lemma {:induction false} SameOrderSamePop<T(!new)>(
    ranks: (T, T) -> int, other: (T, T) -> int, within: T -> bool, t: Tree<T>)
    requires AgreeOn(ranks, other, within, t) && t.Node?
    ensures Pop(ranks, t) == Pop(other, t)
  {
    if t.left.Node? && t.right.Node? {
      assert t.left.data in Elements(t) && t.right.data in Elements(t);
    }
    if t.left.Node? || t.right.Node? {
      SameOrderSamePop(ranks, other, within, if PullsLeft(ranks, t.left, t.right) then t.left else t.right);
    }
  }

  lemma {:induction false} SameOrderSameRemove<T(!new)>(
    ranks: (T, T) -> int, other: (T, T) -> int, within: T -> bool, t: Tree<T>, x: T)
    requires AgreeOn(ranks, other, within, t) && within(x)
    ensures Remove(ranks, t, x) == Remove(other, t, x)
  {
    if t.Node? {
      assert t.data in Elements(t);
      if x == t.data {
        SameOrderSamePop(ranks, other, within, t);
      } else {
        SameOrderSameRemove(ranks, other, within, t.left, x);
        SameOrderSameRemove(ranks, other, within, t.right, x);
      }
    }
  }

  // ---------- Shape of a heap that was only pushed to ----------

  function PushAll<T>(ranks: (T, T) -> int, xs: seq<T>): Tree<T> {
    if xs == [] then Leaf else Push(ranks, PushAll(ranks, xs[..|xs| - 1]), xs[|xs| - 1])
  }

  ghost predicate Balanced<T>(t: Tree<T>) {
    t.Node? ==> 0 <= Count(t.left) - Count(t.right) <= 1 && Balanced(t.left) && Balanced(t.right)
  }

  function Height<T>(t: Tree<T>): nat {
    match t
    case Leaf => 0
    case Node(_, _, l, r) => 1 + if Height(l) >= Height(r) then Height(l) else Height(r)
  }

  function Pow2(n: nat): nat {
    if n == 0 then 1 else 2 * Pow2(n - 1)
  }

  lemma {:induction false} PushKeepsBalanced<T(!new)>(ranks: (T, T) -> int, t: Tree<T>, x: T)
    requires SizesExact(t) && Balanced(t)
    ensures Balanced(Push(ranks, t, x))
  {
    if t.Node? {
      var Node(s, d, l, r) := t;
      var low := if OutRanks(ranks, x, d) then d else x;
      var grown := if PushesLeft(l, r) then l else r;
      PushKeepsBalanced(ranks, grown, low);
      PushSizes(ranks, grown, low);
    }
  }

  lemma {:induction false} Pow2Monotone(a: nat, b: nat)
    requires a <= b
    ensures Pow2(a) <= Pow2(b)
  {
    if a < b {
      Pow2Monotone(a, b - 1);
    }
  }

  // Of two balanced trees the one with more nodes is at least as high.
  lemma {:induction false} HeightMonotone<T>(t: Tree<T>, u: Tree<T>)
    requires Balanced(t) && Balanced(u) && Count(t) <= Count(u)
    ensures Height(t) <= Height(u)
    decreases Count(t)
  {
    if t.Node? {
      assert Count(t.left) <= Count(u.left);
      HeightMonotone(t.left, u.left);
      HeightMonotone(t.right, t.left);
    }
  }

  lemma {:induction false} BalancedIsShallow<T>(t: Tree<T>)
    requires Balanced(t) && t.Node?
    ensures Pow2(Height(t) - 1) <= Count(t)
  {
    HeightMonotone(t.right, t.left);
    if t.left.Node? {
      BalancedIsShallow(t.left);
    }
  }

  // A heap built by pushes alone is as shallow as its number of nodes allows.
  lemma {:induction false} PushAllIsShallow<T(!new)>(ranks: (T, T) -> int, xs: seq<T>)
    ensures var t := PushAll(ranks, xs);
      && Balanced(t) && SizesExact(t) && Count(t) == |xs|
      && (xs != [] ==> Pow2(Height(t) - 1) <= |xs|)
  {
    if xs != [] {
      var rest := xs[..|xs| - 1];
      PushAllIsShallow(ranks, rest);
      PushKeepsBalanced(ranks, PushAll(ranks, rest), xs[|xs| - 1]);
      PushSizes(ranks, PushAll(ranks, rest), xs[|xs| - 1]);
      BalancedIsShallow(PushAll(ranks, xs));
    }
  }
}
