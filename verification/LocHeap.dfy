/** gps/utils/LocHeap.cpp in its own form: nodes linked by pointers, changed in place.
    Every method is proved equal to the function of HeapTree that specifies it. */
module LocHeap {

  import opened Wrappers
  import opened HeapTree

  class LocHeapNode<T(==)> {
    var mSize: int
    var mLeft: LocHeapNode?<T>
    var mRight: LocHeapNode?<T>
    var mData: T

    // The nodes of this subtree, and the subtree as a value.
    ghost var Repr: set<LocHeapNode<T>>
    ghost var Model: Tree<T>

    ghost predicate Valid()
      reads this, Repr
      decreases Repr
      ensures Valid() ==> this in Repr && Model.Node? && Model.data == mData && Model.size == mSize
    {
      && this in Repr
      && (mLeft != null ==>
            mLeft in Repr && mLeft.Repr <= Repr && this !in mLeft.Repr && mLeft.Valid())
      && (mRight != null ==>
            mRight in Repr && mRight.Repr <= Repr && this !in mRight.Repr && mRight.Valid())
      && (mLeft != null && mRight != null ==> mLeft.Repr !! mRight.Repr)
      && Model == Node(mSize, mData, ModelOf(mLeft), ModelOf(mRight))
    }

    static ghost function ReprOf(n: LocHeapNode?<T>): set<LocHeapNode<T>>
      reads n
    {
      if n == null then {} else n.Repr
    }

    static ghost function ModelOf(n: LocHeapNode?<T>): Tree<T>
      reads n
    {
      if n == null then Leaf else n.Model
    }

    // A node with no links, as the constructor makes it and as a popped node must be:
    // deleting a node deletes whatever is linked below it.
    ghost predicate Detached()
      reads this
    {
      mLeft == null && mRight == null
    }

    constructor (data: T)
      ensures Valid() && fresh(Repr) && Repr == {this}
      ensures Detached() && Model == Single(data)
    {
      mSize, mLeft, mRight, mData := 1, null, null, data;
      Repr := {this};
      Model := Single(data);
    }

    // Brings the ghost fields up to date after a change of this node or of its children.
    ghost method Refresh()
      requires mLeft != null ==> mLeft.Valid() && this !in mLeft.Repr
      requires mRight != null ==> mRight.Valid() && this !in mRight.Repr
      requires mLeft != null && mRight != null ==> mLeft.Repr !! mRight.Repr
      modifies this`Repr, this`Model
      ensures Valid()
      ensures Repr == {this} + ReprOf(mLeft) + ReprOf(mRight)
      ensures Model == Node(mSize, mData, ModelOf(mLeft), ModelOf(mRight))
    {
      Repr := {this} + ReprOf(mLeft) + ReprOf(mRight);
      Model := Node(mSize, mData, ModelOf(mLeft), ModelOf(mRight));
    }

    // Only the data of the two nodes changes places.
    static method SwapData(a: LocHeapNode<T>, b: LocHeapNode<T>)
      requires a != b
      modifies a`mData, b`mData, b`Model
      requires b.Valid() && a !in b.Repr
      ensures a.mData == old(b.mData) && b.mData == old(a.mData)
      ensures b.Valid() && b.Model == old(b.Model).(data := b.mData)
    {
      a.mData, b.mData := b.mData, a.mData;
      b.Model := b.Model.(data := b.mData);
    }

    method SwapWithNew(node: LocHeapNode<T>)
      requires Valid() && node.Valid() && node !in Repr && this !in node.Repr
      modifies `mData, `Model, node`mData, node`Model
      ensures Valid() && node.Valid()
      ensures Model == old(Model).(data := old(node.mData))
      ensures node.Model == old(node.Model).(data := old(mData))
    {
      SwapData(this, node);
      Model := Model.(data := mData);
    }

    method PushNode(ranks: (T, T) -> int, node: LocHeapNode<T>)
      requires Valid() && node.Valid() && node.Detached() && node.mSize == 1 && node.Repr == {node}
      requires node !in Repr
      modifies Repr, node
      ensures Valid() && Repr <= old(Repr) + {node}
      ensures Model == Push(ranks, old(Model), old(node.mData))
      decreases Repr, 2
    {
      if OutRanks(ranks, node.mData, mData) {
        SwapWithNew(node);
      }
      PushBelow(ranks, node);
    }

    // Drops a new node, already known not to rank above this one, into a subtree.
    method PushBelow(ranks: (T, T) -> int, node: LocHeapNode<T>)
      requires Valid() && node.Valid() && node.Detached() && node.mSize == 1 && node.Repr == {node} && node !in Repr
      modifies Repr, node
      ensures Valid() && Repr <= old(Repr) + {node}
      ensures var Node(s, d, l, r) := old(Model);
        Model == if PushesLeft(l, r) then Node(s + 1, d, Push(ranks, l, old(node.mData)), r)
                 else Node(s + 1, d, l, Push(ranks, r, old(node.mData)))
      decreases Repr, 1
    {
      if mLeft == null || (mRight != null && mLeft.mSize <= mRight.mSize) {
        PushLeft(ranks, node);
      } else {
        PushRight(ranks, node);
      }
      mSize := mSize + 1;
      Refresh();
    }

    method PushLeft(ranks: (T, T) -> int, node: LocHeapNode<T>)
      requires Valid() && node.Valid() && node.Detached() && node.mSize == 1 && node.Repr == {node} && node !in Repr
      modifies `mLeft, ReprOf(mLeft), node
      ensures mLeft != null && mLeft.Valid() && mLeft.Repr <= old(ReprOf(mLeft)) + {node}
      ensures mLeft.Model == Push(ranks, old(ModelOf(mLeft)), old(node.mData))
      ensures mRight != null ==> mRight.Valid()
      decreases Repr, 0
    {
      if mLeft == null {
        mLeft := node;
      } else {
        mLeft.PushNode(ranks, node);
      }
    }

    method PushRight(ranks: (T, T) -> int, node: LocHeapNode<T>)
      requires Valid() && node.Valid() && node.Detached() && node.mSize == 1 && node.Repr == {node} && node !in Repr
      modifies `mRight, ReprOf(mRight), node
      ensures mRight != null && mRight.Valid() && mRight.Repr <= old(ReprOf(mRight)) + {node}
      ensures mRight.Model == Push(ranks, old(ModelOf(mRight)), old(node.mData))
      ensures mLeft != null ==> mLeft.Valid()
      decreases Repr, 0
    {
      if mRight == null {
        mRight := node;
      } else {
        mRight.PushNode(ranks, node);
      }
    }

    // The top is passed by reference: rest is what the reference holds afterwards.
    static method PopNode(ranks: (T, T) -> int, top: LocHeapNode<T>)
      returns (rest: LocHeapNode?<T>, popped: LocHeapNode<T>)
      requires top.Valid()
      modifies top.Repr
      ensures popped in old(top.Repr) && popped.Detached() && popped.mData == old(top.mData)
      ensures rest == null || (rest == top && rest.Valid())
      ensures ReprOf(rest) <= old(top.Repr) - {popped}
      ensures ModelOf(rest) == Pop(ranks, old(top.Model))
      decreases top.Repr, 1
    {
      popped := top;
      rest := top;
      top.mSize := top.mSize - 1;
      top.Model := top.Model.(size := top.mSize);
      if top.mLeft != null || top.mRight != null {
        if top.mLeft != null && (top.mRight == null || OutRanks(ranks, top.mLeft.mData, top.mRight.mData)) {
          popped := PopLeft(ranks, top);
        } else {
          popped := PopRight(ranks, top);
        }
        top.Refresh();
      } else {
        rest := null;
      }
    }

    static method PopLeft(ranks: (T, T) -> int, top: LocHeapNode<T>) returns (popped: LocHeapNode<T>)
      requires top.Valid() && top.mLeft != null
      modifies top`mData, top`mLeft, top.mLeft.Repr
      ensures popped in old(top.mLeft.Repr) && popped.Detached() && popped.mData == old(top.mData)
      ensures top.mData == old(top.mLeft.mData)
      ensures top.mLeft != null ==> top.mLeft.Valid()
      ensures ReprOf(top.mLeft) <= old(top.mLeft.Repr) - {popped}
      ensures ModelOf(top.mLeft) == Pop(ranks, old(top.mLeft.Model))
      ensures top.mRight != null ==> top.mRight.Valid()
      decreases top.Repr, 0
    {
      SwapData(top, top.mLeft);
      var r;
      r, popped := PopNode(ranks, top.mLeft);
      top.mLeft := r;
    }

    static method PopRight(ranks: (T, T) -> int, top: LocHeapNode<T>) returns (popped: LocHeapNode<T>)
      requires top.Valid() && top.mRight != null
      modifies top`mData, top`mRight, top.mRight.Repr
      ensures popped in old(top.mRight.Repr) && popped.Detached() && popped.mData == old(top.mData)
      ensures top.mData == old(top.mRight.mData)
      ensures top.mRight != null ==> top.mRight.Valid()
      ensures ReprOf(top.mRight) <= old(top.mRight.Repr) - {popped}
      ensures ModelOf(top.mRight) == Pop(ranks, old(top.mRight.Model))
      ensures top.mLeft != null ==> top.mLeft.Valid()
      decreases top.Repr, 0
    {
      SwapData(top, top.mRight);
      var r;
      r, popped := PopNode(ranks, top.mRight);
      top.mRight := r;
    }

    // Looks for the node that holds this very object, pruning by rank.
    static method RemoveNode(ranks: (T, T) -> int, top: LocHeapNode<T>, data: T)
      returns (rest: LocHeapNode?<T>, removed: LocHeapNode?<T>)
      requires top.Valid()
      modifies top.Repr
      ensures removed != null ==> removed in old(top.Repr) && removed.Detached() && removed.mData == data
      ensures rest == null || (rest == top && rest.Valid())
      ensures ReprOf(rest) <= old(top.Repr) - (if removed == null then {} else {removed})
      ensures Removal(removed != null, ModelOf(rest)) == Remove(ranks, old(top.Model), data)
      decreases top.Repr, 1
    {
      rest, removed := top, null;
      if data == top.mData {
        rest, removed := PopNode(ranks, top);
      } else if !OutRanks(ranks, data, top.mData) {
        if top.mLeft != null {
          removed := RemoveLeft(ranks, top, data);
        }
        if removed == null && top.mRight != null {
          removed := RemoveRight(ranks, top, data);
        }
        if removed != null {
          top.mSize := top.mSize - 1;
          top.Refresh();
        }
      }
    }

    static method RemoveLeft(ranks: (T, T) -> int, top: LocHeapNode<T>, data: T) returns (removed: LocHeapNode?<T>)
      requires top.Valid() && top.mLeft != null
      modifies top`mLeft, top.mLeft.Repr
      ensures removed != null ==> removed in old(top.mLeft.Repr) && removed.Detached() && removed.mData == data
      ensures removed == null ==> top.Valid()
      ensures top.mLeft != null ==> top.mLeft.Valid()
      ensures ReprOf(top.mLeft) <= old(top.mLeft.Repr) - (if removed == null then {} else {removed})
      ensures Removal(removed != null, ModelOf(top.mLeft)) == Remove(ranks, old(top.mLeft.Model), data)
      ensures top.mRight != null ==> top.mRight.Valid()
      decreases top.Repr, 0
    {
      var r;
      r, removed := RemoveNode(ranks, top.mLeft, data);
      top.mLeft := r;
    }

    static method RemoveRight(ranks: (T, T) -> int, top: LocHeapNode<T>, data: T) returns (removed: LocHeapNode?<T>)
      requires top.Valid() && top.mRight != null
      modifies top`mRight, top.mRight.Repr
      ensures removed != null ==> removed in old(top.mRight.Repr) && removed.Detached() && removed.mData == data
      ensures removed == null ==> top.Valid()
      ensures top.mRight != null ==> top.mRight.Valid()
      ensures ReprOf(top.mRight) <= old(top.mRight.Repr) - (if removed == null then {} else {removed})
      ensures Removal(removed != null, ModelOf(top.mRight)) == Remove(ranks, old(top.mRight.Model), data)
      ensures top.mLeft != null ==> top.mLeft.Valid()
      decreases top.Repr, 0
    {
      var r;
      r, removed := RemoveNode(ranks, top.mRight, data);
      top.mRight := r;
    }

    // The source's own test that its tree is consistent.
    method CheckNodes(ranks: (T, T) -> int) returns (ok: bool)
      requires Valid()
      ensures ok <==> HeapTree.CheckNodes(ranks, Model)
      decreases Repr
    {
      var totalSize := mSize;
      if mLeft != null {
        if OutRanks(ranks, mLeft.mData, mData) {
          return false;
        }
        var leftOk := mLeft.CheckNodes(ranks);
        if !leftOk {
          return false;
        }
        totalSize := totalSize - mLeft.mSize;
      }
      if mRight != null {
        if OutRanks(ranks, mRight.mData, mData) {
          return false;
        }
        var rightOk := mRight.CheckNodes(ranks);
        if !rightOk {
          return false;
        }
        totalSize := totalSize - mRight.mSize;
      }
      ok := totalSize == 1;
    }
  }

  class LocHeap<T(==, !new)> {
    const ranks: (T, T) -> int
    var mTree: LocHeapNode?<T>
    ghost var Repr: set<object>

    ghost predicate Valid()
      reads this, Repr
      ensures Valid() ==> this in Repr
    {
      && this in Repr
      && (mTree != null ==> mTree in Repr && mTree.Repr <= Repr && mTree.Valid())
    }

    ghost function Model(): Tree<T>
      reads this, mTree
    {
      LocHeapNode.ModelOf(mTree)
    }

    constructor (ranks: (T, T) -> int)
      ensures Valid() && fresh(Repr) && this.ranks == ranks && Model() == Leaf
    {
      this.ranks := ranks;
      mTree := null;
      Repr := {this};
    }

    method Push(node: T)
      requires Valid()
      modifies Repr
      ensures Valid() && fresh(Repr - old(Repr))
      ensures Model() == HeapTree.Push(ranks, old(Model()), node)
    {
      var heapNode := new LocHeapNode(node);
      if mTree == null {
        mTree := heapNode;
      } else {
        mTree.PushNode(ranks, heapNode);
      }
      Repr := Repr + {heapNode};
    }

    method Peek() returns (top: Option<T>)
      requires Valid()
      ensures top == Top(Model())
    {
      top := if mTree == null then None else Some(mTree.mData);
    }

    method Pop() returns (locNode: Option<T>)
      requires Valid()
      modifies Repr
      ensures Valid() && Repr == old(Repr)
      ensures locNode == Top(old(Model()))
      ensures Model() == if old(Model()).Leaf? then Leaf else HeapTree.Pop(ranks, old(Model()))
    {
      locNode := None;
      if mTree != null {
        var rest, heapNode := LocHeapNode.PopNode(ranks, mTree);
        mTree := rest;
        locNode := Some(heapNode.mData);
        // heapNode is deleted here, and with it whatever is linked below it: nothing.
        assert heapNode.Detached() && (mTree != null ==> heapNode !in mTree.Repr);
      }
    }

    method Remove(rankable: T) returns (locNode: Option<T>)
      requires Valid()
      modifies Repr
      ensures Valid() && Repr == old(Repr)
      ensures var o := HeapTree.Remove(ranks, old(Model()), rankable);
        Model() == o.rest && locNode == if o.found then Some(rankable) else None
    {
      locNode := None;
      if mTree != null {
        var rest, heapNode := LocHeapNode.RemoveNode(ranks, mTree, rankable);
        mTree := rest;
        if heapNode != null {
          locNode := Some(heapNode.mData);
          // As above, deleting heapNode frees this one node and no node of the tree.
          assert heapNode.Detached() && (mTree != null ==> heapNode !in mTree.Repr);
        }
      }
    }
  }
}
