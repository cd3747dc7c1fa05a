/** The doubly linked list of gps/utils/linked_list.c, on which the message queues of the
    library are built: elements go in at the head and come out at the tail. */
module LinkedList {

  import opened Runs
  import opened Wrappers

  datatype Status = SUCCESS | INVALID_PARAMETER | INVALID_HANDLE | UNAVAILABLE_RESOURCE

  // A dealloc function pointer, and a call of it on a data pointer.
  type Dealloc = nat
  datatype Item<T> = Item(data: T, dealloc: Option<Dealloc>)
  datatype Call<T> = Call(dealloc: Dealloc, data: T)

  // The calls that dropping an element with its data leads to.
  function Disposal<T>(item: Item<T>): seq<Call<T>> {
    if item.dealloc.Some? then [Call(item.dealloc.value, item.data)] else []
  }

  function Disposals<T>(items: seq<Item<T>>): seq<Call<T>> {
    if items == [] then [] else Disposal(items[0]) + Disposals(items[1..])
  }

  function NumberOf<T(==)>(items: seq<Item<T>>, item: Item<T>): nat {
    if items == [] then 0 else One(items[0] == item) + NumberOf(items[1..], item)
  }

  // Each element that has a dealloc function is disposed of by one call of it, on its data.
  lemma {:induction false} DisposedOfOnce<T>(items: seq<Item<T>>, call: Call<T>)
    ensures multiset(Disposals(items))[call] == NumberOf(items, Item(call.data, Some(call.dealloc)))
  {
    if items != [] {
      var first, rest := Disposal(items[0]), Disposals(items[1..]);
      DisposedOfOnce(items[1..], call);
      assert multiset(first + rest)[call] == multiset(first)[call] + multiset(rest)[call];
      assert multiset(first)[call] == One(items[0] == Item(call.data, Some(call.dealloc)));
    }
  }

  // The first element that satisfies a test, if any.
  function FirstMatch<T>(items: seq<Item<T>>, equal: T -> bool): (k: nat)
    ensures k <= |items|
    ensures k < |items| ==> equal(items[k].data)
    ensures forall i | 0 <= i < k :: !equal(items[i].data)
  {
    if items == [] || equal(items[0].data) then 0 else 1 + FirstMatch(items[1..], equal)
  }

  lemma NoDuplicatesWithout<T>(s: seq<T>, k: nat)
    requires k < |s| && NoDuplicates(s)
    ensures NoDuplicates(Without(s, k))
  {}

  function Without<T>(s: seq<T>, k: nat): seq<T>
    requires k < |s|
  {
    s[..k] + s[k + 1..]
  }

  // ---------- Adding and removing make a queue ----------

  datatype Action<T> = Add(item: T) | Remove

  // The list, with what has gone in and what has come out so far.
  datatype Queue<T> = Queue(list: seq<T>, added: seq<T>, removed: seq<T>)

  function Act<T>(q: Queue<T>, a: Action<T>): Queue<T> {
    match a
    case Add(x) => Queue([x] + q.list, q.added + [x], q.removed)
    case Remove =>
      if q.list == [] then q
      else Queue(q.list[..|q.list| - 1], q.added, q.removed + [q.list[|q.list| - 1]])
  }

  function Reversed<T>(s: seq<T>): seq<T> {
    if s == [] then [] else Reversed(s[1..]) + [s[0]]
  }

  lemma {:induction false} ReversedTail<T>(s: seq<T>)
    requires s != []
    ensures Reversed(s) == [s[|s| - 1]] + Reversed(s[..|s| - 1])
  {
    if |s| > 1 {
      ReversedTail(s[1..]);
      var front := s[..|s| - 1];
      assert front[1..] == s[1..][..|s| - 2];
      assert Reversed(front) == Reversed(front[1..]) + [s[0]];
    }
  }

  lemma ActKeepsOrder<T>(q: Queue<T>, a: Action<T>)
    requires q.added == q.removed + Reversed(q.list)
    ensures var q' := Act(q, a); q'.added == q'.removed + Reversed(q'.list)
  {
    match a
    case Add(x) => assert ([x] + q.list)[1..] == q.list;
    case Remove =>
      if q.list != [] {
        ReversedTail(q.list);
      }
  }

  // First in, first out: whatever the mix of calls, what has come out is the beginning of
  // what has gone in, and the list holds the rest, latest first.
  lemma {:induction false} FirstInFirstOut<T>(q: Queue<T>, actions: seq<Action<T>>)
    requires q.added == q.removed + Reversed(q.list)
    ensures var q' := RunOf(Act, q, actions);
      q'.added == q'.removed + Reversed(q'.list) && q'.removed <= q'.added
    decreases |actions|
  {
    if actions != [] {
      ActKeepsOrder(q, actions[0]);
      FirstInFirstOut(Act(q, actions[0]), actions[1..]);
    }
  }

  // The past of a queue does not matter to what comes.
  lemma {:induction false} PastDoesNotMatter<T>(q: Queue<T>, added: seq<T>, removed: seq<T>, actions: seq<Action<T>>)
    ensures var q' := RunOf(Act, q, actions);
      RunOf(Act, Queue(q.list, added + q.added, removed + q.removed), actions)
      == Queue(q'.list, added + q'.added, removed + q'.removed)
    decreases |actions|
  {
    if actions != [] {
      var q1 := Act(q, actions[0]);
      assert Act(Queue(q.list, added + q.added, removed + q.removed), actions[0])
          == Queue(q1.list, added + q1.added, removed + q1.removed);
      PastDoesNotMatter(q1, added, removed, actions[1..]);
    }
  }

  // ---------- The list in place ----------

  class ListElement<T> {
    var next: ListElement?<T>
    var prev: ListElement?<T>
    const item: Item<T>

    constructor (item: Item<T>)
      ensures this.item == item && next == null && prev == null
    {
      this.item := item;
      next, prev := null, null;
    }
  }

  class ListState<T> {
    var head: ListElement?<T>
    var tail: ListElement?<T>
    // The calls of dealloc functions made so far.
    var calls: seq<Call<T>>
    // The elements from head to tail.
    ghost var Elems: seq<ListElement<T>>

    ghost predicate Valid()
      reads this, Elems
    {
      && head == At(Elems, 0) && tail == At(Elems, |Elems| - 1)
      && Linked(Elems) && NoDuplicates(Elems)
    }

    static ghost predicate Linked(elems: seq<ListElement<T>>)
      reads elems
    {
      && (forall i {:trigger elems[i].prev} | 0 <= i < |elems| :: elems[i].prev == At(elems, i - 1))
      && (forall i {:trigger elems[i].next} | 0 <= i < |elems| :: elems[i].next == At(elems, i + 1))
    }

    // The element at a position, or null outside the list.
    static ghost function At(elems: seq<ListElement<T>>, i: int): ListElement?<T> {
      if 0 <= i < |elems| then elems[i] else null
    }

    ghost function Items(): seq<Item<T>>
      reads this
    {
      ItemsOf(Elems)
    }

    static ghost function ItemsOf(elems: seq<ListElement<T>>): seq<Item<T>> {
      seq(|elems|, i requires 0 <= i < |elems| => elems[i].item)
    }

    constructor ()
      ensures Valid() && Items() == [] && calls == []
    {
      head, tail, calls, Elems := null, null, [], [];
    }

    method Prepend(item: Item<T>)
      requires Valid()
      modifies this, head
      ensures Valid() && |Elems| > 0 && fresh(Elems[0]) && Elems[1..] == old(Elems)
      ensures Items() == [item] + old(Items()) && calls == old(calls)
    {
      var elem := new ListElement(item);
      var tmp := head;
      head := elem;
      head.next := tmp;
      if tmp != null {
        tmp.prev := head;
      } else {
        tail := head;
      }
      Elems := [elem] + Elems;
      PrependedAt(old(Elems), elem);
      assert Linked(Elems);
    }

    static lemma PrependedAt(was: seq<ListElement<T>>, elem: ListElement<T>)
      ensures forall i | 0 < i :: At([elem] + was, i) == At(was, i - 1)
      ensures ItemsOf([elem] + was) == [elem.item] + ItemsOf(was)
    {}

    method TakeLast() returns (data: T)
      requires Valid() && tail != null
      modifies this, Elems
      ensures Valid() && Elems == old(Elems)[..|old(Elems)| - 1]
      ensures Items() == old(Items())[..|old(Items())| - 1] && calls == old(calls)
      ensures data == old(Items())[|old(Items())| - 1].data
    {
      var tmp := tail;
      tail := tmp.prev;
      if tail != null {
        tail.next := null;
      } else {
        head := tail;
      }
      data := tmp.item.data;
      ghost var was := Elems;
      Elems := Elems[..|Elems| - 1];
      forall i | 0 <= i < |Elems| ensures Elems[i].prev == At(Elems, i - 1) && Elems[i].next == At(Elems, i + 1) {
        assert Elems[i] == was[i];
      }
    }

    // Cuts out the element at position k.
    method Unlink(tmp: ListElement<T>, ghost k: nat)
      requires Valid() && k < |Elems| && Elems[k] == tmp
      modifies this, Elems
      ensures Valid() && Elems == Without(old(Elems), k) && calls == old(calls)
      ensures Items() == Without(old(Items()), k)
    {
      Bypass(tmp, k);
      LinkedWithout(Elems, k);
      EndsWithout(Elems, k);
      NoDuplicatesWithout(Elems, k);
      ItemsWithout(Elems, k);
      Elems := Without(Elems, k);
    }

    // Every link but those of element k leads around it.
    static ghost predicate Bypassed(elems: seq<ListElement<T>>, k: nat)
      reads elems
    {
      && (forall j {:trigger elems[j].prev} | 0 <= j < |elems| && j != k ::
            elems[j].prev == At(elems, if j == k + 1 then k - 1 else j - 1))
      && (forall j {:trigger elems[j].next} | 0 <= j < |elems| && j != k ::
            elems[j].next == At(elems, if j == k - 1 then k + 1 else j + 1))
    }

    static lemma LinkedWithout(elems: seq<ListElement<T>>, k: nat)
      requires k < |elems| && Bypassed(elems, k)
      ensures Linked(Without(elems, k))
    {
      var rest := Without(elems, k);
      forall i | 0 <= i < |rest| ensures rest[i].prev == At(rest, i - 1) && rest[i].next == At(rest, i + 1) {
        LinksWithout(elems, k, i);
      }
    }

    static lemma EndsWithout(elems: seq<ListElement<T>>, k: nat)
      requires k < |elems|
      ensures At(Without(elems, k), 0) == At(elems, if k == 0 then 1 else 0)
      ensures At(Without(elems, k), |elems| - 2) == At(elems, if k == |elems| - 1 then k - 1 else |elems| - 1)
    {
      WithoutAt(elems, k, 0);
      WithoutAt(elems, k, |elems| - 2);
    }

    static lemma LinksWithout(elems: seq<ListElement<T>>, k: nat, i: nat)
      requires k < |elems| && i < |elems| - 1 && Bypassed(elems, k)
      ensures var rest := Without(elems, k);
        rest[i].prev == At(rest, i - 1) && rest[i].next == At(rest, i + 1)
    {
      var j := if i < k then i else i + 1;
      WithoutAt(elems, k, i);
      WithoutAt(elems, k, i - 1);
      WithoutAt(elems, k, i + 1);
      assert elems[j].prev == At(elems, if j == k + 1 then k - 1 else j - 1);
      assert elems[j].next == At(elems, if j == k - 1 then k + 1 else j + 1);
    }

    static lemma WithoutAt(elems: seq<ListElement<T>>, k: nat, i: int)
      requires k < |elems| && -1 <= i
      ensures At(Without(elems, k), i) == At(elems, if i < k then i else i + 1)
    {}

    // Leads the links of the neighbours, or head and tail, around the element.
    method Bypass(tmp: ListElement<T>, ghost k: nat)
      requires Valid() && k < |Elems| && Elems[k] == tmp
      modifies `head, `tail, Elems
      ensures head == (if k == 0 then At(Elems, 1) else old(head))
      ensures tail == (if k == |Elems| - 1 then At(Elems, k - 1) else old(tail))
      ensures Bypassed(Elems, k)
    {
      if tmp.prev == null {
        head := tmp.next;
      } else {
        tmp.prev.next := tmp.next;
      }
      if tmp.next == null {
        tail := tmp.prev;
      } else {
        tmp.next.prev := tmp.prev;
      }
      tmp.prev, tmp.next := null, null;
    }

    static lemma ItemsWithout(was: seq<ListElement<T>>, k: nat)
      requires k < |was|
      ensures ItemsOf(Without(was, k)) == Without(ItemsOf(was), k)
    {}

    // Drops every element, from the head on, with its data.
    method Clear()
      requires Valid()
      modifies this
      ensures Valid() && Items() == [] && calls == old(calls) + Disposals(old(Items()))
    {
      ghost var i := 0;
      ghost var items := Items();
      while head != null
        invariant 0 <= i <= |Elems| && head == At(Elems, i)
        invariant Elems == old(Elems)
        invariant old(calls) + Disposals(items) == calls + Disposals(items[i..])
        decreases |Elems| - i
      {
        var tmp := head.next;
        var item := head.item;
        assert items[i..][0] == item && items[i..][1..] == items[i + 1..];
        Assoc(calls, Disposal(item), Disposals(items[i + 1..]));
        if item.dealloc.Some? {
          calls := calls + [Call(item.dealloc.value, item.data)];
        }
        head := tmp;
        i := i + 1;
      }
      tail := null;
      Elems := [];
    }

    // Looks for the first element whose data satisfies the test. It is handed out when the
    // caller has room for it, and cut out of the list when the caller wants that.
    method Find(equal: T -> bool, wantsData: bool, removeIfFound: bool) returns (data: Option<T>)
      requires Valid()
      modifies this, Elems
      ensures Valid()
      ensures var items, k := old(Items()), FirstMatch(old(Items()), equal);
        if k == |items| then data == None && Items() == items && calls == old(calls)
        else
          && data == (if wantsData then Some(items[k].data) else None)
          && Items() == (if removeIfFound then Without(items, k) else items)
          && calls == old(calls) + (if removeIfFound && !wantsData then Disposal(items[k]) else [])
    {
      data := None;
      ghost var i := 0;
      var tmp := head;
      while tmp != null && !equal(tmp.item.data)
        invariant 0 <= i <= |Elems| && tmp == At(Elems, i)
        invariant forall j | 0 <= j < i :: !equal(Items()[j].data)
        decreases |Elems| - i
      {
        tmp := tmp.next;
        i := i + 1;
      }
      if tmp != null {
        assert Items()[i] == tmp.item;
        if wantsData {
          data := Some(tmp.item.data);
        }
        if removeIfFound {
          Unlink(tmp, i);
          // Deallocates the data unless it was handed out.
          if !wantsData && tmp.item.dealloc.Some? {
            calls := calls + [Call(tmp.item.dealloc.value, tmp.item.data)];
          }
        }
      }
    }
  }

  // ---------- The functions of the interface ----------

  method Add<T>(list: ListState?<T>, data: Option<T>, dealloc: Option<Dealloc>) returns (status: Status)
    requires list != null ==> list.Valid()
    modifies list, if list != null then {list.head} else {}
    ensures status == if list == null then INVALID_HANDLE else if data.None? then INVALID_PARAMETER else SUCCESS
    ensures list != null ==> list.Valid() && list.calls == old(list.calls)
    ensures list != null ==>
      list.Items() == (if data.None? then [] else [Item(data.value, dealloc)]) + old(list.Items())
    ensures list != null ==> forall e | e in list.Elems :: e in old(list.Elems) || fresh(e)
  {
    if list == null {
      return INVALID_HANDLE;
    }
    if data.None? {
      return INVALID_PARAMETER;
    }
    list.Prepend(Item(data.value, dealloc));
    status := SUCCESS;
  }

  // There is no room for the data when the caller passes a null pointer for it.
  method Remove<T>(list: ListState?<T>, hasRoom: bool) returns (status: Status, data: Option<T>)
    requires list != null ==> list.Valid()
    modifies list, if list != null then set e | e in list.Elems else {}
    ensures list == null ==> status == INVALID_HANDLE && data == None
    ensures list != null ==> list.Valid() && list.calls == old(list.calls)
    ensures list != null && !hasRoom ==>
      status == INVALID_PARAMETER && data == None && list.Items() == old(list.Items())
    ensures list != null && hasRoom ==>
      var items := old(list.Items());
      if items == [] then status == UNAVAILABLE_RESOURCE && data == None && list.Items() == []
      else
        && status == SUCCESS && data == Some(items[|items| - 1].data)
        && list.Items() == items[..|items| - 1]
    ensures list != null ==> forall e | e in list.Elems :: e in old(list.Elems)
  {
    data := None;
    if list == null {
      return INVALID_HANDLE, None;
    }
    if !hasRoom {
      return INVALID_PARAMETER, None;
    }
    if list.tail == null {
      return UNAVAILABLE_RESOURCE, None;
    }
    var last := list.TakeLast();
    status, data := SUCCESS, Some(last);
  }

  function DataOf<T>(items: seq<Item<T>>): seq<T> {
    seq(|items|, i requires 0 <= i < |items| => items[i].data)
  }

  method AddOrRemove<T>(list: ListState<T>, action: Action<Item<T>>) returns (taken: seq<T>)
    requires list.Valid()
    modifies list, set e | e in list.Elems
    ensures list.Valid() && forall e | e in list.Elems :: e in old(list.Elems) || fresh(e)
    ensures var q := Act(Queue(old(list.Items()), [], []), action);
      list.Items() == q.list && taken == DataOf(q.removed)
  {
    taken := [];
    match action {
      case Add(item) =>
        var _ := Add(list, Some(item.data), item.dealloc);
      case Remove =>
        var status, data := Remove(list, true);
        if status == SUCCESS {
          taken := [data.value];
        }
    }
  }

  lemma DataOfBoth<T>(a: seq<Item<T>>, b: seq<Item<T>>)
    ensures DataOf(a + b) == DataOf(a) + DataOf(b)
  {}

  lemma RestOfRun<T>(list: seq<Item<T>>, actions: seq<Action<Item<T>>>)
    requires actions != []
    ensures var q := Act(Queue(list, [], []), actions[0]);
      var rest := RunOf(Act, Queue(q.list, [], []), actions[1..]);
      var whole := RunOf(Act, Queue(list, [], []), actions);
      whole.list == rest.list && DataOf(whole.removed) == DataOf(q.removed) + DataOf(rest.removed)
  {
    var q := Act(Queue(list, [], []), actions[0]);
    var rest := RunOf(Act, Queue(q.list, [], []), actions[1..]);
    PastDoesNotMatter(Queue(q.list, [], []), q.added, q.removed, actions[1..]);
    RunOne(Act, Queue(list, [], []), actions);
    DataOfBoth(q.removed, rest.removed);
    assert q.added + [] == q.added && q.removed + [] == q.removed;
  }

  // Any mix of calls of the two functions on one list. What they hand out is what the queue
  // gives up, so a list that was empty hands out, in order, the first of what was added.
  method AddAndRemove<T>(list: ListState<T>, actions: seq<Action<Item<T>>>) returns (taken: seq<T>)
    requires list.Valid()
    modifies list, set e | e in list.Elems
    ensures list.Valid()
    ensures var q := RunOf(Act, Queue(old(list.Items()), [], []), actions);
      && list.Items() == q.list && taken == DataOf(q.removed)
      && (old(list.Items()) == [] ==> q.added == q.removed + Reversed(list.Items()))
    decreases |actions|
  {
    ghost var was := list.Items();
    if was == [] {
      FirstInFirstOut(Queue(was, [], []), actions);
    }
    taken := [];
    if actions != [] {
      var first := AddOrRemove(list, actions[0]);
      var rest := AddAndRemove(list, actions[1..]);
      RestOfRun(was, actions);
      taken := first + rest;
    }
  }

  method Flush<T>(list: ListState?<T>) returns (status: Status)
    requires list != null ==> list.Valid()
    modifies list
    ensures status == if list == null then INVALID_HANDLE else SUCCESS
    ensures list != null ==>
      list.Valid() && list.Items() == [] && list.calls == old(list.calls) + Disposals(old(list.Items()))
  {
    if list == null {
      return INVALID_HANDLE;
    }
    list.Clear();
    status := SUCCESS;
  }

  // No data stands for a null or an untouched result. A search that finds nothing in a list
  // that is not empty succeeds all the same.
  method Search<T>(list: ListState?<T>, equal: Option<T -> bool>, wantsData: bool, removeIfFound: bool)
    returns (status: Status, data: Option<T>)
    requires list != null ==> list.Valid()
    modifies list, if list != null then set e | e in list.Elems else {}
    ensures list != null ==> list.Valid()
    ensures list == null || equal.None? ==> status == INVALID_HANDLE && data == None
    ensures list != null && (equal.None? || old(list.Items()) == []) ==>
      list.Items() == old(list.Items()) && list.calls == old(list.calls)
    ensures list != null && equal.Some? ==>
      var items, k := old(list.Items()), FirstMatch(old(list.Items()), equal.value);
      if k == |items| then
        && status == (if items == [] then UNAVAILABLE_RESOURCE else SUCCESS)
        && data == None && list.Items() == items && list.calls == old(list.calls)
      else
        && status == SUCCESS
        && data == (if wantsData then Some(items[k].data) else None)
        && list.Items() == (if removeIfFound then Without(items, k) else items)
        && list.calls == old(list.calls) + (if removeIfFound && !wantsData then Disposal(items[k]) else [])
  {
    data := None;
    if list == null || equal.None? {
      return INVALID_HANDLE, None;
    }
    if list.tail == null {
      return UNAVAILABLE_RESOURCE, None;
    }
    data := list.Find(equal.value, wantsData, removeIfFound);
    status := SUCCESS;
  }
}
