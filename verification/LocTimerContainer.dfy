/** LocTimerContainer of gps/utils/LocTimer.cpp: the heap of running timers and the one
    kernel timer that must stand for its top. The message procedures run here one at
    a time; LocTimerProtocol.dfy interleaves them with the poll thread. */
module LocTimerContainer {

  import opened Wrappers
  import opened HeapTree
  import opened LocTimerRank
  import LocHeap

  // ---------- Re-arming: updateSoonestTime ----------

  // What updateSoonestTime decides to do to the kernel timer.
  datatype Rearming = Keep | TurnOff | Arm(when: Instant)

  function UpdateSoonestBy(ranks: (Timer, Timer) -> int, priorTop: Option<Timer>, curTop: Option<Timer>): Rearming {
    if curTop == priorTop then Keep
    else if curTop.None? then TurnOff
    else if priorTop.None? || OutRanks(ranks, curTop.value, priorTop.value) then Arm(curTop.value.when)
    else Keep
  }

  function UpdateSoonest(priorTop: Option<Timer>, curTop: Option<Timer>): Rearming {
    UpdateSoonestBy(ByDeadline, priorTop, curTop)
  }

  // The kernel's side: is the descriptor polled, and which time was set last, if any.
  datatype Kernel = Kernel(polled: bool, armed: Option<Instant>)

  function Rearmed(k: Kernel, r: Rearming): Kernel {
    match r
    case Keep => k
    case TurnOff => Kernel(false, None)
    case Arm(when) => Kernel(true, Some(when))
  }

  // A descriptor is readable from its deadline on, until it is set again.
  predicate Due(when: Instant, now: Instant) {
    Nanos(when) <= Nanos(now)
  }

  // The kernel timer stands for the top of the heap. On an empty heap it may be stale.
  ghost predicate Armed(t: Tree<Timer>, k: Kernel) {
    t.Node? ==> k == Kernel(true, Some(t.data.when))
  }

  // ---------- Expiry ----------

  datatype Expiry = Expiry(popped: seq<Timer>, rest: Tree<Timer>)

  // popIfOutRanks, until the top lies in the future of now.
  function PopDue(t: Tree<Timer>, now: Timer): Expiry
    decreases Count(t)
  {
    if t.Leaf? || OutRanks(ByDeadline, now, t.data) then Expiry([], t)
    else
      PopSizes(ByDeadline, t);
      var e := PopDue(Pop(ByDeadline, t), now);
      Expiry([t.data] + e.popped, e.rest)
  }

  // The whole loop: the first pop is unconditional.
  function Expire(t: Tree<Timer>, now: Timer): Expiry {
    if t.Leaf? then Expiry([], t)
    else
      var e := PopDue(Pop(ByDeadline, t), now);
      Expiry([t.data] + e.popped, e.rest)
  }

  ghost predicate Sorted(s: seq<Timer>) {
    forall i, j | 0 <= i < j < |s| :: Nanos(s[i].when) <= Nanos(s[j].when)
  }

  // The due timers of a heap are those whose deadline is at or before now.
  ghost predicate AllDue(s: seq<Timer>, now: Instant) {
    forall i | 0 <= i < |s| :: Due(s[i].when, now)
  }

  ghost predicate NoneDue(t: Tree<Timer>, now: Instant) {
    forall x | x in Elements(t) :: !Due(x.when, now)
  }

  lemma TopIsSoonest(t: Tree<Timer>)
    requires Good(ByDeadline, t) && t.Node?
    ensures forall x | x in Elements(t) :: Nanos(t.data.when) <= Nanos(x.when)
  {
    DeadlinesAreTotallyPreordered();
    TopIsHighest(ByDeadline, t);
    forall x | x in Elements(t) ensures Nanos(t.data.when) <= Nanos(x.when) {
      assert !OutRanks(ByDeadline, x, t.data);
    }
  }

  // A top in the future means that no timer of the heap is due.
  lemma FutureTop(t: Tree<Timer>, now: Timer)
    requires Good(ByDeadline, t)
    ensures t.Node? ==> (OutRanks(ByDeadline, now, t.data) <==> !Due(t.data.when, now.when))
    ensures t.Leaf? || OutRanks(ByDeadline, now, t.data) ==> NoneDue(t, now.when)
  {
    if t.Node? {
      TopIsSoonest(t);
    }
  }

  lemma GoodAfterPop(t: Tree<Timer>)
    requires Good(ByDeadline, t) && t.Node?
    ensures Good(ByDeadline, Pop(ByDeadline, t))
  {
    DeadlinesAreTotallyPreordered();
    PopKeepsGood(ByDeadline, t);
  }

  // What a loop has popped off t, earliest deadline first, and what it has left.
  ghost predicate Split(t: Tree<Timer>, e: Expiry) {
    && Good(ByDeadline, e.rest)
    && Elements(t) == multiset(e.popped) + Elements(e.rest)
    && Sorted(e.popped)
  }

  lemma {:induction false} PopDueSplits(t: Tree<Timer>, now: Timer)
    requires Good(ByDeadline, t)
    ensures Split(t, PopDue(t, now))
    decreases Count(t)
  {
    if t.Node? && !OutRanks(ByDeadline, now, t.data) {
      PopSizes(ByDeadline, t);
      GoodAfterPop(t);
      PopDueSplits(Pop(ByDeadline, t), now);
      Prepended(t, PopDue(Pop(ByDeadline, t), now));
    }
  }

  lemma {:induction false} PopDueStopsInTime(t: Tree<Timer>, now: Timer)
    requires Good(ByDeadline, t)
    ensures AllDue(PopDue(t, now).popped, now.when) && NoneDue(PopDue(t, now).rest, now.when)
    decreases Count(t)
  {
    if t.Leaf? || OutRanks(ByDeadline, now, t.data) {
      FutureTop(t, now);
    } else {
      PopSizes(ByDeadline, t);
      GoodAfterPop(t);
      var e := PopDue(Pop(ByDeadline, t), now);
      PopDueStopsInTime(Pop(ByDeadline, t), now);
      DueCons(t.data, e.popped, now.when);
      PopDueOne(t, now);
    }
  }

  lemma PopDueOne(t: Tree<Timer>, now: Timer)
    requires t.Node? && !OutRanks(ByDeadline, now, t.data)
    ensures var e := PopDue(Pop(ByDeadline, t), now); PopDue(t, now) == Expiry([t.data] + e.popped, e.rest)
  {
    PopSizes(ByDeadline, t);
  }

  lemma DueCons(x: Timer, s: seq<Timer>, now: Instant)
    requires Due(x.when, now) && AllDue(s, now)
    ensures AllDue([x] + s, now)
  {}

  lemma Prepended(t: Tree<Timer>, e: Expiry)
    requires Good(ByDeadline, t) && t.Node? && Split(Pop(ByDeadline, t), e)
    ensures Split(t, Expiry([t.data] + e.popped, e.rest))
  {
    PopElements(ByDeadline, t);
    TopIsSoonest(t);
    SortedCons(t.data, e.popped, Elements(t));
    Regroup(multiset(e.popped), Elements(e.rest), t.data);
  }

  lemma Regroup(a: multiset<Timer>, b: multiset<Timer>, x: Timer)
    ensures a + b + multiset{x} == (multiset([x]) + a) + b
  {}

  lemma SortedCons(x: Timer, s: seq<Timer>, all: multiset<Timer>)
    requires Sorted(s) && multiset(s) <= all
    requires forall y | y in all :: Nanos(x.when) <= Nanos(y.when)
    ensures Sorted([x] + s)
  {
    forall i | 0 <= i < |s| ensures Nanos(x.when) <= Nanos(s[i].when) {
      assert s[i] in multiset(s);
    }
  }

  // The loop empties the heap of due timers, in the order of their deadlines. That it pops
  // nothing but due timers holds exactly when the heap is empty or its top is due: the
  // expire message does not look at the first timer before popping it.
  lemma ExpirePopsExactlyTheDue(t: Tree<Timer>, now: Timer)
    requires Good(ByDeadline, t)
    ensures var e := Expire(t, now);
      && Split(t, e) && NoneDue(e.rest, now.when)
      && (AllDue(e.popped, now.when) <==> t.Leaf? || Due(t.data.when, now.when))
  {
    if t.Node? {
      GoodAfterPop(t);
      var e := PopDue(Pop(ByDeadline, t), now);
      PopDueSplits(Pop(ByDeadline, t), now);
      PopDueStopsInTime(Pop(ByDeadline, t), now);
      Prepended(t, e);
      assert ([t.data] + e.popped)[0] == t.data;
    }
  }

  // What the expiry loop comes to when it has expired some timers and holds one more.
  function Ahead(expired: seq<Timer>, timer: Option<Timer>, t: Tree<Timer>, now: Timer): Expiry {
    if timer.None? then Expiry(expired, t)
    else var e := PopDue(t, now); Expiry(expired + ([timer.value] + e.popped), e.rest)
  }

  lemma AheadStep(expired: seq<Timer>, x: Timer, t: Tree<Timer>, now: Timer)
    ensures Ahead(expired, Some(x), t, now) ==
            if t.Leaf? || OutRanks(ByDeadline, now, t.data) then Ahead(expired + [x], None, t, now)
            else Ahead(expired + [x], Some(t.data), Pop(ByDeadline, t), now)
  {
    var e := PopDue(t, now);
    assert expired + ([x] + e.popped) == (expired + [x]) + e.popped;
  }

  lemma ExpireIsAhead(t: Tree<Timer>, now: Timer)
    ensures Expire(t, now) == if t.Leaf? then Ahead([], None, t, now)
                              else Ahead([], Some(t.data), Pop(ByDeadline, t), now)
  {}

  // ---------- The message procedures as functions ----------

  datatype Service = Service(heap: Tree<Timer>, kernel: Kernel)

  function AfterPush(s: Service, timer: Timer): Service {
    var t := Push(ByDeadline, s.heap, timer);
    Service(t, Rearmed(s.kernel, UpdateSoonest(Top(s.heap), Top(t))))
  }

  function AfterRemove(s: Service, timer: Timer): Service {
    var o := Remove(ByDeadline, s.heap, timer);
    if Top(s.heap) == (if o.found then Some(timer) else None) then
      Service(o.rest, Rearmed(s.kernel, UpdateSoonest(None, Top(o.rest))))
    else Service(o.rest, s.kernel)
  }

  function AfterExpire(s: Service, now: Timer): Service {
    var t := Expire(s.heap, now).rest;
    Service(t, Rearmed(s.kernel, UpdateSoonest(None, Top(t))))
  }

  ghost predicate Sound(s: Service) {
    Good(ByDeadline, s.heap) && Armed(s.heap, s.kernel)
  }

  // Each procedure leaves a good heap and the kernel timer set to its top. Setting the
  // kernel timer only when the top changes to a sooner one is enough.
  lemma PushKeepsSound(s: Service, timer: Timer)
    requires Sound(s)
    ensures Sound(AfterPush(s, timer))
  {
    GoodAfterPush(s.heap, timer);
    PushTop(ByDeadline, s.heap, timer);
  }

  // What each procedure comes to, whatever it does to get there. A push adds its timer, and
  // sets the kernel timer to it if it is the new top.
  ghost predicate Pushes(was: Service, now: Service, timer: Timer) {
    && Elements(now.heap) == Elements(was.heap) + multiset{timer}
    && now.kernel == (if was.heap.Leaf? || Nanos(timer.when) < Nanos(was.heap.data.when)
                      then Kernel(true, Some(timer.when)) else was.kernel)
    && (Sound(was) ==> Sound(now))
  }

  // A removal takes its timer away, if it is there, and no other.
  ghost predicate Removes(was: Service, now: Service, timer: Timer) {
    Sound(was) ==>
      && Elements(now.heap) == Elements(was.heap) - multiset{timer}
      && (was.heap.Node? && was.heap.data != timer ==> now.kernel == was.kernel)
      && Sound(now)
  }

  // An expiry takes away the timers it expires, in order, and leaves none that is due.
  ghost predicate Expires(was: Service, now: Service, expired: seq<Timer>, time: Instant) {
    Good(ByDeadline, was.heap) ==>
      && Elements(was.heap) == multiset(expired) + Elements(now.heap)
      && Sorted(expired) && NoneDue(now.heap, time) && Sound(now)
      && (was.heap.Node? ==> expired != [] && expired[0] == was.heap.data)
  }

  lemma AfterPushPushes(s: Service, timer: Timer)
    ensures Pushes(s, AfterPush(s, timer), timer)
  {
    PushElements(ByDeadline, s.heap, timer);
    PushTop(ByDeadline, s.heap, timer);
    if Sound(s) {
      PushKeepsSound(s, timer);
    }
  }

  lemma AfterRemoveRemoves(s: Service, timer: Timer)
    ensures Removes(s, AfterRemove(s, timer), timer)
  {
    if Sound(s) {
      GoodAfterRemove(s.heap, timer);
      RemoveKeepsSound(s, timer);
    }
  }

  lemma AfterExpireExpires(s: Service, now: Timer)
    ensures Expires(s, AfterExpire(s, now), Expire(s.heap, now).popped, now.when)
  {
    if Good(ByDeadline, s.heap) {
      ExpirePopsExactlyTheDue(s.heap, now);
      ExpireMakesSound(s, now);
    }
  }

  lemma GoodAfterPush(t: Tree<Timer>, timer: Timer)
    requires Good(ByDeadline, t)
    ensures Good(ByDeadline, Push(ByDeadline, t, timer))
  {
    DeadlinesAreTotallyPreordered();
    PushKeepsGood(ByDeadline, t, timer);
  }

  lemma RemoveKeepsSound(s: Service, timer: Timer)
    requires Sound(s)
    ensures Sound(AfterRemove(s, timer))
  {
    GoodAfterRemove(s.heap, timer);
    RemoveKeepsArmed(s, timer);
  }

  // A removal below the top does not concern the kernel timer.
  lemma RemoveKeepsArmed(s: Service, timer: Timer)
    requires Armed(s.heap, s.kernel)
    ensures Armed(AfterRemove(s, timer).heap, AfterRemove(s, timer).kernel)
  {
    if s.heap.Node? && s.heap.data != timer {
      RemoveTop(ByDeadline, s.heap, timer);
    }
  }

  lemma GoodAfterRemove(t: Tree<Timer>, timer: Timer)
    requires Good(ByDeadline, t)
    ensures var o := Remove(ByDeadline, t, timer);
      && Good(ByDeadline, o.rest)
      && (o.found <==> timer in Elements(t))
      && (if o.found then Elements(t) == Elements(o.rest) + multiset{timer} else o.rest == t)
  {
    DeadlinesAreTotallyPreordered();
    RemoveKeepsGood(ByDeadline, t, timer);
  }

  lemma ExpireMakesSound(s: Service, now: Timer)
    requires Good(ByDeadline, s.heap)
    ensures Sound(AfterExpire(s, now))
  {
    ExpirePopsExactlyTheDue(s.heap, now);
  }

  // ---------- The class ----------

  class LocTimerContainer {
    const heap: LocHeap.LocHeap<Timer>
    var polled: bool
    var armed: Option<Instant>
    ghost var Repr: set<object>

    ghost predicate Valid()
      reads this, Repr
    {
      && this in Repr && heap in Repr && heap.Repr <= Repr && this !in heap.Repr
      && heap.Valid() && heap.ranks == TimerRanks
    }

    ghost function State(): Service
      reads this, heap, heap.mTree
    {
      Service(heap.Model(), Kernel(polled, armed))
    }

    constructor ()
      ensures Valid() && fresh(Repr) && State() == Service(Leaf, Kernel(false, None))
    {
      heap := new LocHeap.LocHeap(TimerRanks);
      polled, armed := false, None;
      new;
      Repr := {this} + heap.Repr;
    }

    // A null priorTop asks for the kernel timer to be set to the current top, whatever it was.
    method UpdateSoonestTime(priorTop: Option<Timer>, ghost base: int)
      requires Valid()
      requires priorTop.Some? ==> AllInWindow(State().heap, priorTop.value, base)
      modifies `polled, `armed
      ensures Valid()
      ensures var was := old(State());
        State() == was.(kernel := Rearmed(was.kernel, UpdateSoonest(priorTop, Top(was.heap))))
    {
      var curTop := heap.Peek();
      if curTop.Some? && priorTop.Some? {
        assert curTop.value in Elements(State().heap);
        RanksIsByDeadline(curTop.value.when, priorTop.value.when, base);
      }
      if curTop != priorTop {
        if curTop.None? {
          polled := false;
          armed := None;
        } else if priorTop.None? || TimerRanks(curTop.value, priorTop.value) > 0 {
          polled := true;
          armed := Some(curTop.value.when);
        }
      }
    }

    // The procedure of MsgTimerPush.
    method ProcPush(timer: Timer, ghost base: int)
      requires Valid() && AllInWindow(State().heap, timer, base)
      modifies Repr
      ensures Valid() && fresh(Repr - old(Repr))
      ensures State() == AfterPush(old(State()), timer)
      ensures Pushes(old(State()), State(), timer)
    {
      ghost var was := State();
      PushOnto(timer, base);
      AfterPushPushes(was, timer);
    }

    method PushOnto(timer: Timer, ghost base: int)
      requires Valid() && AllInWindow(State().heap, timer, base)
      modifies Repr
      ensures Valid() && fresh(Repr - old(Repr))
      ensures State() == AfterPush(old(State()), timer)
    {
      HeapIsByDeadline(heap.Model(), timer, base);
      PushElements(ByDeadline, heap.Model(), timer);
      var priorTop := heap.Peek();
      heap.Push(timer);
      Repr := Repr + heap.Repr;
      UpdateSoonestTime(priorTop, base);
    }

    // The procedure of MsgTimerRemove, up to the delete of the timer.
    method ProcRemove(timer: Timer, ghost base: int)
      requires Valid() && AllInWindow(State().heap, timer, base)
      modifies Repr
      ensures Valid() && Repr == old(Repr)
      ensures State() == AfterRemove(old(State()), timer)
      ensures Removes(old(State()), State(), timer)
    {
      ghost var was := State();
      HeapIsByDeadline(heap.Model(), timer, base);
      var priorTop := heap.Peek();
      var removed := heap.Remove(timer);
      if priorTop == removed {
        UpdateSoonestTime(None, base);
      }
      AfterRemoveRemoves(was, timer);
    }

    method PopIfOutRanks(timer: Timer, ghost base: int) returns (popped: Option<Timer>)
      requires Valid() && AllInWindow(State().heap, timer, base)
      modifies Repr
      ensures Valid() && Repr == old(Repr) && State().kernel == old(State()).kernel
      ensures var was := old(State()).heap;
        if was.Leaf? || OutRanks(ByDeadline, timer, was.data) then popped == None && State().heap == was
        else popped == Some(was.data) && State().heap == Pop(ByDeadline, was)
    {
      popped := None;
      var top := heap.Peek();
      HeapIsByDeadline(heap.Model(), timer, base);
      if top.Some? {
        assert top.value in Elements(heap.Model());
        RanksIsByDeadline(timer.when, top.value.when, base);
      }
      if top.Some? && !(TimerRanks(timer, top.value) > 0) {
        popped := heap.Pop();
      }
    }

    // The procedure of MsgTimerExpire. expired lists the timers on which expire() is called.
    method ProcExpire(now: Timer, ghost base: int) returns (expired: seq<Timer>)
      requires Valid() && AllInWindow(State().heap, now, base)
      modifies Repr
      ensures Valid() && Repr == old(Repr)
      ensures State() == AfterExpire(old(State()), now)
      ensures expired == Expire(old(State()).heap, now).popped
      ensures Expires(old(State()), State(), expired, now.when)
    {
      ghost var was := State();
      expired := PopAndExpire(now, base);
      AfterExpireExpires(was, now);
    }

    method PopAndExpire(now: Timer, ghost base: int) returns (expired: seq<Timer>)
      requires Valid() && AllInWindow(State().heap, now, base)
      modifies Repr
      ensures Valid() && Repr == old(Repr)
      ensures State() == AfterExpire(old(State()), now)
      ensures expired == Expire(old(State()).heap, now).popped
    {
      expired := [];
      HeapIsByDeadline(heap.Model(), now, base);
      ExpireIsAhead(heap.Model(), now);
      if heap.Model().Node? {
        PopElements(ByDeadline, heap.Model());
      }
      var timer := heap.Pop();
      while timer.Some?
        invariant Valid() && Repr == old(Repr) && State().kernel == old(State()).kernel
        invariant AllInWindow(State().heap, now, base)
        invariant Expire(old(State()).heap, now) == Ahead(expired, timer, State().heap, now)
        decreases Count(State().heap), timer.Some?
      {
        AheadStep(expired, timer.value, State().heap, now);
        expired := expired + [timer.value];
        if State().heap.Node? {
          PopSizes(ByDeadline, State().heap);
          PopElements(ByDeadline, State().heap);
        }
        timer := PopIfOutRanks(now, base);
      }
      UpdateSoonestTime(None, base);
    }
  }
}
