/** The life of a timer delegate under every interleaving of the timer service: it is
    deleted once, by the removal it asked for itself, never while the heap or a queued
    push still refers to it, and its client hears of its expiry at most once. */
module LocTimerLifecycle {

  import opened Wrappers
  import opened HeapTree
  import opened LocTimerRank
  import opened LocTimerContainer
  import opened LocTimerProtocol

  // What matters of a state for the delegates: of the heap, the collection it holds.
  datatype Books = Books(
    held: multiset<Timer>,
    queue: seq<Msg>,
    firing: Option<Timer>,
    stopping: Option<Client>,
    running: map<Client, Timer>,
    owner: map<Timer, Client>,
    live: set<Timer>,
    freed: seq<Timer>,
    nextId: nat)

  function BooksWith(s: State, held: multiset<Timer>): Books {
    Books(held, s.queue,
          if s.msg.Firing? then Some(s.msg.timer) else None,
          if s.msg.Stopping? then Some(s.msg.client) else None,
          s.running, s.owner, s.live, s.freed, s.nextId)
  }

  function BooksOf(s: State): Books {
    BooksWith(s, Elements(s.heap))
  }

  // ---------- The invariant ----------

  // mTimer of a client and mClient of a delegate name each other.
  ghost predicate Matched(b: Books) {
    && (forall c | c in b.running :: b.running[c] in b.owner && b.owner[b.running[c]] == c)
    && (forall t | t in b.owner :: b.owner[t] in b.running && b.running[b.owner[t]] == t)
  }

  ghost predicate Accounted(b: Books) {
    && b.owner.Keys <= b.live
    && (forall t | t in b.live :: t.id < b.nextId)
    && (forall t | t in b.freed :: t.id < b.nextId && t !in b.live)
    && NoDuplicates(b.freed)
  }

  // A delegate is pushed and removed through the queue at most once, in this order.
  ghost predicate InOrder(q: seq<Msg>) {
    && (forall i, j | 0 <= i < j < |q| :: q[i] == q[j] ==> q[i] == ExpireMsg)
    && (forall i, j | 0 <= i < j < |q| :: q[i].RemoveMsg? ==> q[j] != PushMsg(q[i].timer))
  }

  // The delegates waiting for their delete are exactly the live ones without a client.
  ghost predicate RemovalsDue(b: Books) {
    forall t: Timer :: RemoveMsg(t) in b.queue <==> t in b.live && t !in b.owner
  }

  // A delegate is in one place at most: in a queued push, in the heap, or being fired.
  ghost predicate InOnePlace(b: Books) {
    && (forall t: Timer :: PushMsg(t) in b.queue ==> t in b.live && b.held[t] == 0 && b.firing != Some(t))
    && (forall t: Timer :: t in b.held ==> t in b.live && b.held[t] == 1 && b.firing != Some(t))
    && (b.firing.Some? ==> b.firing.value in b.live)
  }

  // A delegate that still has a client is on its way to, in, or just out of the heap.
  ghost predicate Expected(b: Books) {
    forall t | t in b.owner ::
      t in b.held || PushMsg(t) in b.queue || b.firing == Some(t) || b.stopping == Some(b.owner[t])
  }

  ghost predicate Life(b: Books) {
    Matched(b) && Accounted(b) && InOrder(b.queue) && RemovalsDue(b) && InOnePlace(b) && Expected(b)
  }

  // ---------- What the steps do to the books ----------

  lemma AppendedInOrder(q: seq<Msg>, m: Msg)
    requires InOrder(q) && (m == ExpireMsg || m !in q)
    requires m.PushMsg? ==> RemoveMsg(m.timer) !in q
    ensures InOrder(q + [m])
    ensures forall x: Msg :: x in q + [m] <==> x in q || x == m
  {}

  function Started(b: Books, c: Client, when: Instant): Books {
    var t := Timer(b.nextId, when);
    b.(running := b.running[c := t], owner := b.owner[t := c], live := b.live + {t},
       nextId := b.nextId + 1, queue := b.queue + [PushMsg(t)])
  }

  lemma StartedIsFresh(b: Books, when: Instant)
    requires Life(b)
    ensures var t := Timer(b.nextId, when);
      && t !in b.live && t !in b.owner && t !in b.freed && b.held[t] == 0
      && PushMsg(t) !in b.queue && RemoveMsg(t) !in b.queue
  {
    var t := Timer(b.nextId, when);
    assert t !in b.live;
    assert t !in b.held;
  }

  lemma StartedKeepsBooks(b: Books, c: Client, when: Instant)
    requires Matched(b) && Accounted(b) && c !in b.running
    ensures Matched(Started(b, c, when)) && Accounted(Started(b, c, when))
  {}

  lemma StartedKeepsLife(b: Books, c: Client, when: Instant)
    requires Life(b) && c !in b.running
    ensures Life(Started(b, c, when))
  {
    var b' := Started(b, c, when);
    var t := Timer(b.nextId, when);
    StartedIsFresh(b, when);
    StartedKeepsBooks(b, c, when);
    AppendedInOrder(b.queue, PushMsg(t));
    StartedKeepsPlaces(b, c, when);
  }

  lemma StartedKeepsPlaces(b: Books, c: Client, when: Instant)
    requires RemovalsDue(b) && InOnePlace(b) && Expected(b)
    requires var t := Timer(b.nextId, when);
      && t !in b.live && t !in b.owner && b.held[t] == 0 && RemoveMsg(t) !in b.queue && b.firing != Some(t)
      && forall x: Msg :: x in b.queue + [PushMsg(t)] <==> x in b.queue || x == PushMsg(t)
    ensures var b' := Started(b, c, when); RemovalsDue(b') && InOnePlace(b') && Expected(b')
  {}

  function Let(b: Books, c: Client): Books
    requires c in b.running
  {
    var t := b.running[c];
    b.(running := b.running - {c}, owner := b.owner - {t}, queue := b.queue + [RemoveMsg(t)])
  }

  // stopping is dropped when it was this client the message task was about to stop.
  lemma LetKeepsLife(b: Books, c: Client, stopping: Option<Client>)
    requires Life(b) && c in b.running && (stopping == b.stopping || b.stopping == Some(c))
    ensures Life(Let(b, c).(stopping := stopping))
  {
    var t := b.running[c];
    AppendedInOrder(b.queue, RemoveMsg(t));
    LetKeepsBooks(b, c);
    LetKeepsPlaces(b, c, stopping);
  }

  lemma LetKeepsBooks(b: Books, c: Client)
    requires Matched(b) && Accounted(b) && c in b.running
    ensures Matched(Let(b, c)) && Accounted(Let(b, c))
  {}

  lemma LetKeepsPlaces(b: Books, c: Client, stopping: Option<Client>)
    requires Matched(b) && Accounted(b) && RemovalsDue(b) && InOnePlace(b) && Expected(b)
    requires c in b.running && (stopping == b.stopping || b.stopping == Some(c))
    requires forall x: Msg :: x in b.queue + [RemoveMsg(b.running[c])] <==> x in b.queue || x == RemoveMsg(b.running[c])
    ensures var b' := Let(b, c).(stopping := stopping); RemovalsDue(b') && InOnePlace(b') && Expected(b')
  {}

  function Dropped(b: Books): Books
    requires b.queue != []
  {
    b.(queue := b.queue[1..])
  }

  lemma DroppedFacts(q: seq<Msg>)
    requires q != [] && InOrder(q)
    ensures InOrder(q[1..])
    ensures forall m: Msg :: m in q <==> m == q[0] || m in q[1..]
    ensures q[0] != ExpireMsg ==> q[0] !in q[1..]
    ensures q[0].RemoveMsg? ==> PushMsg(q[0].timer) !in q
  {
    assert q == [q[0]] + q[1..];
  }

  lemma PushTakenKeepsLife(b: Books, t: Timer)
    requires Life(b) && b.queue != [] && b.queue[0] == PushMsg(t)
    ensures Life(Dropped(b).(held := b.held + multiset{t}))
  {
    DroppedFacts(b.queue);
    assert b.queue[0] in b.queue;
  }

  lemma RemoveTakenKeepsLife(b: Books, t: Timer)
    requires Life(b) && b.firing.None? && b.stopping.None?
    requires b.queue != [] && b.queue[0] == RemoveMsg(t)
    ensures Life(Dropped(b).(held := b.held - multiset{t}, live := b.live - {t}, freed := b.freed + [t]))
    ensures t in b.live && t !in b.owner && t !in b.held - multiset{t} && PushMsg(t) !in b.queue
  {
    RemoveTakenFacts(b, t);
    DroppedFacts(b.queue);
    RemoveTakenPlaces(b, t);
  }

  // A removal that is due concerns a live delegate without a client, which no push brings.
  lemma RemoveTakenFacts(b: Books, t: Timer)
    requires Life(b) && b.queue != [] && b.queue[0] == RemoveMsg(t)
    ensures t in b.live && t !in b.owner && b.held[t] <= 1 && PushMsg(t) !in b.queue
    ensures forall c | c in b.running :: b.running[c] != t
  {
    DroppedFacts(b.queue);
    assert b.queue[0] in b.queue;
  }

  lemma RemoveTakenPlaces(b: Books, t: Timer)
    requires RemovalsDue(b) && InOnePlace(b) && Expected(b) && b.firing.None? && b.stopping.None?
    requires b.queue != [] && b.queue[0] == RemoveMsg(t) && RemoveMsg(t) !in b.queue[1..]
    requires forall m: Msg :: m in b.queue <==> m == b.queue[0] || m in b.queue[1..]
    requires t !in b.owner && b.held[t] <= 1 && PushMsg(t) !in b.queue
    ensures var b' := Dropped(b).(held := b.held - multiset{t}, live := b.live - {t}, freed := b.freed + [t]);
      RemovalsDue(b') && InOnePlace(b') && Expected(b')
  {}

  lemma FiredKeepsLife(b: Books, t: Timer)
    requires Life(b) && b.firing.None? && b.stopping.None? && t in b.held
    ensures Life(b.(held := b.held - multiset{t}, firing := Some(t)))
  {}

  lemma ExpireTakenKeepsLife(b: Books)
    requires Life(b) && b.queue != [] && b.queue[0] == ExpireMsg
    ensures Life(Dropped(b))
  {
    DroppedFacts(b.queue);
  }

  lemma ExpireQueuedKeepsLife(b: Books)
    requires Life(b)
    ensures Life(b.(queue := b.queue + [ExpireMsg]))
  {
    AppendedInOrder(b.queue, ExpireMsg);
  }

  lemma ClientReadKeepsLife(b: Books, t: Timer)
    requires Life(b) && b.firing == Some(t) && b.stopping.None?
    ensures Life(b.(firing := None, stopping := if t in b.owner then Some(b.owner[t]) else None))
  {}

  lemma StopFailedKeepsLife(b: Books, c: Client)
    requires Life(b) && b.stopping == Some(c) && c !in b.running
    ensures Life(b.(stopping := None))
  {}

  // ---------- What the steps do to the books, as seen from the state ----------

  lemma PushBooked(s: State, t: Timer, held: multiset<Timer>)
    requires s.queue != [] && s.queue[0] == PushMsg(t) && s.msg == Idle
    ensures BooksWith(Receive(s), held) == Dropped(BooksWith(s, held))
  {}

  lemma RemoveBooked(s: State, t: Timer, held: multiset<Timer>)
    requires s.queue != [] && s.queue[0] == RemoveMsg(t) && s.msg == Idle
    ensures BooksWith(Receive(s), held) ==
            Dropped(BooksWith(s, held)).(live := s.live - {t}, freed := s.freed + [t])
  {}

  lemma ExpireBooked(s: State, held: multiset<Timer>)
    requires s.queue != [] && s.queue[0] == ExpireMsg && s.msg == Idle
    ensures BooksWith(Receive(s), held) ==
            Dropped(BooksWith(s, held)).(firing := Top(s.heap))
  {}

  lemma FiringBooked(s: State, t: Timer, held: multiset<Timer>)
    requires s.msg.Firing? && s.msg.timer == t
    ensures BooksWith(Continue(s), held) ==
            BooksWith(s, held).(firing := None, stopping := if t in s.owner then Some(s.owner[t]) else None)
  {}

  lemma StoppingBooked(s: State, c: Client, held: multiset<Timer>)
    requires s.msg.Stopping? && s.msg.client == c
    ensures BooksWith(Continue(s), held) ==
            if c in s.running then Let(BooksWith(s, held), c).(stopping := None)
            else BooksWith(s, held).(stopping := None)
  {}

  lemma PoppingBooked(s: State, held: multiset<Timer>)
    requires s.msg.Popping?
    ensures BooksWith(Continue(s), held) ==
            BooksWith(s, held).(firing := if Continue(s).msg.Firing? then Top(s.heap) else None)
  {}

  // ---------- Every step, every run ----------

  lemma ReceiveKeepsLife(s: State)
    requires Good(ByDeadline, s.heap) && Life(BooksOf(s)) && s.msg == Idle && s.queue != []
    ensures Life(BooksOf(Receive(s)))
  {
    match s.queue[0]
    case PushMsg(t) => ReceivePush(s, t);
    case RemoveMsg(t) => ReceiveRemove(s, t);
    case ExpireMsg => ReceiveExpire(s);
  }

  lemma ReceivePush(s: State, t: Timer)
    requires Life(BooksOf(s)) && s.queue != [] && s.queue[0] == PushMsg(t) && s.msg == Idle
    ensures Life(BooksOf(Receive(s)))
  {
    PushTakenKeepsLife(BooksOf(s), t);
    PushElements(ByDeadline, s.heap, t);
    PushBooked(s, t, Elements(s.heap) + multiset{t});
  }

  lemma ReceiveRemove(s: State, t: Timer)
    requires Good(ByDeadline, s.heap)
    requires Life(BooksOf(s)) && s.queue != [] && s.queue[0] == RemoveMsg(t) && s.msg == Idle
    ensures Life(BooksOf(Receive(s)))
  {
    RemoveTakenKeepsLife(BooksOf(s), t);
    HeldAfterRemove(s.heap, t);
    RemoveBooked(s, t, Elements(s.heap) - multiset{t});
  }

  lemma ReceiveExpire(s: State)
    requires Life(BooksOf(s)) && s.queue != [] && s.queue[0] == ExpireMsg && s.msg == Idle
    ensures Life(BooksOf(Receive(s)))
  {
    ExpireTakenKeepsLife(BooksOf(s));
    if s.heap.Node? {
      HeldAfterPop(s.heap);
      FiredKeepsLife(Dropped(BooksOf(s)), s.heap.data);
      ExpireBooked(s, Elements(s.heap) - multiset{s.heap.data});
    } else {
      ExpireBooked(s, Elements(s.heap));
    }
  }

  lemma HeldAfterRemove(h: Tree<Timer>, t: Timer)
    requires Good(ByDeadline, h)
    ensures Elements(Remove(ByDeadline, h, t).rest) == Elements(h) - multiset{t}
  {
    GoodAfterRemove(h, t);
  }

  lemma HeldAfterPop(h: Tree<Timer>)
    requires h.Node?
    ensures Elements(Pop(ByDeadline, h)) == Elements(h) - multiset{h.data} && h.data in Elements(h)
  {
    PopElements(ByDeadline, h);
  }

  lemma ContinueKeepsLife(s: State)
    requires Life(BooksOf(s)) && s.msg != Idle
    ensures Life(BooksOf(Continue(s)))
  {
    var held := Elements(s.heap);
    if s.msg.Firing? {
      ClientReadKeepsLife(BooksOf(s), s.msg.timer);
      FiringBooked(s, s.msg.timer, held);
    } else if s.msg.Stopping? {
      var c := s.msg.client;
      StoppingBooked(s, c, held);
      if c in s.running {
        LetKeepsLife(BooksOf(s), c, None);
      } else {
        StopFailedKeepsLife(BooksOf(s), c);
      }
    } else if s.msg.Popping? {
      ContinuePopping(s);
    } else {
      assert BooksOf(Continue(s)) == BooksOf(s);
    }
  }

  lemma ContinuePopping(s: State)
    requires Life(BooksOf(s)) && s.msg.Popping?
    ensures Life(BooksOf(Continue(s)))
  {
    if Continue(s).msg.Firing? {
      assert Continue(s).heap == Pop(ByDeadline, s.heap);
      HeldAfterPop(s.heap);
      FiredKeepsLife(BooksOf(s), s.heap.data);
      PoppingBooked(s, Elements(s.heap) - multiset{s.heap.data});
    } else {
      PoppingBooked(s, Elements(s.heap));
    }
  }

  lemma NextKeepsLife(s: State, a: Action)
    requires Good(ByDeadline, s.heap) && Life(BooksOf(s)) && Enabled(s, a)
    ensures Life(BooksOf(Next(s, a)))
  {
    var b, b' := BooksOf(s), BooksOf(Next(s, a));
    match a
    case Start(c, timeOut) =>
      if c !in s.running {
        StartedKeepsLife(b, c, FutureTime(s.now, timeOut));
        assert b' == Started(b, c, FutureTime(s.now, timeOut));
      }
    case Stop(c) =>
      if c in s.running {
        LetKeepsLife(b, c, b.stopping);
        assert b' == Let(b, c);
      }
    case PollSend =>
      ExpireQueuedKeepsLife(b);
      assert b' == b.(queue := b.queue + [ExpireMsg]);
    case MsgStep =>
      if s.msg == Idle {
        ReceiveKeepsLife(s);
      } else {
        ContinueKeepsLife(s);
      }
    case _ => assert b' == b;
  }

  lemma {:induction false} RunKeepsLife(s: State, actions: seq<Action>)
    requires KernelInv(s) && Life(BooksOf(s))
    ensures Life(BooksOf(Run(s, actions)))
    decreases |actions|
  {
    if actions != [] {
      if Enabled(s, actions[0]) {
        NextKeepsLife(s, actions[0]);
      }
      KernelInvKept(s, actions[0]);
      RunKeepsLife(Try(s, actions[0]), actions[1..]);
    }
  }

  // In every interleaving a delegate is deleted at most once, and a deleted one is referred
  // to by nothing that is still to be used: not by the heap, a queued push or removal, the
  // expiry in progress, or a client.
  lemma DeletedOnceAndForgotten(now: Instant, actions: seq<Action>)
    ensures var s := Run(Init(now), actions);
      && NoDuplicates(s.freed)
      && forall t | t in s.freed ::
           && t !in Elements(s.heap) && PushMsg(t) !in s.queue && RemoveMsg(t) !in s.queue
           && !(s.msg.Firing? && s.msg.timer == t)
           && t !in s.owner && forall c | c in s.running :: s.running[c] != t
  {
    RunKeepsLife(Init(now), actions);
  }

  // ---------- Starts, stops and callbacks ----------

  // A start succeeds if its client is not running, and then its timer, with the deadline
  // asked for, is on its way to the heap; or else it changes nothing.
  lemma StartTakesEffect(s: State, c: Client, timeOut: nat)
    requires Enabled(s, Start(c, timeOut))
    ensures var s' := Next(s, Start(c, timeOut));
      if c in s.running then s' == s
      else
        && c in s'.running && s'.running.Keys == s.running.Keys + {c} && s'.starts == s.starts + multiset{c}
        && Nanos(s'.running[c].when) == Nanos(s.now) + timeOut * 1_000_000
        && s'.queue == s.queue + [PushMsg(s'.running[c])]
  {
    FutureTimeIsExact(s.now, timeOut);
  }

  // A stop succeeds if its client is running, and then its timer is on its way out, and
  // knows its client no more; or else it changes nothing.
  lemma StopTakesEffect(s: State, c: Client)
    requires Life(BooksOf(s))
    ensures var s' := Next(s, Stop(c));
      if c !in s.running then s' == s
      else
        && s'.running == s.running - {c} && s'.stops == s.stops + multiset{c}
        && s'.queue == s.queue + [RemoveMsg(s.running[c])]
        && s'.owner == s.owner - {s.running[c]}
  {}

  // Every successful start is answered by one successful stop, of the client or of the
  // expiry, or is still running; every stop by an expiry leads to one callback.
  ghost predicate BalancedFor(s: State, c: Client) {
    && s.starts[c] == s.stops[c] + s.expiries[c] + One(c in s.running)
    && s.expiries[c] == s.callbacks[c] + One(s.msg.Calling? && s.msg.client == c)
  }

  lemma ClientStepKeepsBalanced(s: State, a: Action, c: Client)
    requires BalancedFor(s, c) && (a.Start? || a.Stop?) && Enabled(s, a)
    ensures BalancedFor(Next(s, a), c)
  {}

  lemma ContinueKeepsBalanced(s: State, c: Client)
    requires BalancedFor(s, c) && s.msg != Idle
    ensures BalancedFor(Continue(s), c)
  {}

  lemma ReceiveKeepsBalanced(s: State, c: Client)
    requires BalancedFor(s, c) && s.msg == Idle && s.queue != []
    ensures BalancedFor(Receive(s), c)
  {}

  lemma {:induction false} RunKeepsBalanced(s: State, actions: seq<Action>, c: Client)
    requires BalancedFor(s, c)
    ensures BalancedFor(Run(s, actions), c)
    decreases |actions|
  {
    if actions != [] {
      var a := actions[0];
      if Enabled(s, a) {
        if a.Start? || a.Stop? {
          ClientStepKeepsBalanced(s, a, c);
        } else if a.MsgStep? && s.msg == Idle {
          ReceiveKeepsBalanced(s, c);
        } else if a.MsgStep? {
          ContinueKeepsBalanced(s, c);
        }
      }
      RunKeepsBalanced(Try(s, a), actions[1..], c);
    }
  }

  // Callbacks and client stops together never exceed the starts, and trail them by at most
  // one when the stop and the callback of an expiry count as one step.
  lemma CallbacksNeverExceedStarts(now: Instant, actions: seq<Action>, c: Client)
    ensures var s := Run(Init(now), actions);
      var calling := One(s.msg.Calling? && s.msg.client == c);
      s.callbacks[c] + s.stops[c] + calling <= s.starts[c] <= s.callbacks[c] + s.stops[c] + calling + 1
  {
    RunKeepsBalanced(Init(now), actions, c);
  }
}
