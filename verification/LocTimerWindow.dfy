/** Why the int arithmetic of LocTimerDelegate::ranks is good enough for a running timer
    service: the deadlines it has to compare lie in one window of 2^31 seconds, unless the
    message task leaves a timer overdue for decades. */
module LocTimerWindow {

  import opened Runs
  import opened Wrappers
  import opened HeapTree
  import opened LocTimerRank
  import opened LocTimerProtocol
  import opened LocTimerLifecycle

  // A time-out is an unsigned int, so a deadline lies less than 50 days ahead.
  const REACH := 4_294_968
  const PATIENCE := WINDOW - REACH - 1

  predicate WithinReach(t: Instant, now: Instant) {
    Nanos(t) <= Nanos(now) + UINT32_MAX * 1_000_000
  }

  ghost predicate LiveWithinReach(s: State) {
    forall t | t in s.live :: WithinReach(t.when, s.now)
  }

  lemma StepKeepsReach(s: State, a: Action)
    requires LiveWithinReach(s)
    ensures LiveWithinReach(Try(s, a))
  {
    if a.Start? && Enabled(s, a) {
      FutureTimeIsExact(s.now, a.timeOut);
    }
  }

  lemma {:induction false} RunKeepsReach(s: State, actions: seq<Action>)
    requires LiveWithinReach(s)
    ensures LiveWithinReach(Run(s, actions))
    decreases |actions|
  {
    if actions != [] {
      StepKeepsReach(s, actions[0]);
      RunKeepsReach(Try(s, actions[0]), actions[1..]);
    }
  }

  ghost predicate NoneLongOverdue(s: State) {
    forall t | t in s.live :: s.now.sec - t.when.sec <= PATIENCE
  }

  // The time that an expire message took at its start.
  predicate Recent(t: Instant, now: Instant) {
    Nanos(t) <= Nanos(now) && now.sec - t.sec <= PATIENCE
  }

  lemma LiveInWindow(s: State, t: Timer)
    requires LiveWithinReach(s) && NoneLongOverdue(s) && (t in s.live || Recent(t.when, s.now))
    ensures InWindow(t.when, s.now.sec - PATIENCE)
  {
    if t in s.live {
      assert WithinReach(t.when, s.now);
    }
  }

  lemma HeldIsLive(b: Books, y: Timer)
    requires InOnePlace(b) && y in b.held
    ensures y in b.live
  {}

  lemma HeapInWindow(s: State, x: Timer)
    requires LiveWithinReach(s) && NoneLongOverdue(s) && (x in s.live || Recent(x.when, s.now))
    requires InOnePlace(BooksOf(s))
    ensures AllInWindow(s.heap, x, s.now.sec - PATIENCE)
  {
    LiveInWindow(s, x);
    forall y | y in Elements(s.heap) ensures InWindow(y.when, s.now.sec - PATIENCE) {
      HeldIsLive(BooksOf(s), y);
      LiveInWindow(s, y);
    }
  }

  // Each operation of the heap, and each comparison with its top, is as if by deadline.
  ghost predicate ExactFor(t: Tree<Timer>, x: Timer) {
    && Push(TimerRanks, t, x) == Push(ByDeadline, t, x)
    && (t.Node? ==> Pop(TimerRanks, t) == Pop(ByDeadline, t))
    && Remove(TimerRanks, t, x) == Remove(ByDeadline, t, x)
    && (t.Node? ==> (OutRanks(TimerRanks, x, t.data) <==> OutRanks(ByDeadline, x, t.data)))
  }

  lemma HeapIsExact(s: State, x: Timer)
    requires LiveWithinReach(s) && NoneLongOverdue(s) && (x in s.live || Recent(x.when, s.now))
    requires InOnePlace(BooksOf(s))
    ensures ExactFor(s.heap, x)
  {
    HeapInWindow(s, x);
    HeapIsByDeadline(s.heap, x, s.now.sec - PATIENCE);
    if s.heap.Node? {
      assert s.heap.data in Elements(s.heap);
      RanksIsByDeadline(x.when, s.heap.data.when, s.now.sec - PATIENCE);
    }
  }

  // In every interleaving: as long as no live timer is overdue by more than PATIENCE
  // seconds, which is 68 years, every comparison made for a live timer, or for the time of
  // an expire message, is by deadline.
  lemma HeapIsExactUnlessOverdue(boot: Instant, actions: seq<Action>, x: Timer)
    ensures var s := Run(Init(boot), actions);
      NoneLongOverdue(s) && (x in s.live || Recent(x.when, s.now)) ==> ExactFor(s.heap, x)
  {
    var s := Run(Init(boot), actions);
    RunKeepsReach(Init(boot), actions);
    RunKeepsLife(Init(boot), actions);
    if NoneLongOverdue(s) && (x in s.live || Recent(x.when, s.now)) {
      HeapIsExact(s, x);
    }
  }

  // ---------- The run by ranks is the run by deadlines ----------

  // The timer service as it is, comparing by LocTimerDelegate::ranks.
  function TryByRanks(s: State, a: Action): State {
    if Enabled(s, a) then NextBy(TimerRanks, s, a) else s
  }

  // The time an expiry in progress took at its start.
  function StartOf(msg: MsgPc): Option<Instant> {
    match msg
    case Firing(_, started) => Some(started)
    case Stopping(_, started) => Some(started)
    case Calling(_, started) => Some(started)
    case Popping(started) => Some(started)
    case Idle => None
    case Polling(_) => None
    case Setting(_) => None
    case Unpolling => None
    case Disarming => None
  }

  predicate StartIsPast(s: State) {
    StartOf(s.msg).Some? ==> Nanos(StartOf(s.msg).value) <= Nanos(s.now)
  }

  // No timer is long overdue, and no expiry takes that long.
  ghost predicate Prompt(s: State) {
    NoneLongOverdue(s) && (StartOf(s.msg).Some? ==> s.now.sec - StartOf(s.msg).value.sec <= PATIENCE)
  }

  ghost predicate AlwaysPrompt(s: State, actions: seq<Action>)
    decreases |actions|
  {
    Prompt(s) && (actions != [] ==> AlwaysPrompt(Try(s, actions[0]), actions[1..]))
  }

  lemma StepKeepsStartPast(s: State, a: Action)
    requires StartIsPast(s)
    ensures StartIsPast(Try(s, a))
  {}

  lemma QueuedIsLive(b: Books, t: Timer)
    requires RemovalsDue(b) && InOnePlace(b) && (PushMsg(t) in b.queue || RemoveMsg(t) in b.queue)
    ensures t in b.live
  {}

  lemma PushByRanks(s: State, t: Timer)
    requires ExactFor(s.heap, t) && s.queue != [] && s.queue[0] == PushMsg(t)
    ensures ReceiveBy(TimerRanks, s) == Receive(s)
  {
    PushTop(ByDeadline, s.heap, t);
  }

  lemma ReceiveByRanks(s: State)
    requires LiveWithinReach(s) && Prompt(s) && RemovalsDue(BooksOf(s)) && InOnePlace(BooksOf(s))
    requires s.msg == Idle && s.queue != []
    ensures ReceiveBy(TimerRanks, s) == Receive(s)
  {
    assert s.queue[0] in s.queue;
    match s.queue[0]
    case PushMsg(t) =>
      QueuedIsLive(BooksOf(s), t);
      HeapIsExact(s, t);
      PushByRanks(s, t);
    case RemoveMsg(t) =>
      QueuedIsLive(BooksOf(s), t);
      HeapIsExact(s, t);
    case ExpireMsg => HeapIsExact(s, Timer(0, s.now));
  }

  lemma ContinueByRanks(s: State)
    requires LiveWithinReach(s) && Prompt(s) && StartIsPast(s) && InOnePlace(BooksOf(s))
    requires s.msg != Idle
    ensures ContinueBy(TimerRanks, s) == Continue(s)
  {
    if s.msg.Popping? {
      HeapIsExact(s, Timer(0, s.msg.started));
    }
  }

  lemma {:induction false} RunByRanks(s: State, actions: seq<Action>)
    requires LiveWithinReach(s) && StartIsPast(s) && KernelInv(s) && Life(BooksOf(s)) && AlwaysPrompt(s, actions)
    ensures RunOf(TryByRanks, s, actions) == Run(s, actions)
    decreases |actions|
  {
    if actions != [] {
      var a := actions[0];
      if a == MsgStep && Enabled(s, a) {
        if s.msg == Idle {
          ReceiveByRanks(s);
        } else {
          ContinueByRanks(s);
        }
      }
      assert TryByRanks(s, a) == Try(s, a);
      StepKeepsReach(s, a);
      StepKeepsStartPast(s, a);
      KernelInvKept(s, a);
      if Enabled(s, a) {
        NextKeepsLife(s, a);
      }
      RunByRanks(Try(s, a), actions[1..]);
    }
  }

  // In every interleaving in which no live timer is ever overdue by 68 years, nor an expiry
  // under way for that long, the service by its own ranks does, step by step, what the
  // service by deadlines does. So all that is proved of the one holds of the other.
  lemma RunByRanksIsByDeadline(boot: Instant, actions: seq<Action>)
    requires AlwaysPrompt(Init(boot), actions)
    ensures RunOf(TryByRanks, Init(boot), actions) == Run(Init(boot), actions)
  {
    RunByRanks(Init(boot), actions);
  }
}
