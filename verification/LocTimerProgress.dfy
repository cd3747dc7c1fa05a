/** Liveness of the timer service. While the clock stands still and the clients are quiet,
    the message task and the poll thread can take only a bounded number of steps, however
    they are scheduled, and when neither can take another, every due timer has fired. */
module LocTimerProgress {

  import opened Wrappers
  import opened HeapTree
  import opened LocTimerRank
  import opened LocTimerContainer
  import opened LocTimerProtocol
  import opened LocTimerLifecycle

  predicate Internal(a: Action) {
    !a.Start? && !a.Stop? && !a.Tick?
  }

  predicate Quiescent(s: State) {
    s.msg == Idle && s.queue == [] && s.poll == Waiting && !Readable(s)
  }

  lemma QuiescentMeansNoStep(s: State)
    ensures Quiescent(s) <==> forall a :: Internal(a) ==> !Enabled(s, a)
  {
    if forall a :: Internal(a) ==> !Enabled(s, a) {
      assert !Enabled(s, MsgStep) && !Enabled(s, PollWake) && !Enabled(s, PollDisarm);
      assert !Enabled(s, PollRemove) && !Enabled(s, PollSend);
    }
  }

  // ---------- How many steps may still follow ----------

  // What each thing in the system may still cause: an expire message its own step and the
  // wait for the next; a kernel timer that is due a wake-up, three steps of the poll thread
  // and the message; a removal and a re-arming; and so on.
  const EXPIRE_COST := 3
  const DUE_COST := 7
  const REMOVE_COST := 10
  const TIMER_COST := 14
  const PUSH_COST := 24

  function DueCost(when: Instant, now: Instant): nat {
    if Due(when, now) then DUE_COST else 0
  }

  function MsgCost(m: Msg): nat {
    match m
    case PushMsg(_) => PUSH_COST
    case RemoveMsg(_) => REMOVE_COST
    case ExpireMsg => EXPIRE_COST
  }

  function QueueCost(q: seq<Msg>): nat {
    if q == [] then 0 else MsgCost(q[0]) + QueueCost(q[1..])
  }

  // An expiry that started earlier may leave a timer behind that is due by now.
  function PoppingCost(started: Instant, now: Instant): nat {
    3 + if Nanos(started) < Nanos(now) then DUE_COST else 0
  }

  function MsgPcCost(pc: MsgPc, now: Instant): nat {
    match pc
    case Idle => 0
    case Firing(_, started) => 3 + REMOVE_COST + PoppingCost(started, now)
    case Stopping(_, started) => 2 + REMOVE_COST + PoppingCost(started, now)
    case Calling(_, started) => 1 + PoppingCost(started, now)
    case Popping(started) => PoppingCost(started, now)
    case Polling(when) => 2 + DueCost(when, now)
    case Setting(when) => 1 + DueCost(when, now)
    case Unpolling => 2
    case Disarming => 1
  }

  function PollCost(poll: PollPc): nat {
    match poll
    case Waiting => 0
    case Woken => 3 + EXPIRE_COST
    case Disarmed => 2 + EXPIRE_COST
    case Unpolled => 1 + EXPIRE_COST
  }

  // A poll thread that is awake is about to disarm the kernel timer.
  function ArmedCost(kernel: Kernel, poll: PollPc, now: Instant): nat {
    if kernel.armed.Some? && poll != Woken then DueCost(kernel.armed.value, now) else 0
  }

  function Measure(s: State): nat {
    QueueCost(s.queue) + TIMER_COST * Count(s.heap) + MsgPcCost(s.msg, s.now)
    + PollCost(s.poll) + ArmedCost(s.kernel, s.poll, s.now)
  }

  lemma {:induction false} QueueCostAppend(q: seq<Msg>, m: Msg)
    ensures QueueCost(q + [m]) == QueueCost(q) + MsgCost(m)
  {
    if q != [] {
      assert (q + [m])[1..] == q[1..] + [m];
      QueueCostAppend(q[1..], m);
    }
  }

  lemma ReceiveDecreases(s: State)
    requires s.msg == Idle && s.queue != []
    ensures Measure(Receive(s)) < Measure(s)
  {
    match s.queue[0]
    case PushMsg(t) => PushSizes(ByDeadline, s.heap, t);
    case RemoveMsg(t) => RemoveSizes(ByDeadline, s.heap, t);
    case ExpireMsg =>
      if s.heap.Node? {
        PopSizes(ByDeadline, s.heap);
      }
  }

  lemma ContinueDecreases(s: State)
    requires s.msg != Idle
    ensures Measure(Continue(s)) < Measure(s)
  {
    if s.msg.Stopping? {
      StoppingDecreases(s);
    } else if s.msg.Popping? && s.heap.Node? {
      PopSizes(ByDeadline, s.heap);
    }
  }

  lemma StoppingDecreases(s: State)
    requires s.msg.Stopping?
    ensures Measure(Continue(s)) < Measure(s)
  {
    if s.msg.client in s.running {
      QueueCostAppend(s.queue, RemoveMsg(s.running[s.msg.client]));
    }
  }

  lemma StepDecreases(s: State, a: Action)
    requires Internal(a) && Enabled(s, a)
    ensures Measure(Next(s, a)) < Measure(s) && Next(s, a).now == s.now
  {
    if a == MsgStep {
      if s.msg == Idle {
        ReceiveDecreases(s);
      } else {
        ContinueDecreases(s);
      }
    } else {
      PollDecreases(s, a);
    }
  }

  lemma PollDecreases(s: State, a: Action)
    requires Internal(a) && a != MsgStep && Enabled(s, a)
    ensures Measure(Next(s, a)) < Measure(s) && Next(s, a).now == s.now
  {
    if a == PollSend {
      QueueCostAppend(s.queue, ExpireMsg);
    }
  }

  // A schedule of the two threads in which no turn is wasted.
  predicate Schedule(s: State, actions: seq<Action>)
    decreases |actions|
  {
    actions != [] ==>
      Internal(actions[0]) && Enabled(s, actions[0]) && Schedule(Next(s, actions[0]), actions[1..])
  }

  lemma {:induction false} ScheduleIsBounded(s: State, actions: seq<Action>)
    requires Schedule(s, actions)
    ensures |actions| + Measure(Run(s, actions)) <= Measure(s)
    ensures Run(s, actions).now == s.now
    decreases |actions|
  {
    if actions != [] {
      StepDecreases(s, actions[0]);
      ScheduleIsBounded(Next(s, actions[0]), actions[1..]);
    }
  }

  // A schedule can always be continued until there is nothing left to do.
  lemma {:induction false} ScheduleToTheEnd(s: State) returns (actions: seq<Action>)
    ensures Schedule(s, actions) && Quiescent(Run(s, actions))
    decreases Measure(s)
  {
    if Quiescent(s) {
      actions := [];
    } else {
      QuiescentMeansNoStep(s);
      var a :| Internal(a) && Enabled(s, a);
      StepDecreases(s, a);
      var rest := ScheduleToTheEnd(Next(s, a));
      actions := [a] + rest;
      assert actions[1..] == rest;
    }
  }

  // ---------- The steps of a message make up its procedure ----------

  // The message task goes on with the procedure it is in, to its end, and nothing happens
  // in between.
  function Alone(s: State): State
    decreases Measure(s)
  {
    if s.msg == Idle then s
    else
      ContinueDecreases(s);
      Alone(Continue(s))
  }

  function ServiceOf(s: State): Service {
    Service(s.heap, s.kernel)
  }

  lemma AloneOne(s: State)
    requires s.msg != Idle
    ensures Alone(s) == Alone(Continue(s))
  {}

  lemma AloneRearms(s: State, r: Rearming)
    requires s.msg == Begin(r)
    ensures ServiceOf(Alone(s)) == Service(s.heap, Rearmed(s.kernel, r))
  {
    if s.msg != Idle {
      AloneOne(s);
      AloneOne(Continue(s));
    }
  }

  lemma {:induction false} AlonePops(s: State)
    requires s.msg.Popping?
    ensures var t := PopDue(s.heap, Timer(0, s.msg.started)).rest;
      ServiceOf(Alone(s)) == Service(t, Rearmed(s.kernel, UpdateSoonest(None, Top(t))))
    decreases Count(s.heap), 0
  {
    var now := Timer(0, s.msg.started);
    AloneOne(s);
    if s.heap.Leaf? || OutRanks(ByDeadline, now, s.heap.data) {
      AloneRearms(Continue(s), UpdateSoonest(None, Top(s.heap)));
    } else {
      PopDueOne(s.heap, now);
      PopSizes(ByDeadline, s.heap);
      AloneFires(Continue(s));
    }
  }

  // The callback and the stop of an expiry leave the heap alone.
  lemma {:induction false} AloneFires(s: State)
    requires s.msg.Firing?
    ensures var t := PopDue(s.heap, Timer(0, s.msg.started)).rest;
      ServiceOf(Alone(s)) == Service(t, Rearmed(s.kernel, UpdateSoonest(None, Top(t))))
    decreases Count(s.heap), 1
  {
    AloneOne(s);
    var s1 := Continue(s);
    if s1.msg.Stopping? {
      AloneOne(s1);
      var s2 := Continue(s1);
      if s2.msg.Calling? {
        AloneOne(s2);
        AlonePops(Continue(s2));
      } else {
        AlonePops(s2);
      }
    } else {
      AlonePops(s1);
    }
  }

  // Without anything in between, the steps of a message do to the heap and to the kernel
  // timer what its procedure does.
  lemma StepsMakeUpTheProcedure(s: State)
    requires s.msg == Idle && s.queue != []
    ensures ServiceOf(Alone(Receive(s))) ==
      match s.queue[0]
      case PushMsg(t) => AfterPush(ServiceOf(s), t)
      case RemoveMsg(t) => AfterRemove(ServiceOf(s), t)
      case ExpireMsg => AfterExpire(ServiceOf(s), Timer(0, s.now))
  {
    match s.queue[0]
    case PushMsg(t) =>
      AloneRearms(Receive(s), UpdateSoonest(Top(s.heap), Top(Push(ByDeadline, s.heap, t))));
    case RemoveMsg(t) =>
      if Receive(s).msg != Idle {
        AloneRearms(Receive(s), UpdateSoonest(None, Top(Receive(s).heap)));
      }
    case ExpireMsg =>
      if s.heap.Node? {
        AloneFires(Receive(s));
      }
  }

  // ---------- What a quiescent service has done ----------

  lemma QuiescentMeansDone(s: State)
    requires KernelInv(s) && Life(BooksOf(s)) && Quiescent(s)
    ensures NoneDue(s.heap, s.now)
    ensures forall c | c in s.running :: s.running[c] in Elements(s.heap) && !Due(s.running[c].when, s.now)
    ensures s.live == s.owner.Keys
  {
    if s.heap.Node? {
      assert Armed(s.heap, s.kernel);
      TopIsSoonest(s.heap);
    }
    forall c | c in s.running ensures s.running[c] in Elements(s.heap) {
      assert s.running[c] in s.owner;
    }
    forall t | t in s.live ensures t in s.owner {
      assert RemoveMsg(t) !in s.queue;
    }
  }

  // No client starts or stops anything in a schedule.
  lemma StepKeepsClients(s: State, a: Action)
    requires Internal(a) && Enabled(s, a)
    ensures var s' := Next(s, a);
      && s'.starts == s.starts && s'.stops == s.stops
      && forall c | c in s'.running :: c in s.running && s'.running[c] == s.running[c]
  {
    if a == MsgStep {
      MsgStepKeepsClients(s);
    }
  }

  lemma MsgStepKeepsClients(s: State)
    requires Enabled(s, MsgStep)
    ensures var s' := Next(s, MsgStep);
      && s'.starts == s.starts && s'.stops == s.stops
      && s'.running == if s.msg.Stopping? then s.running - {s.msg.client} else s.running
  {}

  lemma {:induction false} ScheduleKeepsClients(s: State, actions: seq<Action>)
    requires Schedule(s, actions)
    ensures var s' := Run(s, actions);
      && s'.starts == s.starts && s'.stops == s.stops
      && forall c | c in s'.running :: c in s.running && s'.running[c] == s.running[c]
    decreases |actions|
  {
    if actions != [] {
      StepKeepsClients(s, actions[0]);
      ScheduleKeepsClients(Next(s, actions[0]), actions[1..]);
    }
  }

  // A client is about to be called back.
  predicate IsCalling(s: State, c: Client) {
    s.msg.Calling? && s.msg.client == c
  }

  // From every state that any run reaches: under every schedule the two threads come to
  // rest within Measure steps, and then no waiting timer is due, every running client
  // still has its timer in the heap with its deadline ahead, and every delegate that lost
  // its client has been deleted.
  lemma EveryDueTimerIsGone(boot: Instant, history: seq<Action>, schedule: seq<Action>)
    requires Schedule(Run(Init(boot), history), schedule)
    ensures var s := Run(Init(boot), history);
      var s' := Run(s, schedule);
      && |schedule| <= Measure(s) && s'.now == s.now
      && (Quiescent(s') ==>
            && NoneDue(s'.heap, s.now)
            && (forall c | c in s'.running :: s'.running[c] in Elements(s'.heap) && !Due(s'.running[c].when, s.now))
            && s'.live == s'.owner.Keys)
  {
    var s := Run(Init(boot), history);
    RunKeepsKernelInv(Init(boot), history);
    RunKeepsLife(Init(boot), history);
    ScheduleIsBounded(s, schedule);
    RunKeepsKernelInv(s, schedule);
    RunKeepsLife(s, schedule);
    if Quiescent(Run(s, schedule)) {
      QuiescentMeansDone(Run(s, schedule));
    }
  }

  // And each client whose timer was due has stopped running and has been called back for
  // it: once, and once more if it was already being called. No client is called back but
  // for a timer that has stopped running meanwhile.
  lemma EveryDueTimerFires(boot: Instant, history: seq<Action>, schedule: seq<Action>, c: Client)
    requires Schedule(Run(Init(boot), history), schedule) && Quiescent(Run(Run(Init(boot), history), schedule))
    ensures var s := Run(Init(boot), history);
      var s' := Run(s, schedule);
      && NoneDue(s'.heap, s.now) && s'.live == s'.owner.Keys
      && (c in s'.running ==> s'.running[c] in Elements(s'.heap))
      && (c in s.running && Due(s.running[c].when, s.now) ==> c !in s'.running)
      && s'.callbacks[c] + One(c in s'.running) == s.callbacks[c] + One(c in s.running) + One(IsCalling(s, c))
  {
    var s := Run(Init(boot), history);
    EveryDueTimerIsGone(boot, history, schedule);
    ScheduleKeepsClients(s, schedule);
    RunKeepsBalanced(Init(boot), history, c);
    RunKeepsBalanced(s, schedule, c);
  }
}
