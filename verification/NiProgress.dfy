/** No NI payload gets stuck. While no request and no answer of a user comes in, the session
    threads and the message task can take only a bounded number of steps, however they are
    scheduled, and when none of them can take another, every accepted payload is freed. */
module NiProgress {

  import opened Wrappers
  import opened NiSessions

  predicate Internal(a: Action) {
    !a.Notify? && !a.Respond?
  }

  predicate AtRest(s: State) {
    s.threads == map[] && s.queue == [] && s.msg == Idle
  }

  lemma AtRestMeansNoStep(s: State)
    ensures AtRest(s) <==> forall a :: Internal(a) ==> !Enabled(s, a)
  {
    if forall a :: Internal(a) ==> !Enabled(s, a) {
      assert !Enabled(s, MsgGoOn) && !Enabled(s, Inform);
      forall t ensures t !in s.threads {
        assert !Enabled(s, Check(t)) && !Enabled(s, Timeout(t)) && !Enabled(s, Reset(t)) && !Enabled(s, Send(t));
      }
    }
  }

  // ---------- How many steps may still follow ----------

  // The steps of a thread, and the step of the message task for its reply.
  function ThreadSteps(pc: ThreadPc): nat {
    match pc
    case Started(_) => 5
    case Waiting(_) => 4
    case Unlocked(_) => 3
    case Sending(_) => 2
  }

  // For the threads with numbers below n.
  function AllThreadSteps(threads: Threads, n: nat): nat {
    if n == 0 then 0
    else AllThreadSteps(threads, n - 1) + if n - 1 in threads then ThreadSteps(threads[n - 1].pc) else 0
  }

  function MsgSteps(msg: MsgPc): nat {
    match msg
    case Idle => 0
    case Setting(_, _) => 1
    case Ignoring(_) => 2
  }

  function Measure(s: State): nat {
    AllThreadSteps(s.threads, s.nextThread) + |s.queue| + MsgSteps(s.msg)
  }

  lemma {:induction false} ThreadGoesOn(threads: Threads, n: nat, t: Thread, x: ThreadState)
    requires t in threads
    ensures AllThreadSteps(threads[t := x], n) + (if t < n then ThreadSteps(threads[t].pc) else 0)
            == AllThreadSteps(threads, n) + if t < n then ThreadSteps(x.pc) else 0
  {
    if n > 0 {
      ThreadGoesOn(threads, n - 1, t, x);
    }
  }

  lemma {:induction false} ThreadIsOver(threads: Threads, n: nat, t: Thread)
    requires t in threads
    ensures AllThreadSteps(threads - {t}, n) + (if t < n then ThreadSteps(threads[t].pc) else 0)
            == AllThreadSteps(threads, n)
  {
    if n > 0 {
      ThreadIsOver(threads, n - 1, t);
    }
  }

  lemma StepDecreases(s: State, a: Action)
    requires Internal(a) && Enabled(s, a)
    requires forall t | t in s.threads :: t < s.nextThread
    ensures Measure(Next(s, a)) < Measure(s)
  {
    if a.Check? || a.Wake? || a.Timeout? || a.Reset? {
      ThreadGoesOn(s.threads, s.nextThread, a.thread, Next(s, a).threads[a.thread]);
      assert Next(s, a).threads == s.threads[a.thread := Next(s, a).threads[a.thread]];
    } else if a.Send? {
      ThreadIsOver(s.threads, s.nextThread, a.thread);
    }
  }

  // A schedule in which no turn is wasted.
  predicate Schedule(s: State, actions: seq<Action>)
    decreases |actions|
  {
    actions != [] ==>
      Internal(actions[0]) && Enabled(s, actions[0]) && Schedule(Next(s, actions[0]), actions[1..])
  }

  lemma {:induction false} ScheduleIsBounded(s: State, actions: seq<Action>)
    requires Inv(s) && Schedule(s, actions)
    ensures |actions| + Measure(Run(s, actions)) <= Measure(s)
    ensures Run(s, actions).place.Keys == s.place.Keys
    decreases |actions|
  {
    if actions != [] {
      StepDecreases(s, actions[0]);
      StepKeepsPayloads(s, actions[0]);
      StepKeepsInv(s, actions[0]);
      ScheduleIsBounded(Next(s, actions[0]), actions[1..]);
    }
  }

  // Payloads come in by requests only.
  lemma StepKeepsPayloads(s: State, a: Action)
    requires Inv(s) && Enabled(s, a) && Internal(a)
    ensures Next(s, a).place.Keys == s.place.Keys
  {
    if a.Check? || a.Wake? || a.Timeout? {
      var raw := Get(s, s.threads[a.thread].which).rawRequest;
      assert raw.Some? ==> raw.value in s.place;
    }
  }

  // A schedule can always be continued until there is nothing left to do.
  lemma {:induction false} ScheduleToTheEnd(s: State) returns (actions: seq<Action>)
    requires Inv(s)
    ensures Schedule(s, actions) && AtRest(Run(s, actions))
    decreases Measure(s)
  {
    if AtRest(s) {
      actions := [];
    } else {
      AtRestMeansNoStep(s);
      var a :| Internal(a) && Enabled(s, a);
      StepDecreases(s, a);
      StepKeepsInv(s, a);
      var rest := ScheduleToTheEnd(Next(s, a));
      actions := [a] + rest;
      assert actions[1..] == rest;
    }
  }

  // ---------- What has become of the payloads ----------

  lemma AtRestAllAreFreed(s: State)
    requires Inv(s) && AtRest(s)
    ensures NoDuplicates(s.freed) && forall p :: p in s.freed <==> p in s.place
  {
    forall p | p in s.place ensures p in s.freed {
      assert !s.place[p].InSession? && !s.place[p].InThread? && !Holds(s.queue, p);
    }
  }

  // From every state that any run reaches: under every schedule the threads and the message
  // task come to rest within Measure steps, without any answer of a user, and then each
  // payload accepted so far has been freed, and freed once.
  lemma EveryPayloadIsConsumed(history: seq<Action>, schedule: seq<Action>)
    requires Schedule(Run(Init(), history), schedule)
    ensures var s := Run(Init(), history);
      var s' := Run(s, schedule);
      && |schedule| <= Measure(s)
      && (AtRest(s') ==> NoDuplicates(s'.freed) && forall p :: p in s'.freed <==> p in s.place)
  {
    var s := Run(Init(), history);
    RunKeepsInv(Init(), history);
    ScheduleIsBounded(s, schedule);
    RunKeepsInv(s, schedule);
    if AtRest(Run(s, schedule)) {
      AtRestAllAreFreed(Run(s, schedule));
    }
  }
}
