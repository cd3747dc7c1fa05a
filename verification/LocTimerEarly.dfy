/** When a timer may call back ahead of its deadline. An onlooker notes how the expiry in
    progress came about; its note decides, in every interleaving, whether the callback is
    early. */
module LocTimerEarly {

  import opened Runs
  import opened Wrappers
  import opened HeapTree
  import opened LocTimerRank
  import opened LocTimerContainer
  import opened LocTimerProtocol
  import opened LocTimerLifecycle

  // ---------- What an onlooker notes ----------

  datatype Restart = Restart(at: Instant, timeOut: nat)

  // The delegate that was popped; whether an expire message popped it, as it does with its
  // first one, while its deadline was still ahead; whether its client has been started anew
  // between the look at mClient and the call of stop; and the delegate that was stopped.
  datatype Note = Note(popped: Timer, unripe: bool, restart: Option<Restart>, stopped: Option<Timer>)

  datatype Watched = Watched(state: State, note: Option<Note>)

  // An expire message meets a heap whose top is not due.
  predicate TakesUnripe(s: State, a: Action) {
    a == MsgStep && s.msg == Idle && s.queue != [] && s.queue[0] == ExpireMsg
    && s.heap.Node? && !Due(s.heap.data.when, s.now)
  }

  // A client that is about to be stopped by an expiry is stopped and is now started again.
  predicate Restarts(s: State, a: Action) {
    a.Start? && Enabled(s, a) && s.msg.Stopping? && s.msg.client == a.client && a.client !in s.running
  }

  function NoteOf(s: State, a: Action, n: Option<Note>): Option<Note>
    requires Enabled(s, a)
  {
    if a == MsgStep && Next(s, a).msg.Firing? then
      Some(Note(s.heap.data, TakesUnripe(s, a), None, None))
    else if n.None? then None
    else if Restarts(s, a) then Some(n.value.(restart := Some(Restart(s.now, a.timeOut))))
    else if a == MsgStep && s.msg.Stopping? && s.msg.client in s.running then
      Some(n.value.(stopped := Some(s.running[s.msg.client])))
    else n
  }

  function Watch(w: Watched, a: Action): Watched {
    if Enabled(w.state, a) then Watched(Next(w.state, a), NoteOf(w.state, a, w.note)) else w
  }

  lemma {:induction false} WatchingChangesNothing(w: Watched, actions: seq<Action>)
    ensures RunOf(Watch, w, actions).state == Run(w.state, actions)
    decreases |actions|
  {
    if actions != [] {
      WatchingChangesNothing(Watch(w, actions[0]), actions[1..]);
    }
  }

  // ---------- What the note says about the stopped delegate ----------

  // The two ways to be early: the top was popped unseen and time has not caught up with it,
  // or the client was started anew and its new time-out has not passed.
  predicate TooSoon(n: Note, now: Instant) {
    match n.restart
    case None => n.unripe && !Due(n.popped.when, now)
    case Some(r) => Nanos(now) < Nanos(r.at) + r.timeOut * 1_000_000
  }

  // t is the delegate that the expiry stops.
  ghost predicate Explains(n: Note, t: Timer) {
    match n.restart
    case None => t == n.popped
    case Some(r) => t.when == FutureTime(r.at, r.timeOut)
  }

  ghost predicate NoteOk(s: State, note: Option<Note>) {
    match s.msg
    case Firing(t, started) =>
      && note.Some? && note.value.popped == t && note.value.restart.None?
      && (!note.value.unripe ==> Due(t.when, s.now)) && Nanos(started) <= Nanos(s.now)
    case Stopping(c, started) =>
      && note.Some? && (!note.value.unripe ==> Due(note.value.popped.when, s.now)) && Nanos(started) <= Nanos(s.now)
      && (c in s.running ==> Explains(note.value, s.running[c]))
    case Calling(c, started) =>
      && note.Some? && (!note.value.unripe ==> Due(note.value.popped.when, s.now)) && Nanos(started) <= Nanos(s.now)
      && note.value.stopped.Some? && Explains(note.value, note.value.stopped.value)
    case Popping(started) => Nanos(started) <= Nanos(s.now)
    case _ => true
  }

  lemma ClientStepKeepsNote(s: State, a: Action, n: Option<Note>)
    requires NoteOk(s, n) && Enabled(s, a) && a != MsgStep
    ensures NoteOk(Next(s, a), NoteOf(s, a, n))
  {}

  lemma ReceiveKeepsNote(s: State, n: Option<Note>)
    requires NoteOk(s, n) && s.msg == Idle && s.queue != []
    ensures NoteOk(Receive(s), NoteOf(s, MsgStep, n))
  {}

  lemma ContinueKeepsNote(s: State, n: Option<Note>)
    requires NoteOk(s, n) && Matched(BooksOf(s)) && s.msg != Idle
    ensures NoteOk(Continue(s), NoteOf(s, MsgStep, n))
  {}

  lemma {:induction false} RunKeepsNote(w: Watched, actions: seq<Action>)
    requires NoteOk(w.state, w.note) && KernelInv(w.state) && Life(BooksOf(w.state))
    ensures NoteOk(RunOf(Watch, w, actions).state, RunOf(Watch, w, actions).note)
    decreases |actions|
  {
    if actions != [] {
      var s, a := w.state, actions[0];
      if Enabled(s, a) {
        if a == MsgStep {
          if s.msg == Idle {
            ReceiveKeepsNote(s, w.note);
          } else {
            ContinueKeepsNote(s, w.note);
          }
        } else {
          ClientStepKeepsNote(s, a, w.note);
        }
        NextKeepsLife(s, a);
      }
      KernelInvKept(s, a);
      RunKeepsNote(Watch(w, a), actions[1..]);
    }
  }

  lemma ExplainedIsEarlyIff(n: Note, t: Timer, now: Instant)
    requires Explains(n, t) && (!n.unripe ==> Due(n.popped.when, now))
    ensures !Due(t.when, now) <==> TooSoon(n, now)
  {
    if n.restart.Some? {
      FutureTimeIsExact(n.restart.value.at, n.restart.value.timeOut);
    }
  }

  // In every interleaving, when an expiry is about to stop a delegate, and when it is about
  // to call back for the delegate it has stopped: the delegate's deadline is ahead if and
  // only if the note says too soon.
  lemma EarlyIffTooSoon(boot: Instant, actions: seq<Action>)
    ensures var w := RunOf(Watch, Watched(Init(boot), None), actions);
      var s := w.state;
      && s == Run(Init(boot), actions)
      && (s.msg.Stopping? ==> w.note.Some?)
      && (s.msg.Stopping? && s.msg.client in s.running ==>
            (!Due(s.running[s.msg.client].when, s.now) <==> TooSoon(w.note.value, s.now)))
      && (s.msg.Calling? ==>
            && w.note.Some? && w.note.value.stopped.Some?
            && (!Due(w.note.value.stopped.value.when, s.now) <==> TooSoon(w.note.value, s.now)))
  {
    var w := RunOf(Watch, Watched(Init(boot), None), actions);
    WatchingChangesNothing(Watched(Init(boot), None), actions);
    RunKeepsNote(Watched(Init(boot), None), actions);
    if w.state.msg.Stopping? && w.state.msg.client in w.state.running {
      ExplainedIsEarlyIff(w.note.value, w.state.running[w.state.msg.client], w.state.now);
    } else if w.state.msg.Calling? {
      ExplainedIsEarlyIff(w.note.value, w.note.value.stopped.value, w.state.now);
    }
  }

  // ---------- Whole runs ----------

  predicate CallsBack(s: State, a: Action) {
    a == MsgStep && s.msg.Calling?
  }

  // Each callback of a run is for a delegate whose deadline has come.
  predicate CallbacksDue(w: Watched, actions: seq<Action>)
    decreases |actions|
  {
    actions != [] ==>
      && (CallsBack(w.state, actions[0]) ==>
            w.note.Some? && w.note.value.stopped.Some? && Due(w.note.value.stopped.value.when, w.state.now))
      && CallbacksDue(Watch(w, actions[0]), actions[1..])
  }

  predicate NeverTooSoon(w: Watched, actions: seq<Action>)
    decreases |actions|
  {
    actions != [] ==>
      && (CallsBack(w.state, actions[0]) && w.note.Some? ==> !TooSoon(w.note.value, w.state.now))
      && NeverTooSoon(Watch(w, actions[0]), actions[1..])
  }

  // No expire message meets a top that is not due, and no client is started anew while an
  // expiry is about to stop it.
  predicate Undisturbed(w: Watched, actions: seq<Action>)
    decreases |actions|
  {
    actions != [] ==>
      && !TakesUnripe(w.state, actions[0]) && !Restarts(w.state, actions[0])
      && Undisturbed(Watch(w, actions[0]), actions[1..])
  }

  lemma {:induction false} RunDueIff(w: Watched, actions: seq<Action>)
    requires NoteOk(w.state, w.note) && KernelInv(w.state) && Life(BooksOf(w.state))
    ensures CallbacksDue(w, actions) <==> NeverTooSoon(w, actions)
    decreases |actions|
  {
    if actions != [] {
      if CallsBack(w.state, actions[0]) {
        ExplainedIsEarlyIff(w.note.value, w.note.value.stopped.value, w.state.now);
      }
      RunKeepsNote(w, [actions[0]]);
      RunOne(Watch, w, [actions[0]]);
      RunKeepsLife(w.state, [actions[0]]);
      RunKeepsKernelInv(w.state, [actions[0]]);
      RunOne(Try, w.state, [actions[0]]);
      RunDueIff(Watch(w, actions[0]), actions[1..]);
    }
  }

  // Every callback of a run is due if and only if the note never says too soon at one.
  lemma CallbacksDueIffNeverTooSoon(boot: Instant, actions: seq<Action>)
    ensures CallbacksDue(Watched(Init(boot), None), actions) <==> NeverTooSoon(Watched(Init(boot), None), actions)
  {
    RunDueIff(Watched(Init(boot), None), actions);
  }

  lemma {:induction false} UndisturbedIsNeverTooSoon(w: Watched, actions: seq<Action>)
    requires Undisturbed(w, actions)
    requires w.note.Some? ==> !w.note.value.unripe && w.note.value.restart.None?
    ensures NeverTooSoon(w, actions)
    decreases |actions|
  {
    if actions != [] {
      UndisturbedIsNeverTooSoon(Watch(w, actions[0]), actions[1..]);
    }
  }

  // The two causes are the only ones.
  lemma UndisturbedCallbacksAreDue(boot: Instant, actions: seq<Action>)
    requires Undisturbed(Watched(Init(boot), None), actions)
    ensures CallbacksDue(Watched(Init(boot), None), actions)
  {
    UndisturbedIsNeverTooSoon(Watched(Init(boot), None), actions);
    CallbacksDueIffNeverTooSoon(boot, actions);
  }

  // ---------- The first cause: a top that is not due ----------

  // Client 1's deadline passes and the poll thread wakes up, but before it goes on client 1
  // stops its timer and client 2 starts one of a minute. The expire message that follows
  // pops what is on top by then, and client 2 is called back at once.
  const BOOT: Instant := Timespec(0, 1)
  const LATER: Instant := Timespec(2, 0)
  const FIRST := Timer(0, Timespec(1, 1))
  const SECOND := Timer(1, Timespec(62, 0))

  const FIRST_STARTED := [Start(1, 1000), MsgStep, MsgStep, MsgStep]
  const FIRST_STOPPED := [Tick(LATER), PollWake, Stop(1), MsgStep]
  const SECOND_STARTED := [Start(2, 60000), MsgStep, MsgStep, MsgStep]
  const STALE_WAKE_UP := [PollDisarm, PollRemove, PollSend, MsgStep]
  const FIRED := [MsgStep, MsgStep, MsgStep, MsgStep]

  lemma TimerMayFireEarly()
    ensures var s := Run(Init(BOOT), FIRST_STARTED + FIRST_STOPPED + SECOND_STARTED + STALE_WAKE_UP + FIRED);
      s.callbacks == multiset{2} && !Due(SECOND.when, s.now) && s.freed == [FIRST]
  {
    var s1 := EarlyRun1();
    var s2 := EarlyRun2(s1);
    var s3 := EarlyRun3(s2);
    var s4 := EarlyRun4(s3);
    var s5 := EarlyRun5(s4);
    RunAppend(Try, Init(BOOT), FIRST_STARTED, FIRST_STOPPED);
    RunAppend(Try, Init(BOOT), FIRST_STARTED + FIRST_STOPPED, SECOND_STARTED);
    RunAppend(Try, Init(BOOT), FIRST_STARTED + FIRST_STOPPED + SECOND_STARTED, STALE_WAKE_UP);
    RunAppend(Try, Init(BOOT), FIRST_STARTED + FIRST_STOPPED + SECOND_STARTED + STALE_WAKE_UP, FIRED);
  }

  lemma EarlyRun1() returns (s: State)
    ensures s == Run(Init(BOOT), FIRST_STARTED)
    ensures s.heap == Single(FIRST) && s.queue == [] && s.kernel == Kernel(true, Some(FIRST.when))
    ensures s.poll == Waiting && s.msg == Idle && s.now == BOOT && s.nextId == 1 && s.callbacks == multiset{}
    ensures s.running == map[1 := FIRST] && s.owner == map[FIRST := 1] && s.freed == []
    ensures s.starts == multiset{1} && s.stops == multiset{}
  {
    var s1 := Next(Init(BOOT), Start(1, 1000));
    assert s1.queue == [PushMsg(FIRST)];
    s := Continue(Continue(Receive(s1)));
    RunFour(Try, Init(BOOT), FIRST_STARTED);
  }

  lemma EarlyRun2(s0: State) returns (s: State)
    requires s0.heap == Single(FIRST) && s0.queue == [] && s0.kernel == Kernel(true, Some(FIRST.when))
    requires s0.poll == Waiting && s0.msg == Idle && s0.now == BOOT && s0.nextId == 1 && s0.callbacks == multiset{}
    requires s0.running == map[1 := FIRST] && s0.owner == map[FIRST := 1] && s0.freed == []
    ensures s == Run(s0, FIRST_STOPPED)
    ensures s.heap == Leaf && s.queue == [] && s.poll == Woken && s.msg == Idle
    ensures s.now == LATER && s.nextId == 1 && s.callbacks == multiset{}
    ensures s.running == map[] && s.owner == map[] && s.freed == [FIRST]
  {
    var s1 := Next(s0, Tick(LATER));
    var s2 := Next(s1, PollWake);
    var s3 := Next(s2, Stop(1));
    assert s3.queue == [RemoveMsg(FIRST)];
    s := Receive(s3);
    RunFour(Try, s0, FIRST_STOPPED);
  }

  lemma EarlyRun3(s0: State) returns (s: State)
    requires s0.heap == Leaf && s0.queue == [] && s0.poll == Woken && s0.msg == Idle
    requires s0.now == LATER && s0.nextId == 1 && s0.callbacks == multiset{}
    requires s0.running == map[] && s0.owner == map[] && s0.freed == [FIRST]
    ensures s == Run(s0, SECOND_STARTED)
    ensures s.heap == Single(SECOND) && s.queue == [] && s.poll == Woken && s.msg == Idle
    ensures s.now == LATER && s.callbacks == multiset{}
    ensures s.running == map[2 := SECOND] && s.owner == map[SECOND := 2] && s.freed == [FIRST]
  {
    var s1 := Next(s0, Start(2, 60000));
    assert s1.queue == [PushMsg(SECOND)];
    s := Continue(Continue(Receive(s1)));
    RunFour(Try, s0, SECOND_STARTED);
  }

  lemma EarlyRun4(s0: State) returns (s: State)
    requires s0.heap == Single(SECOND) && s0.queue == [] && s0.poll == Woken && s0.msg == Idle
    requires s0.now == LATER && s0.callbacks == multiset{}
    requires s0.running == map[2 := SECOND] && s0.owner == map[SECOND := 2] && s0.freed == [FIRST]
    ensures s == Run(s0, STALE_WAKE_UP)
    ensures s.heap == Leaf && s.msg == Firing(SECOND, LATER) && s.now == LATER && s.callbacks == multiset{}
    ensures s.running == map[2 := SECOND] && s.owner == map[SECOND := 2] && s.freed == [FIRST]
  {
    var s1 := Next(Next(Next(s0, PollDisarm), PollRemove), PollSend);
    assert s1.queue == [ExpireMsg];
    s := Receive(s1);
    RunFour(Try, s0, STALE_WAKE_UP);
  }

  lemma EarlyRun5(s0: State) returns (s: State)
    requires s0.heap == Leaf && s0.msg == Firing(SECOND, LATER) && s0.now == LATER && s0.callbacks == multiset{}
    requires s0.running == map[2 := SECOND] && s0.owner == map[SECOND := 2] && s0.freed == [FIRST]
    ensures s == Run(s0, FIRED)
    ensures s.callbacks == multiset{2} && s.now == LATER && s.freed == [FIRST]
  {
    var s1 := Continue(s0);
    assert s1.msg == Stopping(2, LATER);
    var s2 := Continue(s1);
    s := Continue(Continue(s2));
    RunFour(Try, s0, FIRED);
  }

  // ---------- The second cause: a client that is started anew ----------

  // Here the top is due. After the message task has read the client of the popped delegate,
  // and before it stops that client, the client stops and starts again, for a minute. Its
  // new delegate is the one that is stopped.
  const WOKEN_UP := [Tick(LATER), PollWake, PollDisarm, PollRemove]
  const POPPED := [PollSend, MsgStep, MsgStep, Stop(1)]
  const STARTED_ANEW := [Start(1, 60000), MsgStep, MsgStep, MsgStep]

  lemma RestartedTimerFiresEarly()
    ensures var s := Run(Init(BOOT), FIRST_STARTED + WOKEN_UP + POPPED + STARTED_ANEW);
      && s.callbacks == multiset{1} && s.starts == multiset{1, 1} && s.stops == multiset{1}
      && RemoveMsg(SECOND) in s.queue && !Due(SECOND.when, s.now) && Due(FIRST.when, s.now)
  {
    var s1 := EarlyRun1();
    var s2 := RestartRun2(s1);
    var s3 := RestartRun3(s2);
    var s4 := RestartRun4(s3);
    RunAppend(Try, Init(BOOT), FIRST_STARTED, WOKEN_UP);
    RunAppend(Try, Init(BOOT), FIRST_STARTED + WOKEN_UP, POPPED);
    RunAppend(Try, Init(BOOT), FIRST_STARTED + WOKEN_UP + POPPED, STARTED_ANEW);
  }

  lemma RestartRun2(s0: State) returns (s: State)
    requires s0.heap == Single(FIRST) && s0.queue == [] && s0.kernel == Kernel(true, Some(FIRST.when))
    requires s0.poll == Waiting && s0.msg == Idle && s0.now == BOOT && s0.nextId == 1 && s0.callbacks == multiset{}
    requires s0.running == map[1 := FIRST] && s0.owner == map[FIRST := 1]
    requires s0.starts == multiset{1} && s0.stops == multiset{}
    ensures s == Run(s0, WOKEN_UP)
    ensures s == s0.(now := LATER, poll := Unpolled, kernel := s.kernel)
  {
    s := Next(Next(Next(Next(s0, Tick(LATER)), PollWake), PollDisarm), PollRemove);
    RunFour(Try, s0, WOKEN_UP);
  }

  lemma RestartRun3(s0: State) returns (s: State)
    requires s0.heap == Single(FIRST) && s0.queue == [] && s0.poll == Unpolled && s0.msg == Idle
    requires s0.now == LATER && s0.nextId == 1 && s0.callbacks == multiset{}
    requires s0.running == map[1 := FIRST] && s0.owner == map[FIRST := 1]
    requires s0.starts == multiset{1} && s0.stops == multiset{}
    ensures s == Run(s0, POPPED)
    ensures s.heap == Leaf && s.msg == Stopping(1, LATER) && s.running == map[] && s.owner == map[]
    ensures s.queue == [RemoveMsg(FIRST)] && s.stops == multiset{1}
    ensures s.now == LATER && s.nextId == 1 && s.callbacks == multiset{} && s.starts == multiset{1}
  {
    var s1 := Next(s0, PollSend);
    assert s1.queue == [ExpireMsg];
    var s2 := Receive(s1);
    assert s2.msg == Firing(FIRST, LATER);
    var s3 := Continue(s2);
    s := Next(s3, Stop(1));
    RunFour(Try, s0, POPPED);
  }

  lemma RestartRun4(s0: State) returns (s: State)
    requires s0.heap == Leaf && s0.msg == Stopping(1, LATER) && s0.running == map[] && s0.owner == map[]
    requires s0.queue == [RemoveMsg(FIRST)] && s0.stops == multiset{1}
    requires s0.now == LATER && s0.nextId == 1 && s0.callbacks == multiset{} && s0.starts == multiset{1}
    ensures s == Run(s0, STARTED_ANEW)
    ensures s.callbacks == multiset{1} && s.starts == multiset{1, 1} && s.stops == multiset{1}
    ensures RemoveMsg(SECOND) in s.queue && s.now == LATER
  {
    var s1 := Next(s0, Start(1, 60000));
    assert s1.running == map[1 := SECOND];
    var s2 := Continue(s1);
    assert s2.queue[2] == RemoveMsg(SECOND) && s2.msg == Calling(1, LATER);
    s := Continue(Continue(s2));
    RunFour(Try, s0, STARTED_ANEW);
  }
}
