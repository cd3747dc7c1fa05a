/** The time that stays armed when the heap runs empty. The message task is written to disarm
    the kernel timer then, but it never does; so the poll thread may wake up for a timer that
    is long deleted, and take a later timer along. */
module LocTimerStale {

  import opened Runs
  import opened Wrappers
  import opened HeapTree
  import opened LocTimerRank
  import opened LocTimerContainer
  import opened LocTimerProtocol
  import opened LocTimerEarly

  // ---------- The message task never disarms ----------

  // Every caller that may find the heap emptied passes a null prior top, which is the same
  // as the null top it finds.
  lemma MessageTaskNeverDisarms(boot: Instant, actions: seq<Action>)
    ensures var s := Run(Init(boot), actions); !s.msg.Unpolling? && !s.msg.Disarming?
  {
    RunKeepsKernelInv(Init(boot), actions);
  }

  // So it is the poll thread alone that disarms the kernel timer, or takes it off the poll.
  lemma PollThreadAloneDisarms(boot: Instant, actions: seq<Action>, a: Action)
    ensures var s := Run(Init(boot), actions);
      var s' := Try(s, a);
      && (s.kernel.armed.Some? && s'.kernel.armed.None? ==> a == PollDisarm)
      && (s.kernel.polled && !s'.kernel.polled ==> a == PollRemove)
  {
    MessageTaskNeverDisarms(boot, actions);
  }

  // A wake-up, seen through to its end by the poll thread: the kernel timer is off, and one
  // expire message more is queued.
  lemma WakeUpTakesEffect(s: State)
    requires s.poll == Waiting && Readable(s)
    ensures var s' := Run(s, [PollWake, PollDisarm, PollRemove, PollSend]);
      && s'.kernel == Kernel(false, None) && s'.queue == s.queue + [ExpireMsg] && s'.poll == Waiting
      && s'.(kernel := s.kernel, queue := s.queue) == s
  {
    var actions := [PollWake, PollDisarm, PollRemove, PollSend];
    RunFour(Try, s, actions);
    assert actions[4..] == [];
  }

  // A message that leaves the heap empty is done with it at once, and leaves the kernel
  // timer as it was.
  lemma EmptiedHeapLeavesKernelAlone(s: State)
    requires s.msg == Idle && s.queue != [] && Receive(s).heap.Leaf?
    ensures Receive(s).kernel == s.kernel
    ensures !s.queue[0].ExpireMsg? ==> Receive(s).msg == Idle
  {
    if s.queue[0].PushMsg? {
      PushTop(ByDeadline, s.heap, s.queue[0].timer);
    }
  }

  // ---------- When a wake-up is for nothing ----------

  // In every interleaving, when no expire message is on its way and the kernel timer is
  // readable, so that the poll thread will wake up: no timer is due if and only if the heap
  // is empty. On a heap that is not empty the time armed is never stale.
  lemma WakeUpIsStaleIffHeapIsEmpty(boot: Instant, actions: seq<Action>)
    ensures var s := Run(Init(boot), actions);
      s.msg == Idle && !ExpiryComing(s) && Readable(s) ==> (NoneDue(s.heap, s.now) <==> s.heap.Leaf?)
  {
    var s := Run(Init(boot), actions);
    RunKeepsKernelInv(Init(boot), actions);
    if s.msg == Idle && !ExpiryComing(s) && Readable(s) && s.heap.Node? {
      assert Armed(s.heap, s.kernel);
      assert s.heap.data in Elements(s.heap) && Due(s.heap.data.when, s.now);
    }
  }

  // ---------- It is not harmless ----------

  // Client 1 stops its timer ahead of its deadline. The timer is removed and deleted, and
  // the heap is empty. Only the time still armed wakes the poll thread up; and the timer of
  // a minute that client 2 starts then is called back for at once.
  const FIRST_DELETED := [Stop(1), MsgStep, Tick(LATER), PollWake]

  lemma StaleTimeFiresLaterTimerEarly()
    ensures var s := Run(Init(BOOT), FIRST_STARTED + FIRST_DELETED + SECOND_STARTED + STALE_WAKE_UP + FIRED);
      s.callbacks == multiset{2} && !Due(SECOND.when, s.now) && s.freed == [FIRST]
  {
    var s1 := EarlyRun1();
    var s2 := StaleRun2(s1);
    var s3 := EarlyRun3(s2);
    var s4 := EarlyRun4(s3);
    var s5 := EarlyRun5(s4);
    RunAppend(Try, Init(BOOT), FIRST_STARTED, FIRST_DELETED);
    RunAppend(Try, Init(BOOT), FIRST_STARTED + FIRST_DELETED, SECOND_STARTED);
    RunAppend(Try, Init(BOOT), FIRST_STARTED + FIRST_DELETED + SECOND_STARTED, STALE_WAKE_UP);
    RunAppend(Try, Init(BOOT), FIRST_STARTED + FIRST_DELETED + SECOND_STARTED + STALE_WAKE_UP, FIRED);
  }

  lemma StaleRun2(s0: State) returns (s: State)
    requires s0.heap == Single(FIRST) && s0.queue == [] && s0.kernel == Kernel(true, Some(FIRST.when))
    requires s0.poll == Waiting && s0.msg == Idle && s0.now == BOOT && s0.nextId == 1 && s0.callbacks == multiset{}
    requires s0.running == map[1 := FIRST] && s0.owner == map[FIRST := 1] && s0.freed == []
    ensures s == Run(s0, FIRST_DELETED)
    ensures s.heap == Leaf && s.queue == [] && s.poll == Woken && s.msg == Idle
    ensures s.now == LATER && s.nextId == 1 && s.callbacks == multiset{}
    ensures s.running == map[] && s.owner == map[] && s.freed == [FIRST]
  {
    var s1 := Next(s0, Stop(1));
    assert s1.queue == [RemoveMsg(FIRST)] && !Due(FIRST.when, s1.now);
    var s2 := Receive(s1);
    assert s2.heap == Leaf && s2.kernel == s0.kernel;
    s := Next(Next(s2, Tick(LATER)), PollWake);
    RunFour(Try, s0, FIRST_DELETED);
  }
}
