/** The timer service of gps/utils/LocTimer.cpp with all its threads: clients that start
    and stop timers, the message task that owns the heap, and the poll thread that turns a
    readable kernel timer into an expire message. A step is what runs without another
    thread being able to notice: a section under a client's lock, one system call, one
    access to the queue. Every interleaving of the steps is a run. */
module LocTimerProtocol {

  import opened Runs
  import opened Wrappers
  import opened HeapTree
  import opened LocTimerRank
  import opened LocTimerContainer

  // The address of a LocTimer. Its delegates, one per start, are the Timers.
  type Client = nat

  datatype Msg = PushMsg(timer: Timer) | RemoveMsg(timer: Timer) | ExpireMsg

  // Where LocTimerContainer::expire is in the poll thread.
  datatype PollPc =
    | Waiting   // in epoll_wait
    | Woken     // about to disarm the kernel timer
    | Disarmed  // about to remove the descriptor from the poll
    | Unpolled  // about to send the expire message

  // Where the message task is. "started" is the time an expire message took at its start.
  datatype MsgPc =
    | Idle
    | Firing(timer: Timer, started: Instant)     // popped the timer, about to read its client
    | Stopping(client: Client, started: Instant) // about to call the client's stop
    | Calling(client: Client, started: Instant)  // stop succeeded, about to call back
    | Popping(started: Instant)                  // about to look at the next timer
    | Polling(when: Instant)                     // about to add the descriptor to the poll
    | Setting(when: Instant)                     // about to set the kernel timer
    | Unpolling                                  // the same two calls for an emptied heap
    | Disarming

  datatype State = State(
    now: Instant,
    heap: Tree<Timer>,
    kernel: Kernel,
    queue: seq<Msg>,
    poll: PollPc,
    msg: MsgPc,
    running: map<Client, Timer>,  // mTimer of the clients where it is not null
    owner: map<Timer, Client>,    // mClient of the delegates where it is not null
    live: set<Timer>,             // delegates allocated and not yet deleted
    freed: seq<Timer>,            // delegates deleted, in order
    nextId: nat,
    starts: multiset<Client>,     // successful start calls
    stops: multiset<Client>,      // successful stop calls made by clients
    expiries: multiset<Client>,   // successful stop calls made by an expiring delegate
    callbacks: multiset<Client>)  // calls of timeOutCallback

  datatype Action =
    | Start(client: Client, timeOut: nat)
    | Stop(client: Client)
    | Tick(to: Instant)
    | PollWake | PollDisarm | PollRemove | PollSend
    | MsgStep

  function Init(now: Instant): State {
    State(now, Leaf, Kernel(false, None), [], Waiting, Idle, map[], map[], {}, [], 0,
          multiset{}, multiset{}, multiset{}, multiset{})
  }

  predicate Readable(s: State) {
    s.kernel.polled && s.kernel.armed.Some? && Due(s.kernel.armed.value, s.now)
  }

  predicate Enabled(s: State, a: Action) {
    match a
    case Start(c, timeOut) => timeOut <= UINT32_MAX
    case Stop(c) => true
    case Tick(to) => Nanos(s.now) <= Nanos(to)
    case PollWake => s.poll == Waiting && Readable(s)
    case PollDisarm => s.poll == Woken
    case PollRemove => s.poll == Disarmed
    case PollSend => s.poll == Unpolled
    case MsgStep => s.msg != Idle || s.queue != []
  }

  // A successful stop: the client lets go of its delegate, which asks for its own removal.
  function Detach(s: State, c: Client): State
    requires c in s.running
  {
    var t := s.running[c];
    s.(running := s.running - {c}, owner := s.owner - {t}, queue := s.queue + [RemoveMsg(t)])
  }

  function Begin(r: Rearming): (msg: MsgPc)
    ensures msg.Idle? || msg.Polling? || msg.Unpolling?
  {
    match r
    case Keep => Idle
    case Arm(when) => Polling(when)
    case TurnOff => Unpolling
  }

  // The message task takes the first message and does the part of its procedure that
  // changes the heap. The delete of a removed delegate belongs to this step: between the
  // removal and the delete the source only makes the calls that re-arm the kernel timer.
  function ReceiveBy(ranks: (Timer, Timer) -> int, s: State): State
    requires s.queue != []
  {
    var rest := s.queue[1..];
    match s.queue[0]
    case PushMsg(t) =>
      var h := Push(ranks, s.heap, t);
      s.(queue := rest, heap := h, msg := Begin(UpdateSoonestBy(ranks, Top(s.heap), Top(h))))
    case RemoveMsg(t) =>
      var o := Remove(ranks, s.heap, t);
      var wasTop := Top(s.heap) == if o.found then Some(t) else None;
      s.(queue := rest, heap := o.rest, live := s.live - {t}, freed := s.freed + [t],
         msg := if wasTop then Begin(UpdateSoonestBy(ranks, None, Top(o.rest))) else Idle)
    case ExpireMsg =>
      if s.heap.Leaf? then s.(queue := rest, msg := Begin(UpdateSoonestBy(ranks, None, None)))
      else s.(queue := rest, heap := Pop(ranks, s.heap), msg := Firing(s.heap.data, s.now))
  }

  // The message task goes on with the procedure it is in.
  function ContinueBy(ranks: (Timer, Timer) -> int, s: State): State
    requires s.msg != Idle
  {
    match s.msg
    case Firing(t, started) =>
      s.(msg := if t in s.owner then Stopping(s.owner[t], started) else Popping(started))
    case Stopping(c, started) =>
      if c in s.running then
        Detach(s, c).(expiries := s.expiries + multiset{c}, msg := Calling(c, started))
      else s.(msg := Popping(started))
    case Calling(c, started) => s.(callbacks := s.callbacks + multiset{c}, msg := Popping(started))
    case Popping(started) =>
      if s.heap.Leaf? || OutRanks(ranks, Timer(0, started), s.heap.data) then
        s.(msg := Begin(UpdateSoonestBy(ranks, None, Top(s.heap))))
      else s.(heap := Pop(ranks, s.heap), msg := Firing(s.heap.data, started))
    case Polling(when) => s.(kernel := s.kernel.(polled := true), msg := Setting(when))
    case Setting(when) => s.(kernel := s.kernel.(armed := Some(when)), msg := Idle)
    case Unpolling => s.(kernel := s.kernel.(polled := false), msg := Disarming)
    case Disarming => s.(kernel := s.kernel.(armed := None), msg := Idle)
  }

  function StartTimer(s: State, c: Client, when: Instant): State {
    if c in s.running then s
    else
      var t := Timer(s.nextId, when);
      s.(running := s.running[c := t], owner := s.owner[t := c], live := s.live + {t},
         nextId := s.nextId + 1, queue := s.queue + [PushMsg(t)], starts := s.starts + multiset{c})
  }

  function StopTimer(s: State, c: Client): State {
    if c in s.running then Detach(s, c).(stops := s.stops + multiset{c}) else s
  }

  function NextBy(ranks: (Timer, Timer) -> int, s: State, a: Action): State
    requires Enabled(s, a)
  {
    match a
    case Start(c, timeOut) => StartTimer(s, c, FutureTime(s.now, timeOut))
    case Stop(c) => StopTimer(s, c)
    case Tick(to) => s.(now := to)
    case PollWake => s.(poll := Woken)
    case PollDisarm => s.(poll := Disarmed, kernel := s.kernel.(armed := None))
    case PollRemove => s.(poll := Unpolled, kernel := s.kernel.(polled := false))
    case PollSend => s.(poll := Waiting, queue := s.queue + [ExpireMsg])
    case MsgStep => if s.msg == Idle then ReceiveBy(ranks, s) else ContinueBy(ranks, s)
  }

  // The steps with timers compared by their deadlines, as they are meant to be.
  function Receive(s: State): State
    requires s.queue != []
  {
    ReceiveBy(ByDeadline, s)
  }

  function Continue(s: State): State
    requires s.msg != Idle
  {
    ContinueBy(ByDeadline, s)
  }

  function Next(s: State, a: Action): State
    requires Enabled(s, a)
  {
    NextBy(ByDeadline, s, a)
  }

  // An action that is not possible when its turn comes is skipped.
  function Try(s: State, a: Action): State {
    if Enabled(s, a) then Next(s, a) else s
  }

  function Run(s: State, actions: seq<Action>): State {
    RunOf(Try, s, actions)
  }

  // ---------- No timer is forgotten ----------

  // An expire message is on its way.
  predicate ExpiryComing(s: State) {
    s.poll != Waiting || ExpireMsg in s.queue
  }

  // Between two messages the kernel timer is set to the top of the heap, or an expire
  // message is coming. Inside a procedure it is enough that the calls still to be made
  // will set it to the top.
  ghost predicate CoveredBy(heap: Tree<Timer>, kernel: Kernel, coming: bool, msg: MsgPc) {
    match msg
    case Idle => coming || Armed(heap, kernel)
    case Polling(when) => Top(heap).Some? && when == Top(heap).value.when
    case Setting(when) => Top(heap).Some? && when == Top(heap).value.when && (coming || kernel.polled)
    case Unpolling => false
    case Disarming => false
    case _ => true
  }

  ghost predicate Covered(s: State) {
    CoveredBy(s.heap, s.kernel, ExpiryComing(s), s.msg)
  }

  lemma PushStaysCovered(heap: Tree<Timer>, kernel: Kernel, coming: bool, t: Timer)
    requires CoveredBy(heap, kernel, coming, Idle)
    ensures var h := Push(ByDeadline, heap, t);
      CoveredBy(h, kernel, coming, Begin(UpdateSoonest(Top(heap), Top(h))))
  {
    PushTop(ByDeadline, heap, t);
  }

  lemma RemoveStaysCovered(heap: Tree<Timer>, kernel: Kernel, coming: bool, t: Timer)
    requires CoveredBy(heap, kernel, coming, Idle)
    ensures var o := Remove(ByDeadline, heap, t);
      CoveredBy(o.rest, kernel, coming,
                if Top(heap) == (if o.found then Some(t) else None) then Begin(UpdateSoonest(None, Top(o.rest)))
                else Idle)
  {
    RemoveElements(ByDeadline, heap, t);
    if heap.Node? && heap.data != t {
      RemoveTop(ByDeadline, heap, t);
    }
  }

  lemma ReceiveStaysCovered(s: State)
    requires Covered(s) && s.msg == Idle && s.queue != []
    ensures Covered(Receive(s))
  {
    var m := s.queue[0];
    assert s.queue == [m] + Receive(s).queue;
    if m.PushMsg? {
      PushStaysCovered(s.heap, s.kernel, ExpiryComing(s), m.timer);
    } else if m.RemoveMsg? {
      RemoveStaysCovered(s.heap, s.kernel, ExpiryComing(s), m.timer);
    }
  }

  lemma OtherStepStaysCovered(s: State, a: Action)
    requires Covered(s) && Enabled(s, a) && !(a == MsgStep && s.msg == Idle)
    ensures Covered(Next(s, a))
  {
    QueueGrows(s, a);
  }

  // Only the message task takes from the queue and touches the heap.
  lemma QueueGrows(s: State, a: Action)
    requires Enabled(s, a) && !(a == MsgStep && s.msg == Idle)
    ensures s.queue <= Next(s, a).queue
    ensures ExpireMsg in s.queue ==> ExpireMsg in Next(s, a).queue
    ensures a != MsgStep ==> Next(s, a).heap == s.heap && Next(s, a).msg == s.msg
  {
    if ExpireMsg in s.queue {
      var i :| 0 <= i < |s.queue| && s.queue[i] == ExpireMsg;
      assert Next(s, a).queue[i] == ExpireMsg;
    }
  }

  // What a step does to the heap.
  datatype HeapOp = NoOp | DoPush(timer: Timer) | DoRemove(timer: Timer) | DoPop

  function Apply(op: HeapOp, t: Tree<Timer>): Tree<Timer> {
    match op
    case NoOp => t
    case DoPush(x) => Push(ByDeadline, t, x)
    case DoRemove(x) => Remove(ByDeadline, t, x).rest
    case DoPop => if t.Leaf? then t else Pop(ByDeadline, t)
  }

  function HeapOpOf(s: State, a: Action): HeapOp {
    if a != MsgStep || (s.msg == Idle && s.queue == []) then NoOp
    else if s.msg == Idle then
      match s.queue[0]
      case PushMsg(t) => DoPush(t)
      case RemoveMsg(t) => DoRemove(t)
      case ExpireMsg => DoPop
    else if s.msg.Popping? && Next(s, a).msg.Firing? then DoPop
    else NoOp
  }

  lemma StepAppliesHeapOp(s: State, a: Action)
    requires Enabled(s, a)
    ensures Next(s, a).heap == Apply(HeapOpOf(s, a), s.heap)
  {}

  lemma ApplyKeepsGood(op: HeapOp, t: Tree<Timer>)
    requires Good(ByDeadline, t)
    ensures Good(ByDeadline, Apply(op, t))
  {
    match op
    case NoOp =>
    case DoPush(x) => GoodAfterPush(t, x);
    case DoRemove(x) => GoodAfterRemove(t, x);
    case DoPop =>
      if t.Node? {
        GoodAfterPop(t);
      }
  }

  ghost predicate KernelInv(s: State) {
    Good(ByDeadline, s.heap) && Covered(s)
  }

  lemma KernelInvKept(s: State, a: Action)
    requires KernelInv(s)
    ensures KernelInv(Try(s, a))
  {
    if Enabled(s, a) {
      StepAppliesHeapOp(s, a);
      ApplyKeepsGood(HeapOpOf(s, a), s.heap);
      if a == MsgStep && s.msg == Idle {
        ReceiveStaysCovered(s);
      } else {
        OtherStepStaysCovered(s, a);
      }
    }
  }

  lemma {:induction false} RunKeepsKernelInv(s: State, actions: seq<Action>)
    requires KernelInv(s)
    ensures KernelInv(Run(s, actions))
    decreases |actions|
  {
    if actions != [] {
      KernelInvKept(s, actions[0]);
      RunKeepsKernelInv(Try(s, actions[0]), actions[1..]);
    }
  }

  // In every interleaving, whenever the message task is between two messages: if timers
  // are waiting, the kernel timer is polled and set to the soonest of their deadlines, or
  // an expire message is queued or about to be sent.
  lemma NoTimerForgotten(now: Instant, actions: seq<Action>)
    ensures var s := Run(Init(now), actions);
      s.msg == Idle && s.heap.Node? ==>
        || (s.kernel.polled && s.kernel.armed == Some(s.heap.data.when)
            && forall t | t in Elements(s.heap) :: Nanos(s.heap.data.when) <= Nanos(t.when))
        || s.poll != Waiting || ExpireMsg in s.queue
  {
    RunKeepsKernelInv(Init(now), actions);
    var s := Run(Init(now), actions);
    if s.heap.Node? {
      TopIsSoonest(s.heap);
    }
  }
}
