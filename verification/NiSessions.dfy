/** Network-initiated requests in gps/gnss/GnssAdapter.cpp: the message task stores the
    payload of a request in one of two sessions and starts a thread for it; the thread
    waits for the user's answer or a timeout and hands the payload back to the message
    task, which passes it on and frees it. A step is a section under a session's lock, one
    unlocked access, or one access to the message queue. */
module NiSessions {

  import opened Runs
  import opened Wrappers

  type Payload = nat  // the address of a payload
  type Thread = nat

  datatype Which = Plain | Emergency

  datatype Answer = Accept | Deny | NoResponse | Ignore

  datatype Session = Session(rawRequest: Option<Payload>, reqID: nat, respRecvd: bool, resp: Answer)

  datatype Reply = Reply(resp: Answer, payload: Payload)

  // Where niThreadProc is. own is the payload the thread was started for.
  datatype ThreadPc =
    | Started(own: Payload)                // about to lock and look for an answer
    | Waiting(own: Payload)                // in pthread_cond_timedwait
    | Unlocked(reply: Option<Reply>)       // about to reset reqID
    | Sending(reply: Option<Reply>)        // about to send its reply, if it has one

  datatype ThreadState = ThreadState(which: Which, pc: ThreadPc)

  // Where the procedure of a user's answer is: its sections under locks come one by one.
  datatype MsgPc =
    | Idle
    | Ignoring(resp: Answer)               // about to make the plain session's thread ignore it
    | Setting(which: Which, resp: Answer)  // about to deliver the answer to a session

  // Bookkeeping, no part of the program: who holds a payload. A payload in a session is
  // waited on by the thread that was started for it.
  datatype Place = InSession(which: Which, thread: Thread) | InThread(thread: Thread) | Queued | Gone(informed: bool)

  datatype State = State(
    plain: Session,
    emergency: Session,
    reqIDCounter: nat,
    threads: map<Thread, ThreadState>,
    nextThread: Thread,
    msg: MsgPc,
    queue: seq<Reply>,       // messages with a reply, on their way to the message task
    informed: seq<Reply>,    // calls of informNiResponse
    freed: seq<Payload>,     // calls of free for accepted payloads
    refused: seq<Payload>,   // calls of free for payloads turned away
    place: map<Payload, Place>)

  datatype Action =
    | Notify(which: Which, payload: Payload, hasClient: bool)
    | Respond(id: nat, resp: Answer, hasClient: bool)
    | MsgGoOn
    | Inform
    | Check(thread: Thread)
    | Wake(thread: Thread)
    | Timeout(thread: Thread)
    | Reset(thread: Thread)
    | Send(thread: Thread)

  const EMPTY := Session(None, 0, false, NoResponse)

  function Init(): State {
    State(EMPTY, EMPTY, 0, map[], 0, Idle, [], [], [], [], map[])
  }

  function Get(s: State, w: Which): Session {
    if w == Plain then s.plain else s.emergency
  }

  function Put(s: State, w: Which, x: Session): State {
    if w == Plain then s.(plain := x) else s.(emergency := x)
  }

  // ---------- The message task ----------

  // An emergency request only waits for an emergency one, a plain request for both.
  predicate Accepts(s: State, w: Which) {
    s.emergency.rawRequest.None? && (w == Plain ==> s.plain.rawRequest.None?)
  }

  // A payload that is not accepted is freed at once, or left alone when no client could be
  // asked.
  function OnNotify(s: State, w: Which, p: Payload, hasClient: bool): State {
    if !hasClient then s
    else if !Accepts(s, w) then s.(refused := s.refused + [p])
    else
      var id := s.reqIDCounter + 1;
      var t := s.nextThread;
      Put(s, w, Get(s, w).(rawRequest := Some(p), reqID := id)).(
        reqIDCounter := id,
        threads := s.threads[t := ThreadState(w, Started(p))],
        nextThread := t + 1,
        place := s.place[p := InSession(w, t)])
  }

  // An accepted emergency request makes a plain one be ignored.
  function OnRespond(s: State, id: nat, resp: Answer, hasClient: bool): State {
    if !hasClient then s
    else if id == s.emergency.reqID && s.emergency.rawRequest.Some? then
      s.(msg := if resp == Accept && s.plain.rawRequest.Some? then Ignoring(resp) else Setting(Emergency, resp))
    else if id == s.plain.reqID && s.plain.rawRequest.Some? then s.(msg := Setting(Plain, resp))
    else s
  }

  function Signal(s: State, w: Which, resp: Answer): State {
    Put(s, w, Get(s, w).(resp := resp, respRecvd := true))
  }

  function OnMsgGoOn(s: State): State {
    match s.msg
    case Idle => s
    case Ignoring(resp) => Signal(s, Plain, Ignore).(msg := Setting(Emergency, resp))
    case Setting(w, resp) => Signal(s, w, resp).(msg := Idle)
  }

  // The procedure of a reply message, and the destructor that frees its payload.
  function OnInform(s: State): State
    requires s.queue != []
  {
    var r := s.queue[0];
    s.(queue := s.queue[1..], informed := s.informed + [r], freed := s.freed + [r.payload],
       place := s.place[r.payload := Gone(true)])
  }

  // ---------- A session's thread ----------

  // Under the lock: takes the payload out of the session, if there is one.
  function Consume(s: State, t: Thread, resp: Answer): State
    requires t in s.threads
  {
    var w := s.threads[t].which;
    var x := Get(s, w);
    var s' := Put(s, w, x.(rawRequest := None, respRecvd := false, resp := resp));
    if x.rawRequest.None? then s'.(threads := s.threads[t := ThreadState(w, Unlocked(None))])
    else
      var p := x.rawRequest.value;
      if resp == Ignore then
        s'.(threads := s.threads[t := ThreadState(w, Unlocked(None))],
            freed := s.freed + [p], place := s.place[p := Gone(false)])
      else
        s'.(threads := s.threads[t := ThreadState(w, Unlocked(Some(Reply(resp, p))))],
            place := s.place[p := InThread(t)])
  }

  function OnCheck(s: State, t: Thread): State
    requires t in s.threads && s.threads[t].pc.Started?
  {
    var w := s.threads[t].which;
    if Get(s, w).respRecvd then Consume(s, t, Get(s, w).resp)
    else s.(threads := s.threads[t := ThreadState(w, Waiting(s.threads[t].pc.own))])
  }

  function OnReset(s: State, t: Thread): State
    requires t in s.threads && s.threads[t].pc.Unlocked?
  {
    var w := s.threads[t].which;
    Put(s, w, Get(s, w).(reqID := 0)).(threads := s.threads[t := ThreadState(w, Sending(s.threads[t].pc.reply))])
  }

  function OnSend(s: State, t: Thread): State
    requires t in s.threads && s.threads[t].pc.Sending?
  {
    var reply := s.threads[t].pc.reply;
    if reply.None? then s.(threads := s.threads - {t})
    else s.(threads := s.threads - {t}, queue := s.queue + [reply.value],
            place := s.place[reply.value.payload := Queued])
  }

  // ---------- Steps and runs ----------

  // A payload that arrives is a new allocation.
  predicate Enabled(s: State, a: Action) {
    match a
    case Notify(w, p, hasClient) => s.msg == Idle && p !in s.place
    case Respond(id, resp, hasClient) => s.msg == Idle
    case MsgGoOn => s.msg != Idle
    case Inform => s.msg == Idle && s.queue != []
    case Check(t) => t in s.threads && s.threads[t].pc.Started?
    case Wake(t) => t in s.threads && s.threads[t].pc.Waiting? && Get(s, s.threads[t].which).respRecvd
    case Timeout(t) => t in s.threads && s.threads[t].pc.Waiting?
    case Reset(t) => t in s.threads && s.threads[t].pc.Unlocked?
    case Send(t) => t in s.threads && s.threads[t].pc.Sending?
  }

  function Next(s: State, a: Action): State
    requires Enabled(s, a)
  {
    match a
    case Notify(w, p, hasClient) => OnNotify(s, w, p, hasClient)
    case Respond(id, resp, hasClient) => OnRespond(s, id, resp, hasClient)
    case MsgGoOn => OnMsgGoOn(s)
    case Inform => OnInform(s)
    case Check(t) => OnCheck(s, t)
    case Wake(t) => Consume(s, t, Get(s, s.threads[t].which).resp)
    case Timeout(t) => Consume(s, t, NoResponse)
    case Reset(t) => OnReset(s, t)
    case Send(t) => OnSend(s, t)
  }

  function Try(s: State, a: Action): State {
    if Enabled(s, a) then Next(s, a) else s
  }

  // ---------- The invariant ----------

  type Places = map<Payload, Place>
  type Threads = map<Thread, ThreadState>

  // The payload a thread still waits on.
  function Own(x: ThreadState): Option<Payload> {
    if x.pc.Started? || x.pc.Waiting? then Some(x.pc.own) else None
  }

  // The payload a thread carries away.
  function Carried(x: ThreadState): Option<Payload> {
    if (x.pc.Unlocked? || x.pc.Sending?) && x.pc.reply.Some? then Some(x.pc.reply.value.payload) else None
  }

  ghost predicate NoRepeats(s: seq<Reply>) {
    forall i, j | 0 <= i < j < |s| :: s[i].payload != s[j].payload
  }

  ghost predicate Holds(s: seq<Reply>, p: Payload) {
    exists i :: 0 <= i < |s| && s[i].payload == p
  }

  // What a session stores is exactly what is booked for it.
  ghost predicate StoredOk(raw: Option<Payload>, w: Which, place: Places) {
    && (raw.Some? ==> raw.value in place && place[raw.value].InSession? && place[raw.value].which == w)
    && (forall p | p in place :: place[p].InSession? && place[p].which == w ==> raw == Some(p))
  }

  // A stored payload and the thread started for it go together.
  ghost predicate AwaitedOk(threads: Threads, place: Places) {
    && (forall t | t in threads && Own(threads[t]).Some? ::
          Own(threads[t]).value in place && place[Own(threads[t]).value] == InSession(threads[t].which, t))
    && (forall p | p in place && place[p].InSession? ::
          && place[p].thread in threads && Own(threads[place[p].thread]) == Some(p)
          && threads[place[p].thread].which == place[p].which)
  }

  ghost predicate CarriedOk(threads: Threads, place: Places) {
    && (forall t | t in threads && Carried(threads[t]).Some? ::
          Carried(threads[t]).value in place && place[Carried(threads[t]).value] == InThread(t))
    && (forall p | p in place && place[p].InThread? ::
          place[p].thread in threads && Carried(threads[place[p].thread]) == Some(p))
  }

  ghost predicate QueueOk(queue: seq<Reply>, place: Places) {
    && (forall i | 0 <= i < |queue| :: queue[i].payload in place && place[queue[i].payload] == Queued)
    && (forall p | p in place && place[p] == Queued :: Holds(queue, p))
    && NoRepeats(queue)
  }

  ghost predicate FreedOk(freed: seq<Payload>, place: Places) {
    && (forall p | p in freed :: p in place && place[p].Gone?)
    && (forall p | p in place && place[p].Gone? :: p in freed)
    && NoDuplicates(freed)
  }

  ghost predicate InformedOk(informed: seq<Reply>, place: Places) {
    && (forall i | 0 <= i < |informed| :: informed[i].payload in place && place[informed[i].payload] == Gone(true))
    && (forall p | p in place && place[p] == Gone(true) :: Holds(informed, p))
    && NoRepeats(informed)
  }

  ghost predicate Inv(s: State) {
    && StoredOk(s.plain.rawRequest, Plain, s.place) && StoredOk(s.emergency.rawRequest, Emergency, s.place)
    && AwaitedOk(s.threads, s.place) && CarriedOk(s.threads, s.place)
    && QueueOk(s.queue, s.place) && FreedOk(s.freed, s.place) && InformedOk(s.informed, s.place)
    && forall t | t in s.threads :: t < s.nextThread
  }

  lemma HoldsAppend(q: seq<Reply>, r: Reply)
    ensures forall p :: Holds(q, p) ==> Holds(q + [r], p)
    ensures Holds(q + [r], r.payload)
  {
    assert (q + [r])[|q|] == r;
    forall p | Holds(q, p) ensures Holds(q + [r], p) {
      var i :| 0 <= i < |q| && q[i].payload == p;
      assert (q + [r])[i].payload == p;
    }
  }

  lemma HoldsTail(q: seq<Reply>)
    requires q != []
    ensures forall p :: Holds(q, p) && p != q[0].payload ==> Holds(q[1..], p)
  {
    forall p | Holds(q, p) && p != q[0].payload ensures Holds(q[1..], p) {
      var i :| 0 <= i < |q| && q[i].payload == p;
      assert q[1..][i - 1].payload == p;
    }
  }

  // A payload that moves from one place to another does not concern the other places.
  lemma MovedElsewhere(s: State, p: Payload, to: Place)
    requires Inv(s)
    ensures var from := if p in s.place then Some(s.place[p]) else None;
      && (from != Some(Queued) && to != Queued ==> QueueOk(s.queue, s.place[p := to]))
      && (!(from.Some? && from.value.Gone?) && !to.Gone? ==> FreedOk(s.freed, s.place[p := to]))
      && (from != Some(Gone(true)) && to != Gone(true) ==> InformedOk(s.informed, s.place[p := to]))
  {}

  lemma MovedOutOfSession(raw: Option<Payload>, w: Which, place: Places, p: Payload, to: Place)
    requires StoredOk(raw, w, place) && (to.InSession? ==> to.which != w)
    ensures StoredOk(if raw == Some(p) then None else raw, w, place[p := to])
  {}

  lemma NotifyKeepsInv(s: State, w: Which, p: Payload, hasClient: bool)
    requires Inv(s) && p !in s.place
    ensures Inv(OnNotify(s, w, p, hasClient))
  {
    if hasClient && Accepts(s, w) {
      var t := s.nextThread;
      MovedElsewhere(s, p, InSession(w, t));
      NewThread(s.threads, s.place, w, t, p);
      MovedOutOfSession(s.plain.rawRequest, Plain, s.place, p, InSession(Emergency, t));
      MovedOutOfSession(s.emergency.rawRequest, Emergency, s.place, p, InSession(Plain, t));
    }
  }

  lemma NewThread(threads: Threads, place: Places, w: Which, t: Thread, p: Payload)
    requires AwaitedOk(threads, place) && CarriedOk(threads, place) && p !in place && t !in threads
    ensures var threads', place' := threads[t := ThreadState(w, Started(p))], place[p := InSession(w, t)];
      AwaitedOk(threads', place') && CarriedOk(threads', place')
  {}

  // A thread that still waits on a payload finds it in its session.
  lemma OwnIsStored(s: State, t: Thread)
    requires Inv(s) && t in s.threads && Own(s.threads[t]).Some?
    ensures Get(s, s.threads[t].which).rawRequest == Own(s.threads[t])
    ensures s.place[Own(s.threads[t]).value] == InSession(s.threads[t].which, t)
  {}

  lemma ThreadTakes(threads: Threads, place: Places, t: Thread, p: Payload, x: ThreadState, to: Place)
    requires AwaitedOk(threads, place) && CarriedOk(threads, place)
    requires t in threads && Own(threads[t]) == Some(p) && Own(x).None?
    requires (to.Gone? && Carried(x).None?) || (to == InThread(t) && Carried(x) == Some(p))
    ensures AwaitedOk(threads[t := x], place[p := to]) && CarriedOk(threads[t := x], place[p := to])
  {}

  lemma ConsumeKeepsInv(s: State, t: Thread, resp: Answer)
    requires Inv(s) && t in s.threads && (s.threads[t].pc.Started? || s.threads[t].pc.Waiting?)
    ensures Inv(Consume(s, t, resp))
  {
    var w, p := s.threads[t].which, s.threads[t].pc.own;
    OwnIsStored(s, t);
    var to := if resp == Ignore then Gone(false) else InThread(t);
    var x := ThreadState(w, Unlocked(if resp == Ignore then None else Some(Reply(resp, p))));
    ThreadTakes(s.threads, s.place, t, p, x, to);
    MovedElsewhere(s, p, to);
    MovedOutOfSession(s.plain.rawRequest, Plain, s.place, p, to);
    MovedOutOfSession(s.emergency.rawRequest, Emergency, s.place, p, to);
    FreedNow(s.freed, s.place, p, false);
    assert Get(s, if w == Plain then Emergency else Plain).rawRequest != Some(p);
  }

  lemma FreedNow(freed: seq<Payload>, place: Places, p: Payload, informed: bool)
    requires FreedOk(freed, place) && p in place && !place[p].Gone?
    ensures FreedOk(freed + [p], place[p := Gone(informed)])
  {}

  lemma ThreadGoesOnKeepsInv(s: State, t: Thread, x: ThreadState)
    requires AwaitedOk(s.threads, s.place) && CarriedOk(s.threads, s.place) && t in s.threads
    requires x.which == s.threads[t].which && Own(x) == Own(s.threads[t]) && Carried(x) == Carried(s.threads[t])
    ensures AwaitedOk(s.threads[t := x], s.place) && CarriedOk(s.threads[t := x], s.place)
  {}

  lemma ThreadEnds(threads: Threads, place: Places, t: Thread)
    requires AwaitedOk(threads, place) && CarriedOk(threads, place) && t in threads
    requires Own(threads[t]).None?
    ensures Carried(threads[t]).None? ==> AwaitedOk(threads - {t}, place) && CarriedOk(threads - {t}, place)
    ensures Carried(threads[t]).Some? ==>
              var place' := place[Carried(threads[t]).value := Queued];
              AwaitedOk(threads - {t}, place') && CarriedOk(threads - {t}, place')
  {}

  lemma Enqueued(queue: seq<Reply>, place: Places, r: Reply)
    requires QueueOk(queue, place) && r.payload in place && place[r.payload] != Queued
    ensures QueueOk(queue + [r], place[r.payload := Queued])
  {
    HoldsAppend(queue, r);
  }

  lemma SendKeepsInv(s: State, t: Thread)
    requires Inv(s) && t in s.threads && s.threads[t].pc.Sending?
    ensures Inv(OnSend(s, t))
  {
    var reply := s.threads[t].pc.reply;
    ThreadEnds(s.threads, s.place, t);
    if reply.Some? {
      var p := reply.value.payload;
      assert Carried(s.threads[t]) == Some(p) && s.place[p] == InThread(t);
      Enqueued(s.queue, s.place, reply.value);
      MovedElsewhere(s, p, Queued);
      MovedOutOfSession(s.plain.rawRequest, Plain, s.place, p, Queued);
      MovedOutOfSession(s.emergency.rawRequest, Emergency, s.place, p, Queued);
    }
  }

  lemma Dequeued(queue: seq<Reply>, place: Places)
    requires QueueOk(queue, place) && queue != []
    ensures QueueOk(queue[1..], place[queue[0].payload := Gone(true)])
  {
    HoldsTail(queue);
  }

  lemma InformedNow(informed: seq<Reply>, place: Places, r: Reply)
    requires InformedOk(informed, place) && r.payload in place && place[r.payload] != Gone(true)
    ensures InformedOk(informed + [r], place[r.payload := Gone(true)])
  {
    HoldsAppend(informed, r);
  }

  lemma AwayFromThreads(threads: Threads, place: Places, p: Payload, to: Place)
    requires AwaitedOk(threads, place) && CarriedOk(threads, place)
    requires p in place && !place[p].InSession? && !place[p].InThread? && !to.InSession? && !to.InThread?
    ensures AwaitedOk(threads, place[p := to]) && CarriedOk(threads, place[p := to])
  {}

  lemma InformKeepsInv(s: State)
    requires Inv(s) && s.queue != []
    ensures Inv(OnInform(s))
  {
    var r := s.queue[0];
    var p := r.payload;
    assert s.place[p] == Queued;
    Dequeued(s.queue, s.place);
    InformedNow(s.informed, s.place, r);
    FreedNow(s.freed, s.place, p, true);
    AwayFromThreads(s.threads, s.place, p, Gone(true));
    MovedOutOfSession(s.plain.rawRequest, Plain, s.place, p, Gone(true));
    MovedOutOfSession(s.emergency.rawRequest, Emergency, s.place, p, Gone(true));
  }

  lemma ThreadStepKeepsInv(s: State, a: Action)
    requires Inv(s) && Enabled(s, a) && (a.Check? || a.Wake? || a.Timeout? || a.Reset? || a.Send?)
    ensures Inv(Next(s, a))
  {
    var x := s.threads[a.thread];
    if a.Reset? {
      ThreadGoesOnKeepsInv(s, a.thread, ThreadState(x.which, Sending(x.pc.reply)));
    } else if a.Send? {
      SendKeepsInv(s, a.thread);
    } else if a.Check? && !Get(s, x.which).respRecvd {
      ThreadGoesOnKeepsInv(s, a.thread, ThreadState(x.which, Waiting(x.pc.own)));
    } else {
      ConsumeKeepsInv(s, a.thread, if a.Timeout? then NoResponse else Get(s, x.which).resp);
    }
  }

  lemma StepKeepsInv(s: State, a: Action)
    requires Inv(s)
    ensures Inv(Try(s, a))
  {
    if Enabled(s, a) {
      if a.Notify? {
        NotifyKeepsInv(s, a.which, a.payload, a.hasClient);
      } else if a.Inform? {
        InformKeepsInv(s);
      } else if !a.Respond? && !a.MsgGoOn? {
        ThreadStepKeepsInv(s, a);
      }
    }
  }

  function Run(s: State, actions: seq<Action>): State {
    RunOf(Try, s, actions)
  }

  lemma {:induction false} RunKeepsInv(s: State, actions: seq<Action>)
    requires Inv(s)
    ensures Inv(Run(s, actions))
    decreases |actions|
  {
    if actions != [] {
      StepKeepsInv(s, actions[0]);
      RunKeepsInv(Try(s, actions[0]), actions[1..]);
    }
  }

  // ---------- What follows ----------

  // A payload in progress is never overwritten: it leaves its session only when the thread
  // that was started for it takes it out.
  lemma InProgressIsNotOverwritten(s: State, a: Action, w: Which)
    requires Inv(s) && Enabled(s, a)
    requires Get(s, w).rawRequest.Some? && Get(Next(s, a), w).rawRequest != Get(s, w).rawRequest
    ensures Get(Next(s, a), w).rawRequest.None?
    ensures a.Check? || a.Wake? || a.Timeout?
    ensures Own(s.threads[a.thread]) == Get(s, w).rawRequest
  {
    RequestLeavesByThread(s, a, w);
    OwnIsStored(s, a.thread);
  }

  lemma RequestLeavesByThread(s: State, a: Action, w: Which)
    requires Enabled(s, a)
    requires Get(s, w).rawRequest.Some? && Get(Next(s, a), w).rawRequest != Get(s, w).rawRequest
    ensures Get(Next(s, a), w).rawRequest.None?
    ensures (a.Check? || a.Wake? || a.Timeout?) && s.threads[a.thread].which == w
  {}

  // A plain request only starts while no emergency request is in progress.
  lemma PlainStartsAlone(s: State, a: Action)
    requires Enabled(s, a)
    requires s.plain.rawRequest.None? && Next(s, a).plain.rawRequest.Some?
    ensures s.emergency.rawRequest.None? && Next(s, a).emergency.rawRequest.None?
  {}

  // In every interleaving: no payload is freed twice, or passed on twice; whatever has been
  // passed on has been freed; and an accepted payload that has not been freed is in exactly
  // one place, in a session, a thread or a message, so none is lost.
  lemma AcceptedPayloadsAreConsumedOnce(actions: seq<Action>)
    ensures var s := Run(Init(), actions);
      && NoDuplicates(s.freed) && NoRepeats(s.informed)
      && (forall p | Holds(s.informed, p) :: p in s.freed)
      && (s.threads == map[] && s.queue == [] ==> forall p | p in s.place :: p in s.freed)
      && (forall p | p in s.place && p !in s.freed ::
            || (exists w :: Get(s, w).rawRequest == Some(p))
            || (exists t :: t in s.threads && Carried(s.threads[t]) == Some(p))
            || Holds(s.queue, p))
  {
    var s := Run(Init(), actions);
    RunKeepsInv(Init(), actions);
    forall p | p in s.place && p !in s.freed
      ensures || (exists w :: Get(s, w).rawRequest == Some(p))
              || (exists t :: t in s.threads && Carried(s.threads[t]) == Some(p))
              || Holds(s.queue, p)
    {
      if s.place[p].InSession? {
        assert Get(s, s.place[p].which).rawRequest == Some(p);
      } else if s.place[p].InThread? {
        assert Carried(s.threads[s.place[p].thread]) == Some(p);
      }
    }
  }

  // The answer with which a thread ends its wait.
  function AnswerAt(s: State, a: Action): Answer
    requires Enabled(s, a) && (a.Check? || a.Wake? || a.Timeout?)
  {
    if a.Timeout? then NoResponse else Get(s, s.threads[a.thread].which).resp
  }

  // A payload is freed only by the message that passes it on, or by its own thread when the
  // answer is to ignore it.
  lemma FreedByItsAnswer(s: State, a: Action, p: Payload)
    requires Inv(s) && Enabled(s, a) && p !in s.freed && p in Next(s, a).freed
    ensures || (a.Inform? && s.queue[0].payload == p && Next(s, a).informed == s.informed + [s.queue[0]])
            || ((a.Check? || a.Wake?) && Own(s.threads[a.thread]) == Some(p) && AnswerAt(s, a) == Ignore)
  {
    if a.Check? || a.Wake? || a.Timeout? {
      OwnIsStored(s, a.thread);
    }
  }

  // With any other answer the thread carries off its own payload and that answer,
  lemma CarriedWithItsAnswer(s: State, a: Action, p: Payload)
    requires Inv(s) && Enabled(s, a) && p in s.place && s.place[p].InSession? && Next(s, a).place[p].InThread?
    ensures (a.Check? || a.Wake? || a.Timeout?) && Own(s.threads[a.thread]) == Some(p)
    ensures Next(s, a).threads[a.thread].pc == Unlocked(Some(Reply(AnswerAt(s, a), p)))
  {
    if a.Check? || a.Wake? || a.Timeout? {
      OwnIsStored(s, a.thread);
      if Next(s, a) == Consume(s, a.thread, AnswerAt(s, a)) {
        ConsumeCarries(s, a.thread, AnswerAt(s, a), p);
      }
    }
  }

  lemma ConsumeCarries(s: State, t: Thread, resp: Answer, p: Payload)
    requires t in s.threads && Own(s.threads[t]).Some? && Get(s, s.threads[t].which).rawRequest == Own(s.threads[t])
    requires p in s.place && s.place[p].InSession? && Consume(s, t, resp).place[p].InThread?
    ensures Own(s.threads[t]) == Some(p) && Consume(s, t, resp).threads[t].pc == Unlocked(Some(Reply(resp, p)))
  {}

  // and sends them as they are.
  lemma SentWithItsAnswer(s: State, a: Action, p: Payload)
    requires Enabled(s, a) && p in s.place && s.place[p].InThread? && Next(s, a).place[p] == Queued
    ensures a.Send? && s.threads[a.thread].pc.reply.Some?
    ensures Next(s, a).queue == s.queue + [s.threads[a.thread].pc.reply.value]
    ensures s.threads[a.thread].pc.reply.value.payload == p
  {}
}
