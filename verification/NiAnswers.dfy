/** What becomes of a user's answer to an NI request: it reaches the session it was given for,
    and what informNiResponse is told about a payload is such an answer, or that there was
    none in time. */
module NiAnswers {

  import opened Runs
  import opened Wrappers
  import opened NiSessions

  // ---------- What each step of the message task does ----------

  // A request that comes with a client to ask is stored, with a new id and a thread of its
  // own, if and only if its kind may start; and else its payload is freed at once.
  lemma NotifyTakesEffect(s: State, w: Which, p: Payload, hasClient: bool)
    requires Inv(s) && Enabled(s, Notify(w, p, hasClient))
    ensures var s' := Next(s, Notify(w, p, hasClient));
      if !hasClient then s' == s
      else if s.emergency.rawRequest.None? && (w == Plain ==> s.plain.rawRequest.None?) then
        && Get(s', w).rawRequest == Some(p) && Get(s', w).reqID == s.reqIDCounter + 1 == s'.reqIDCounter
        && (forall v | v != w :: Get(s', v) == Get(s, v))
        && s.nextThread !in s.threads && s'.threads == s.threads[s.nextThread := ThreadState(w, Started(p))]
        && s'.refused == s.refused
      else s' == s.(refused := s.refused + [p])
  {}

  // An answer is for the emergency session if that has a payload and this id, and else for
  // the plain session if that has.
  predicate IsFor(s: State, id: nat, w: Which) {
    && Get(s, w).rawRequest.Some? && Get(s, w).reqID == id
    && (w == Plain ==> !(s.emergency.rawRequest.Some? && s.emergency.reqID == id))
  }

  lemma RespondTakesEffect(s: State, id: nat, resp: Answer, hasClient: bool)
    requires Enabled(s, Respond(id, resp, hasClient))
    ensures var s' := Next(s, Respond(id, resp, hasClient));
      && s'.(msg := Idle) == s
      && (hasClient && IsFor(s, id, Plain) ==> s'.msg == Setting(Plain, resp))
      && (hasClient && IsFor(s, id, Emergency) ==>
            s'.msg == if resp == Accept && s.plain.rawRequest.Some? then Ignoring(resp) else Setting(Emergency, resp))
      && (!hasClient || (!IsFor(s, id, Plain) && !IsFor(s, id, Emergency)) ==> s' == s)
  {}

  // The answer is stored in its session, and the other session is left alone. An accepted
  // emergency first makes the plain request be ignored.
  lemma GoOnTakesEffect(s: State)
    requires s.msg != Idle
    ensures var s' := Next(s, MsgGoOn);
      match s.msg
      case Setting(w, resp) =>
        && s'.msg == Idle && Get(s', w) == Get(s, w).(resp := resp, respRecvd := true)
        && forall v | v != w :: Get(s', v) == Get(s, v)
      case Ignoring(resp) =>
        && s'.msg == Setting(Emergency, resp) && s'.emergency == s.emergency
        && s'.plain == s.plain.(resp := Ignore, respRecvd := true)
      case Idle => true
  {}

  // A thread ends its wait when there is an answer, or at its time-out. Its session is then
  // free for another request, and does not keep the answer for that.
  lemma WaitEnds(s: State, a: Action)
    requires (a.Check? || a.Wake? || a.Timeout?) && Enabled(s, a)
    ensures var w := s.threads[a.thread].which;
      var s' := Next(s, a);
      if a.Check? && !Get(s, w).respRecvd then
        s' == s.(threads := s.threads[a.thread := ThreadState(w, Waiting(s.threads[a.thread].pc.own))])
      else
        && Get(s', w).rawRequest.None? && !Get(s', w).respRecvd
        && s'.threads[a.thread].pc.Unlocked? && s'.queue == s.queue && s'.informed == s.informed
        && forall v | v != w :: Get(s', v) == Get(s, v)
  {}

  // Then it clears the id of its session, sends its reply, if it has one, and is gone.
  lemma ThreadEnds(s: State, t: Thread)
    requires t in s.threads && s.threads[t].pc.Unlocked?
    ensures var w, reply := s.threads[t].which, s.threads[t].pc.reply;
      var s1 := Next(s, Reset(t));
      var s2 := Next(s1, Send(t));
      && Get(s1, w) == Get(s, w).(reqID := 0) && s1.queue == s.queue
      && s2.queue == s.queue + (if reply.Some? then [reply.value] else [])
      && s2.threads == s.threads - {t}
      && forall v :: Get(s2, v) == Get(s1, v) && (v != w ==> Get(s1, v) == Get(s, v))
  {
    assert Next(s, Reset(t)).threads - {t} == s.threads - {t};
    assert s.queue + [] == s.queue;
  }

  // The message task passes on the replies in the order in which they were sent, and frees
  // each payload then.
  lemma InformTakesEffect(s: State)
    requires Enabled(s, Inform)
    ensures var s' := Next(s, Inform);
      && s.queue == [s.queue[0]] + s'.queue && s'.informed == s.informed + [s.queue[0]]
      && s'.freed == s.freed + [s.queue[0].payload]
      && s'.plain == s.plain && s'.emergency == s.emergency && s'.threads == s.threads
  {}

  // Nothing else makes the message task go on with an answer, or lose it.
  lemma OtherStepsKeepMsg(s: State, a: Action)
    requires s.msg != Idle && a != MsgGoOn
    ensures Try(s, a).msg == s.msg
  {}

  lemma {:induction false} RunKeepsMsg(s: State, actions: seq<Action>)
    requires s.msg != Idle && MsgGoOn !in actions
    ensures Run(s, actions).msg == s.msg
    decreases |actions|
  {
    if actions != [] {
      OtherStepsKeepMsg(s, actions[0]);
      RunKeepsMsg(Try(s, actions[0]), actions[1..]);
    }
  }

  // In every interleaving: when the message task has taken an answer for a session, the next
  // step of its own stores that answer there. An accepted emergency takes one step more, and
  // then the plain request is to be ignored.
  lemma AnswerReachesItsSession(s: State, id: nat, w: Which, resp: Answer, between: seq<Action>)
    requires s.msg == Idle && IsFor(s, id, w) && MsgGoOn !in between
    ensures var s1 := Run(Next(s, Respond(id, resp, true)), between);
      var s2 := Try(s1, MsgGoOn);
      if w == Emergency && resp == Accept && s.plain.rawRequest.Some? then
        && s2.plain.resp == Ignore && s2.plain.respRecvd && s2.msg == Setting(Emergency, resp)
        && s2.emergency == s1.emergency
      else
        && Get(s2, w).resp == resp && Get(s2, w).respRecvd && s2.msg == Idle
        && forall v | v != w :: Get(s2, v) == Get(s1, v)
  {
    var s0 := Next(s, Respond(id, resp, true));
    RespondTakesEffect(s, id, resp, true);
    RunKeepsMsg(s0, between);
    GoOnTakesEffect(Run(s0, between));
  }

  // Without anything in between, the user's answer and the payload come out together.
  lemma UndisturbedAnswerIsPassedOn(s: State, id: nat, w: Which, resp: Answer, t: Thread, p: Payload)
    requires Inv(s) && s.msg == Idle && IsFor(s, id, w) && resp != Ignore
    requires t in s.threads && s.threads[t] == ThreadState(w, Waiting(p))
    requires !(w == Emergency && resp == Accept && s.plain.rawRequest.Some?)
    ensures var s' := Run(s, [Respond(id, resp, true), MsgGoOn, Wake(t), Reset(t), Send(t)]);
      s'.queue == s.queue + [Reply(resp, p)]
  {
    var actions := [Respond(id, resp, true), MsgGoOn, Wake(t), Reset(t), Send(t)];
    RespondTakesEffect(s, id, resp, true);
    OwnIsStored(s, t);
    var s1 := Next(s, actions[0]);
    assert s1 == s.(msg := Setting(w, resp));
    var s2 := Next(s1, MsgGoOn);
    assert Get(s2, w).rawRequest == Some(p) && Get(s2, w).respRecvd && Get(s2, w).resp == resp;
    var s3 := Next(s2, Wake(t));
    assert s3.threads[t] == ThreadState(w, Unlocked(Some(Reply(resp, p))));
    var s4 := Next(s3, Reset(t));
    var s5 := Next(s4, Send(t));
    RunFour(Try, s, actions);
    assert actions[4..] == [Send(t)];
    RunOne(Try, s4, [Send(t)]);
  }

  // ---------- Where what is passed on comes from ----------

  // given: the answers taken so far, each for a session. timedOut: the payloads whose thread
  // has stopped waiting. kind: what an accepted payload was a request for.
  datatype Watched = Watched(
    state: State, given: set<(Which, Answer)>, timedOut: set<Payload>, kind: map<Payload, Which>)

  function GivenBy(s: State, a: Action): set<(Which, Answer)> {
    if !a.Respond? || !a.hasClient || s.msg != Idle then {}
    else if IsFor(s, a.id, Emergency) then
      {(Emergency, a.resp)} + if a.resp == Accept && s.plain.rawRequest.Some? then {(Plain, Ignore)} else {}
    else if IsFor(s, a.id, Plain) then {(Plain, a.resp)}
    else {}
  }

  function Watch(w: Watched, a: Action): Watched {
    var s := w.state;
    Watched(Try(s, a), w.given + GivenBy(s, a),
            if a.Timeout? && Enabled(s, a) && Own(s.threads[a.thread]).Some?
            then w.timedOut + {Own(s.threads[a.thread]).value} else w.timedOut,
            if a.Notify? && Enabled(s, a) && a.payload in Try(s, a).place
            then w.kind[a.payload := a.which] else w.kind)
  }

  lemma {:induction false} WatchingChangesNothing(w: Watched, actions: seq<Action>)
    ensures RunOf(Watch, w, actions).state == Run(w.state, actions)
    decreases |actions|
  {
    if actions != [] {
      WatchingChangesNothing(Watch(w, actions[0]), actions[1..]);
    }
  }

  // The reply for a payload is an answer given for its kind of session, or there was none in
  // time.
  predicate Answered(w: Watched, r: Reply) {
    || (r.payload in w.timedOut && r.resp == NoResponse)
    || (r.payload in w.kind && (w.kind[r.payload], r.resp) in w.given)
  }

  predicate SessionAnswered(w: Watched, v: Which) {
    Get(w.state, v).respRecvd ==> (v, Get(w.state, v).resp) in w.given
  }

  predicate MsgAnswered(w: Watched) {
    match w.state.msg
    case Idle => true
    case Setting(v, resp) => (v, resp) in w.given
    case Ignoring(resp) => (Plain, Ignore) in w.given && (Emergency, resp) in w.given
  }

  ghost predicate KindsOk(w: Watched) {
    && w.kind.Keys == w.state.place.Keys
    && (forall t | t in w.state.threads && Own(w.state.threads[t]).Some? ::
          Own(w.state.threads[t]).value in w.kind
          && w.kind[Own(w.state.threads[t]).value] == w.state.threads[t].which)
  }

  ghost predicate CarriedAnswered(w: Watched, threads: Threads) {
    forall t | t in threads && Carried(threads[t]).Some? :: Answered(w, threads[t].pc.reply.value)
  }

  ghost predicate AllAnswered(w: Watched, replies: seq<Reply>) {
    forall r | r in replies :: Answered(w, r)
  }

  ghost predicate RepliesOk(w: Watched) {
    CarriedAnswered(w, w.state.threads) && AllAnswered(w, w.state.queue) && AllAnswered(w, w.state.informed)
  }

  ghost predicate AnswersOk(w: Watched) {
    SessionAnswered(w, Plain) && SessionAnswered(w, Emergency) && MsgAnswered(w) && KindsOk(w) && RepliesOk(w)
  }

  // The notes only grow.
  ghost predicate Grown(w: Watched, w': Watched) {
    && w.given <= w'.given && w.timedOut <= w'.timedOut
    && forall p | p in w.kind :: p in w'.kind && w'.kind[p] == w.kind[p]
  }

  lemma WatchGrows(w: Watched, a: Action)
    requires KindsOk(w)
    ensures Grown(w, Watch(w, a))
  {}

  lemma StaysAnswered(w: Watched, w': Watched, r: Reply)
    requires Grown(w, w') && Answered(w, r)
    ensures Answered(w', r)
  {}

  lemma AllStayAnswered(w: Watched, w': Watched, threads: Threads, replies: seq<Reply>)
    requires Grown(w, w')
    ensures AllAnswered(w, replies) ==> AllAnswered(w', replies)
    ensures CarriedAnswered(w, threads) ==> CarriedAnswered(w', threads)
  {}

  lemma RepliesStayOk(w: Watched, w': Watched)
    requires Grown(w, w') && RepliesOk(w)
    requires w'.state.threads == w.state.threads && w'.state.queue == w.state.queue
    requires w'.state.informed == w.state.informed
    ensures RepliesOk(w')
  {
    AllStayAnswered(w, w', w.state.threads, w.state.queue);
    AllStayAnswered(w, w', w.state.threads, w.state.informed);
  }

  lemma NotifyAnswers(w: Watched, a: Action)
    requires AnswersOk(w) && Inv(w.state) && a.Notify? && Enabled(w.state, a)
    ensures AnswersOk(Watch(w, a))
  {
    var s, w' := w.state, Watch(w, a);
    WatchGrows(w, a);
    NotifyParts(s, a);
    NotifyKinds(w, a);
    AllStayAnswered(w, w', s.threads, s.queue);
    AllStayAnswered(w, w', s.threads, s.informed);
    if w'.state.threads != s.threads {
      assert w'.state.threads == s.threads[s.nextThread := ThreadState(a.which, Started(a.payload))];
    }
    assert CarriedAnswered(w', w'.state.threads);
  }

  lemma NotifyParts(s: State, a: Action)
    requires Inv(s) && a.Notify? && Enabled(s, a)
    ensures var s' := Next(s, a);
      && s'.queue == s.queue && s'.informed == s.informed && s'.msg == s.msg
      && (s'.threads == s.threads
          || s'.threads == s.threads[s.nextThread := ThreadState(a.which, Started(a.payload))])
      && (forall v :: Get(s', v).respRecvd == Get(s, v).respRecvd && Get(s', v).resp == Get(s, v).resp)
  {}

  lemma NotifyKinds(w: Watched, a: Action)
    requires KindsOk(w) && Inv(w.state) && a.Notify? && Enabled(w.state, a)
    ensures KindsOk(Watch(w, a))
  {}

  lemma RespondAnswers(w: Watched, a: Action)
    requires AnswersOk(w) && a.Respond? && Enabled(w.state, a)
    ensures AnswersOk(Watch(w, a))
  {
    RespondTakesEffect(w.state, a.id, a.resp, a.hasClient);
    WatchGrows(w, a);
    RepliesStayOk(w, Watch(w, a));
  }

  lemma GoOnAnswers(w: Watched)
    requires AnswersOk(w) && w.state.msg != Idle
    ensures AnswersOk(Watch(w, MsgGoOn))
  {
    GoOnTakesEffect(w.state);
    WatchGrows(w, MsgGoOn);
    RepliesStayOk(w, Watch(w, MsgGoOn));
  }

  lemma InformAnswers(w: Watched)
    requires AnswersOk(w) && Inv(w.state) && Enabled(w.state, Inform)
    ensures AnswersOk(Watch(w, Inform))
  {
    var s, w' := w.state, Watch(w, Inform);
    WatchGrows(w, Inform);
    assert s.queue[0] in s.queue && s.queue[0].payload in s.place;
    assert forall r | r in s.queue[1..] :: r in s.queue;
    AllStayAnswered(w, w', s.threads, s.queue);
    AllStayAnswered(w, w', s.threads, s.informed);
    assert w'.state.queue == s.queue[1..] && w'.state.informed == s.informed + [s.queue[0]];
    assert w'.state.threads == s.threads && w'.kind == w.kind;
  }

  // A thread that ends its wait takes the answer that stands in its session, or none.
  lemma ConsumeAnswers(w: Watched, a: Action)
    requires AnswersOk(w) && Inv(w.state) && (a.Check? || a.Wake? || a.Timeout?) && Enabled(w.state, a)
    ensures AnswersOk(Watch(w, a))
  {
    var s, w' := w.state, Watch(w, a);
    var t := a.thread;
    var v := s.threads[t].which;
    WatchGrows(w, a);
    OwnIsStored(s, t);
    ConsumeKinds(w, a);
    if w'.state.threads[t].pc.Unlocked? && w'.state.threads[t].pc.reply.Some? {
      var r := w'.state.threads[t].pc.reply.value;
      assert r == Reply(AnswerAt(s, a), Own(s.threads[t]).value);
      assert Answered(w', r);
    }
    ConsumeReplies(w, a);
  }

  lemma ConsumeKinds(w: Watched, a: Action)
    requires AnswersOk(w) && (a.Check? || a.Wake? || a.Timeout?) && Enabled(w.state, a)
    requires Own(w.state.threads[a.thread]).Some? && Own(w.state.threads[a.thread]).value in w.state.place
    requires Get(w.state, w.state.threads[a.thread].which).rawRequest == Own(w.state.threads[a.thread])
    ensures var w' := Watch(w, a); KindsOk(w') && SessionAnswered(w', Plain) && SessionAnswered(w', Emergency)
  {}

  lemma ConsumeReplies(w: Watched, a: Action)
    requires AnswersOk(w) && (a.Check? || a.Wake? || a.Timeout?) && Enabled(w.state, a) && Grown(w, Watch(w, a))
    requires var x := Watch(w, a).state.threads[a.thread];
      Carried(x).Some? ==> Answered(Watch(w, a), x.pc.reply.value)
    ensures RepliesOk(Watch(w, a)) && MsgAnswered(Watch(w, a))
  {
    var s, w' := w.state, Watch(w, a);
    AllStayAnswered(w, w', s.threads, s.queue);
    AllStayAnswered(w, w', s.threads, s.informed);
    ConsumeParts(s, a);
  }

  lemma ConsumeParts(s: State, a: Action)
    requires (a.Check? || a.Wake? || a.Timeout?) && Enabled(s, a)
    ensures var s' := Next(s, a);
      && s'.queue == s.queue && s'.informed == s.informed && s'.msg == s.msg
      && a.thread in s'.threads && s'.threads == s.threads[a.thread := s'.threads[a.thread]]
  {}

  lemma ResetAnswers(w: Watched, a: Action)
    requires AnswersOk(w) && a.Reset? && Enabled(w.state, a)
    ensures AnswersOk(Watch(w, a))
  {
    WatchGrows(w, a);
  }

  lemma SendAnswers(w: Watched, a: Action)
    requires AnswersOk(w) && Inv(w.state) && a.Send? && Enabled(w.state, a)
    ensures AnswersOk(Watch(w, a))
  {
    WatchGrows(w, a);
    var reply := w.state.threads[a.thread].pc.reply;
    if reply.Some? {
      assert Carried(w.state.threads[a.thread]) == Some(reply.value.payload);
      assert Answered(w, reply.value);
    }
  }

  lemma StepKeepsAnswers(w: Watched, a: Action)
    requires AnswersOk(w) && Inv(w.state)
    ensures AnswersOk(Watch(w, a))
  {
    if !Enabled(w.state, a) {
      WatchGrows(w, a);
      RepliesStayOk(w, Watch(w, a));
    } else if a.Notify? {
      NotifyAnswers(w, a);
    } else if a.Respond? {
      RespondAnswers(w, a);
    } else if a.MsgGoOn? {
      GoOnAnswers(w);
    } else if a.Inform? {
      InformAnswers(w);
    } else if a.Reset? {
      ResetAnswers(w, a);
    } else if a.Send? {
      SendAnswers(w, a);
    } else {
      ConsumeAnswers(w, a);
    }
  }

  const START := Watched(Init(), {}, {}, map[])

  lemma {:induction false} RunKeepsAnswers(w: Watched, actions: seq<Action>)
    requires AnswersOk(w) && Inv(w.state)
    ensures AnswersOk(RunOf(Watch, w, actions)) && Inv(RunOf(Watch, w, actions).state)
    decreases |actions|
  {
    if actions != [] {
      StepKeepsAnswers(w, actions[0]);
      StepKeepsInv(w.state, actions[0]);
      RunKeepsAnswers(Watch(w, actions[0]), actions[1..]);
    }
  }

  // In every interleaving: whatever informNiResponse is told about a payload is an answer that
  // was taken, with a client to give it, for the kind of request the payload was for; or it is
  // that there was no response, and the payload's thread had stopped waiting.
  lemma EveryReplyIsAnAnswer(actions: seq<Action>)
    ensures var w := RunOf(Watch, START, actions);
      && w.state == Run(Init(), actions)
      && forall r | r in w.state.informed ::
           || (r.payload in w.timedOut && r.resp == NoResponse)
           || (r.payload in w.kind && (w.kind[r.payload], r.resp) in w.given)
  {
    WatchingChangesNothing(START, actions);
    RunKeepsAnswers(START, actions);
  }
}
