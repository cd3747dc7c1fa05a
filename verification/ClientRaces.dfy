/** The session dictionary when calls of the client and callbacks of the engine overlap. The
    client's calls exclude each other, but responses and trip reports remove sessions without
    that lock, and each call on the dictionary is a step of its own. The dictionary stays
    whole if and only if two things never happen. */
module ClientRaces {

  import opened Wrappers
  import opened SessionDict
  import opened ClientSessions

  // Where the client's call is.
  datatype ApiPc =
    | Idle
    | Absent(id: Id, mode: nat)             // hasId said no: about to start a session and store it
    | Present(id: Id, update: Option<nat>)  // hasId said yes: about to get the entity, for an
                                            // update of the mode, or for a stop or a fetch
    | Got(id: Id, entity: SessionEntity)    // the entity is updated: about to remove the old entry
    | Gone(id: Id, entity: SessionEntity)   // about to store the new one

  // callbacks holds the sessions that hasSession has found, and that will now be removed.
  datatype State = State(dict: Dict<SessionEntity>, api: ApiPc, callbacks: multiset<Session>)

  // session, in GoOn, is what LocationAPI returns if it is asked for a new session.
  datatype Action =
    | BeginStart(id: Id, mode: nat)
    | BeginOther(id: Id, update: Option<nat>)
    | GoOn(session: Session)
    | FindSession(session: Session)
    | RemoveFound(session: Session)

  predicate Enabled(s: State, a: Action) {
    match a
    case BeginStart(_, _) => s.api == Idle
    case BeginOther(_, _) => s.api == Idle
    case GoOn(_) => s.api != Idle
    case FindSession(_) => true
    case RemoveFound(session) => session in s.callbacks
  }

  function Continue(s: State, session: Session): State
    requires s.api != Idle
  {
    match s.api
    case Absent(id, mode) => s.(dict := Set(s.dict, id, session, NewEntity(id, mode, session)), api := Idle)
    case Present(id, update) =>
      var d := AfterGetExtById(s.dict, id);
      if update.None? then s.(dict := d, api := Idle)
      else s.(dict := d, api := Got(id, Updated(ExtById(s.dict, id, NO_ENTITY), update.value, session)))
    case Got(id, e) => s.(dict := RmById(s.dict, id), api := Gone(id, e))
    case Gone(id, e) => s.(dict := Set(s.dict, id, Selected(e), e), api := Idle)
  }

  function Next(s: State, a: Action): State
    requires Enabled(s, a)
  {
    match a
    case BeginStart(id, mode) => if id in s.dict.forward then s else s.(api := Absent(id, mode))
    case BeginOther(id, update) => if id in s.dict.forward then s.(api := Present(id, update)) else s
    case GoOn(session) => Continue(s, session)
    case FindSession(session) =>
      if session in s.dict.backward then s.(callbacks := s.callbacks + multiset{session}) else s
    case RemoveFound(session) =>
      s.(dict := RmBySession(s.dict, session), callbacks := s.callbacks - multiset{session})
  }

  function Try(s: State, a: Action): State {
    if Enabled(s, a) then Next(s, a) else s
  }

  // The two things: a client asks for the entity of an id that has been removed meanwhile;
  // and a session that was found is removed after it has gone, while the client uses id 0.
  predicate Misses(s: State, a: Action) {
    || (a.GoOn? && s.api.Present? && s.api.id !in s.dict.forward)
    || (a.RemoveFound? && a.session in s.callbacks && a.session !in s.dict.backward && 0 in s.dict.forward)
  }

  // LocationAPI is asked for a new session: for a start, and for an update that changes the
  // family of the session.
  predicate Draws(s: State, a: Action) {
    a.GoOn? &&
    (|| s.api.Absent?
     || (s.api.Present? && s.api.update.Some?
         && FamilyOf(s.api.update.value) != FamilyOf(ExtById(s.dict, s.api.id, NO_ENTITY).sessionMode)))
  }

  ghost predicate FreshFor(s: State, a: Action) {
    Draws(s, a) ==> a.session != 0 && a.session !in s.dict.backward
  }

  // ---------- One step ----------

  // An entity on its way into the dictionary, where no other id has its session.
  ghost predicate Storable(d: Dict<SessionEntity>, id: Id, e: SessionEntity) {
    && e == NewEntity(id, e.sessionMode, Selected(e)) && Selected(e) != 0
    && (Selected(e) in d.backward ==> d.backward[Selected(e)] == id)
  }

  ghost predicate Ok(s: State) {
    && Whole(s.dict)
    && match s.api
       case Idle => true
       case Absent(id, _) => id !in s.dict.forward
       case Present(_, _) => true
       case Got(id, e) => Storable(s.dict, id, e)
       case Gone(id, e) => Storable(s.dict, id, e) && id !in s.dict.forward
  }

  lemma PresentStep(s: State, session: Session)
    requires Ok(s) && s.api.Present? && FreshFor(s, GoOn(session))
    ensures Whole(Continue(s, session).dict) <==> s.api.id in s.dict.forward
    ensures s.api.id in s.dict.forward ==> Ok(Continue(s, session))
  {
    GetExtByIdKeepsInverseIff(s.dict, s.api.id);
    if s.api.id in s.dict.forward {
      GetLeavesWholeAlone(s.dict, s.api.id);
      if s.api.update.Some? {
        var e := TableOf(s.dict)[s.api.id];
        UpdatedEntity(s.api.id, e.sessionMode, s.dict.forward[s.api.id], s.api.update.value, session);
      }
    }
  }

  lemma GotStep(s: State, session: Session)
    requires Ok(s) && s.api.Got?
    ensures Ok(Continue(s, session))
  {
    var d, id := s.dict, s.api.id;
    if id in d.forward {
      RemoveByIdOnTable(d, id);
    } else {
      assert RmById(d, id) == d;
    }
  }

  lemma GoneStep(s: State, session: Session)
    requires Ok(s) && s.api.Gone?
    ensures Ok(Continue(s, session))
  {
    SetOnTable(s.dict, s.api.id, s.api.entity.sessionMode, Selected(s.api.entity));
  }

  lemma RemoveStep(s: State, session: Session)
    requires Ok(s) && session in s.callbacks
    ensures Whole(Next(s, RemoveFound(session)).dict) <==> session in s.dict.backward || 0 !in s.dict.forward
    ensures session in s.dict.backward || 0 !in s.dict.forward ==> Ok(Next(s, RemoveFound(session)))
  {
    RmBySessionKeepsInverseIff(s.dict, session);
    if session in s.dict.backward {
      RemoveOnTable(s.dict, session);
    } else if 0 !in s.dict.forward {
      assert RmBySession(s.dict, session) == s.dict;
    }
  }

  lemma StepKeepsWholeIff(s: State, a: Action)
    requires Ok(s) && FreshFor(s, a)
    ensures Whole(Try(s, a).dict) <==> !Misses(s, a)
    ensures !Misses(s, a) ==> Ok(Try(s, a))
  {
    if a.RemoveFound? && Enabled(s, a) {
      RemoveStep(s, a.session);
    } else if a.GoOn? && s.api != Idle {
      match s.api
      case Absent(id, mode) => SetOnTable(s.dict, id, mode, a.session);
      case Present(_, _) => PresentStep(s, a.session);
      case Got(_, _) => GotStep(s, a.session);
      case Gone(_, _) => GoneStep(s, a.session);
    }
  }

  // ---------- Every interleaving ----------

  const INIT := State(Dict(map[], map[], map[]), Idle, multiset{})

  ghost predicate AllFresh(s: State, actions: seq<Action>)
    decreases |actions|
  {
    actions != [] ==> FreshFor(s, actions[0]) && AllFresh(Try(s, actions[0]), actions[1..])
  }

  ghost predicate AlwaysWhole(s: State, actions: seq<Action>)
    decreases |actions|
  {
    Whole(s.dict) && (actions != [] ==> AlwaysWhole(Try(s, actions[0]), actions[1..]))
  }

  predicate NeverMisses(s: State, actions: seq<Action>)
    decreases |actions|
  {
    actions != [] ==> !Misses(s, actions[0]) && NeverMisses(Try(s, actions[0]), actions[1..])
  }

  lemma {:induction false} RunWholeIff(s: State, actions: seq<Action>)
    requires Ok(s) && AllFresh(s, actions)
    ensures AlwaysWhole(s, actions) <==> NeverMisses(s, actions)
    decreases |actions|
  {
    if actions != [] {
      StepKeepsWholeIff(s, actions[0]);
      if !Misses(s, actions[0]) {
        RunWholeIff(Try(s, actions[0]), actions[1..]);
      }
    }
  }

  // In every interleaving with new sessions: after every single call on it, the dictionary
  // is one table whose entries name their own id and session, if and only if neither of the
  // two things ever happens.
  lemma DictionaryStaysWholeIffNothingIsMissed(actions: seq<Action>)
    requires AllFresh(INIT, actions)
    ensures AlwaysWhole(INIT, actions) <==> NeverMisses(INIT, actions)
  {
    RunWholeIff(INIT, actions);
  }

  // ---------- The single calls make up the client's calls ----------

  // With no callback in between, the steps of a call do to the dictionary what the call does,
  // and the steps of a removal what a removal does.
  lemma StepsMakeUpStart(s: State, id: Id, mode: nat, session: Session, requests: seq<Request>)
    requires s.api == Idle
    ensures var s1 := Next(s, BeginStart(id, mode));
      var s2 := Try(s1, GoOn(session));
      s2 == s.(dict := OnStart(Client(s.dict, requests), id, mode, session).state.dict)
  {}

  lemma StepsMakeUpLookUp(s: State, id: Id, session: Session, requests: seq<Request>)
    requires s.api == Idle
    ensures var s1 := Next(s, BeginOther(id, None));
      var s2 := Try(s1, GoOn(session));
      && s2 == s.(dict := OnStop(Client(s.dict, requests), id).state.dict)
      && s2 == s.(dict := OnGetBatched(Client(s.dict, requests), id).state.dict)
  {}

  lemma StepsMakeUpUpdate(s: State, id: Id, mode: nat, session: Session, requests: seq<Request>)
    requires s.api == Idle
    ensures var s1 := Next(s, BeginOther(id, Some(mode)));
      var s2 := Try(Try(Try(s1, GoOn(session)), GoOn(session)), GoOn(session));
      s2 == s.(dict := OnUpdate(Client(s.dict, requests), id, mode, session).state.dict)
  {}

  lemma StepsMakeUpRemoval(s: State, session: Session)
    requires session !in s.callbacks
    ensures var s1 := Next(s, FindSession(session));
      Try(s1, RemoveFound(session)) == s.(dict := RemoveSession(s.dict, session))
  {
    assert s.callbacks + multiset{session} - multiset{session} == s.callbacks;
  }

  // ---------- What may happen to one id ----------

  // An id that a look-up has left behind without a session is stored again by an update to
  // fixes, under a new session; but then its entity says id 0, and batching session 0 is
  // stopped.
  lemma UpdateOfStrandedIdStoresIdZero(d: Dict<SessionEntity>, id: Id, session: Session)
    requires Whole(d) && id !in d.forward && session != 0 && session !in d.backward
    ensures var stranded := AfterGetExtById(d, id);
      var r := OnUpdate(Client(stranded, []), id, SESSION_MODE_ON_FIX, session);
      var c := r.state;
      && r.out == [Call(Stop, Batching, 0), Call(Start, Tracking, session)]
      && Inverse(c.dict) && c.dict.forward == d.forward[id := session]
      && session in c.dict.ext && c.dict.ext[session].id == 0
      && (Whole(c.dict) <==> id == 0)
  {
    var stranded := AfterGetExtById(d, id);
    assert RmById(stranded, id) == d;
    assert AfterGetExtById(stranded, id) == stranded;
    SetKeepsInverseIff(d, id, session, SessionEntity(0, session, 0, SESSION_MODE_ON_FIX));
  }

  // An update to any other mode starts no session: it stores the id under session 0.
  lemma OtherUpdateOfStrandedIdStoresSessionZero(d: Dict<SessionEntity>, id: Id, mode: nat, session: Session)
    requires Whole(d) && id !in d.forward && mode != SESSION_MODE_ON_FIX
    ensures var stranded := AfterGetExtById(d, id);
      var r := OnUpdate(Client(stranded, []), id, mode, session);
      var c := r.state;
      && r.out == [Call(Update, Batching, 0)]
      && Inverse(c.dict) && !Whole(c.dict)
      && c.dict.forward == d.forward[id := 0] && 0 in c.dict.backward && c.dict.backward[0] == id
  {
    var stranded := AfterGetExtById(d, id);
    assert RmById(stranded, id) == d;
    assert AfterGetExtById(stranded, id) == stranded;
    SetKeepsInverseIff(d, id, 0, SessionEntity(0, 0, 0, mode));
  }

  // A removal between getExtById and rmById is undone by the update: the dictionary comes
  // out as if the session had not ended.
  lemma RemovalInsideUpdateIsUndone(s: State, session: Session)
    requires Ok(s) && s.api.Got? && s.api.id in s.dict.forward && s.dict.forward[s.api.id] == session
    requires session in s.callbacks
    ensures var removed := Next(s, RemoveFound(session));
      && s.api.id !in removed.dict.forward
      && Continue(Continue(removed, 1), 1).dict == Continue(Continue(s, 1), 1).dict
  {
    var d, id := s.dict, s.api.id;
    RemovalTakesOnePair(d, id);
    assert RmById(RmBySession(d, session), id) == RmBySession(d, session);
  }
}
