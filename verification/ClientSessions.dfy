/** The tracking and batching sessions of one client, as LocationAPIClientBase keeps them:
    starting, stopping and changing them, and the responses and trip reports that end them.
    The three maps of the dictionary are proved to act as one table from ids to entities. */
module ClientSessions {

  import opened Wrappers
  import opened Runs
  import opened SessionDict

  const SESSION_MODE_ON_FULL := 1
  const SESSION_MODE_ON_FIX := 2
  const SESSION_MODE_ON_TRIP_COMPLETED := 3

  datatype SessionEntity = SessionEntity(id: Id, trackingSession: Session, batchingSession: Session, sessionMode: nat)

  datatype Family = Tracking | Batching

  datatype Verb = Start | Stop | Update | GetBatched

  // What waits for a response: the subclass of LocationAPIRequest.
  datatype Request = Request(verb: Verb, family: Family)

  // Call is a call on LocationAPI; Answer is the callback of a request; TripReport is the
  // call of mBatchingStatusCallback.
  datatype Output =
    | Call(verb: Verb, family: Family, session: Session)
    | Answer(request: Request, ok: bool)
    | TripReport(ids: seq<Id>)

  datatype Client = Client(dict: Dict<SessionEntity>, requests: seq<Request>)

  type Reaction = Effect<Client, Output>

  // session, in StartSession and UpdateOptions, is what LocationAPI returns if it is asked
  // for a new session. other, in Response, is the request that another queue held for the
  // session of the response.
  datatype Event =
    | StartSession(id: Id, mode: nat, session: Session)
    | StopSession(id: Id)
    | UpdateOptions(id: Id, mode: nat, session: Session)
    | GetBatchedLocations(id: Id)
    | Response(ok: bool, session: Session, other: Option<Request>)
    | BatchingStatus(tripCompleted: bool, sessions: seq<Session>)

  const NO_ENTITY := SessionEntity(0, 0, 0, 0)

  function FamilyOf(mode: nat): Family {
    if mode == SESSION_MODE_ON_FIX then Tracking else Batching
  }

  // The session that the mode selects.
  function Selected(e: SessionEntity): Session {
    if e.sessionMode == SESSION_MODE_ON_FIX then e.trackingSession else e.batchingSession
  }

  function NewEntity(id: Id, mode: nat, session: Session): SessionEntity {
    if mode == SESSION_MODE_ON_FIX then SessionEntity(id, session, 0, mode)
    else SessionEntity(id, 0, session, mode)
  }

  // ---------- The steps, as the code takes them on its three maps ----------

  function OnStart(c: Client, id: Id, mode: nat, session: Session): Reaction {
    if id in c.dict.forward then Effect(c, [])
    else Effect(Client(Set(c.dict, id, session, NewEntity(id, mode, session)),
                       c.requests + [Request(Start, FamilyOf(mode))]),
                [Call(Start, FamilyOf(mode), session)])
  }

  function OnStop(c: Client, id: Id): Reaction {
    if id !in c.dict.forward then Effect(c, [])
    else
      var e := ExtById(c.dict, id, NO_ENTITY);
      Effect(Client(AfterGetExtById(c.dict, id), c.requests + [Request(Stop, FamilyOf(e.sessionMode))]),
             [Call(Stop, FamilyOf(e.sessionMode), Selected(e))])
  }

  // The calls of an option update, and the entity after it.
  function UpdateCalls(e: SessionEntity, mode: nat, session: Session): seq<Output> {
    if mode == SESSION_MODE_ON_FIX then
      if e.sessionMode == SESSION_MODE_ON_FIX then [Call(Update, Tracking, e.trackingSession)]
      else [Call(Stop, Batching, e.batchingSession), Call(Start, Tracking, session)]
    else
      if e.sessionMode == SESSION_MODE_ON_FIX then
        [Call(Stop, Tracking, e.trackingSession), Call(Start, Batching, session)]
      else [Call(Update, Batching, e.batchingSession)]
  }

  function Updated(e: SessionEntity, mode: nat, session: Session): SessionEntity {
    if FamilyOf(mode) == FamilyOf(e.sessionMode) then e.(sessionMode := mode)
    else if mode == SESSION_MODE_ON_FIX then
      e.(trackingSession := session, batchingSession := 0, sessionMode := mode)
    else e.(trackingSession := 0, batchingSession := session, sessionMode := mode)
  }

  function OnUpdate(c: Client, id: Id, mode: nat, session: Session): Reaction {
    if id !in c.dict.forward then Effect(c, [])
    else
      var e := ExtById(c.dict, id, NO_ENTITY);
      var e' := Updated(e, mode, session);
      Effect(Client(Set(RmById(AfterGetExtById(c.dict, id), id), id, Selected(e'), e'),
                    c.requests + [Request(Update, FamilyOf(mode))]),
             UpdateCalls(e, mode, session))
  }

  function OnGetBatched(c: Client, id: Id): Reaction {
    if id !in c.dict.forward then Effect(c, [])
    else
      var e := ExtById(c.dict, id, NO_ENTITY);
      var d := AfterGetExtById(c.dict, id);
      if e.sessionMode == SESSION_MODE_ON_FIX then Effect(c.(dict := d), [])
      else Effect(Client(d, c.requests + [Request(GetBatched, Batching)]),
                  [Call(GetBatched, Batching, e.batchingSession)])
  }

  function RemoveSession(d: Dict<SessionEntity>, session: Session): Dict<SessionEntity> {
    if session in d.backward then RmBySession(d, session) else d
  }

  // A failed start and a successful stop end the session of the response.
  predicate Ends(r: Request, ok: bool) {
    (r.verb == Start && !ok) || (r.verb == Stop && ok)
  }

  // getRequestBySession: whether the queue of the sessions has to answer.
  predicate FromOwnQueue(c: Client, session: Session, other: Option<Request>) {
    other.None? && session in c.dict.backward && c.requests != []
  }

  function OnResponse(c: Client, ok: bool, session: Session, other: Option<Request>): Reaction {
    var request :=
      if FromOwnQueue(c, session, other) then Some(c.requests[0]) else other;
    var requests := if FromOwnQueue(c, session, other) then c.requests[1..] else c.requests;
    if request.None? then Effect(c, [])
    else Effect(Client(if Ends(request.value, ok) then RemoveSession(c.dict, session) else c.dict, requests),
                [Answer(request.value, ok)])
  }

  // One round of beforeBatchingStatusCb after the other.
  function TripLoop(d: Dict<SessionEntity>, sessions: seq<Session>): Effect<Dict<SessionEntity>, Id>
    decreases |sessions|
  {
    if sessions == [] then Effect(d, [])
    else
      var s := sessions[0];
      var e := ExtBySession(d, s, NO_ENTITY);
      if s in d.backward && e.sessionMode == SESSION_MODE_ON_TRIP_COMPLETED then
        var rest := TripLoop(RmBySession(d, s), sessions[1..]);
        Effect(rest.state, [e.id] + rest.out)
      else TripLoop(d, sessions[1..])
  }

  function OnBatchingStatus(c: Client, tripCompleted: bool, sessions: seq<Session>): Reaction {
    if tripCompleted then
      var t := TripLoop(c.dict, sessions);
      Effect(c.(dict := t.state), [TripReport(t.out)])
    else Effect(c, [TripReport([])])
  }

  function React(c: Client, e: Event): Reaction {
    match e
    case StartSession(id, mode, session) => OnStart(c, id, mode, session)
    case StopSession(id) => OnStop(c, id)
    case UpdateOptions(id, mode, session) => OnUpdate(c, id, mode, session)
    case GetBatchedLocations(id) => OnGetBatched(c, id)
    case Response(ok, session, other) => OnResponse(c, ok, session, other)
    case BatchingStatus(tripCompleted, sessions) => OnBatchingStatus(c, tripCompleted, sessions)
  }

  // ---------- One table instead of three maps ----------

  type Table = map<Id, SessionEntity>

  ghost predicate Whole(d: Dict<SessionEntity>) {
    && Inverse(d)
    && 0 !in d.backward
    && forall s | s in d.backward :: d.ext[s] == NewEntity(d.backward[s], d.ext[s].sessionMode, s)
  }

  function TableOf(d: Dict<SessionEntity>): Table {
    map id | id in d.forward && d.forward[id] in d.ext :: d.ext[d.forward[id]]
  }

  // What each event does to the table. ends tells of a response whether it ends its session.
  function TableStep(t: Table, e: Event, ends: bool): Table {
    match e
    case StartSession(id, mode, session) => if id in t then t else t[id := NewEntity(id, mode, session)]
    case StopSession(_) => t
    case UpdateOptions(id, mode, session) =>
      if id !in t then t
      else t[id := NewEntity(id, mode, SessionAfterUpdate(t[id], mode, session))]
    case GetBatchedLocations(_) => t
    case Response(_, session, _) => map id | id in t && (ends ==> Selected(t[id]) != session) :: t[id]
    case BatchingStatus(tripCompleted, sessions) =>
      if tripCompleted then t - OnTripIds(t, sessions) else t
  }

  predicate OnTrip(e: SessionEntity, sessions: seq<Session>) {
    e.sessionMode == SESSION_MODE_ON_TRIP_COMPLETED && Selected(e) in sessions
  }

  // The same client, with a table for its dictionary.
  datatype Simple = Simple(table: Table, requests: seq<Request>)

  function View(c: Client): Simple {
    Simple(TableOf(c.dict), c.requests)
  }

  predicate Answers(s: Simple, e: Event) {
    e.Response? && e.other.None? && s.requests != []
    && exists id | id in s.table :: Selected(s.table[id]) == e.session
  }

  predicate EndsSession(s: Simple, e: Event) {
    e.Response? &&
    if Answers(s, e) then Ends(s.requests[0], e.ok) else e.other.Some? && Ends(e.other.value, e.ok)
  }

  // The requests that an event adds.
  function Asks(t: Table, e: Event): seq<Request> {
    match e
    case StartSession(id, mode, _) => if id in t then [] else [Request(Start, FamilyOf(mode))]
    case StopSession(id) => if id in t then [Request(Stop, FamilyOf(t[id].sessionMode))] else []
    case UpdateOptions(id, mode, _) => if id in t then [Request(Update, FamilyOf(mode))] else []
    case GetBatchedLocations(id) =>
      if id in t && FamilyOf(t[id].sessionMode) == Batching then [Request(GetBatched, Batching)] else []
    case Response(_, _, _) => []
    case BatchingStatus(_, _) => []
  }

  function SimpleStep(s: Simple, e: Event): Simple {
    Simple(TableStep(s.table, e, EndsSession(s, e)),
           (if Answers(s, e) then s.requests[1..] else s.requests) + Asks(s.table, e))
  }

  // A new session is never 0 nor one that the client still holds.
  ghost predicate Fresh(d: Dict<SessionEntity>, e: Event) {
    e.StartSession? || e.UpdateOptions? ==> e.session != 0 && e.session !in d.backward
  }

  lemma SetOnTable(d: Dict<SessionEntity>, id: Id, mode: nat, session: Session)
    requires Whole(d) && id !in d.forward && session != 0 && session !in d.backward
    ensures var d' := Set(d, id, session, NewEntity(id, mode, session));
      Whole(d') && TableOf(d') == TableOf(d)[id := NewEntity(id, mode, session)]
  {
    var d' := Set(d, id, session, NewEntity(id, mode, session));
    SetKeepsInverseIff(d, id, session, NewEntity(id, mode, session));
    assert TableOf(d').Keys == TableOf(d).Keys + {id};
  }

  lemma RemoveOnTable(d: Dict<SessionEntity>, session: Session)
    requires Whole(d) && session in d.backward
    ensures var d' := RmBySession(d, session);
      && Whole(d')
      && TableOf(d') == map id | id in TableOf(d) && Selected(TableOf(d)[id]) != session :: TableOf(d)[id]
  {
    RmBySessionKeepsInverseIff(d, session);
  }

  lemma GetLeavesWholeAlone(d: Dict<SessionEntity>, id: Id)
    requires Whole(d) && id in d.forward
    ensures AfterGetExtById(d, id) == d
    ensures id in TableOf(d) && ExtById(d, id, NO_ENTITY) == TableOf(d)[id]
    ensures Selected(TableOf(d)[id]) == d.forward[id]
    ensures TableOf(d)[id] == NewEntity(id, TableOf(d)[id].sessionMode, d.forward[id])
  {
    assert AfterGetExtById(d, id).forward == d.forward;
  }

  lemma UpdatedEntity(id: Id, was: nat, held: Session, mode: nat, session: Session)
    ensures Updated(NewEntity(id, was, held), mode, session)
            == NewEntity(id, mode, if FamilyOf(mode) == FamilyOf(was) then held else session)
  {}

  lemma RemoveByIdOnTable(d: Dict<SessionEntity>, id: Id)
    requires Whole(d) && id in d.forward
    ensures Whole(RmById(d, id)) && TableOf(RmById(d, id)) == TableOf(d) - {id}
    ensures id !in RmById(d, id).forward
    ensures RmById(d, id).backward == d.backward - {d.forward[id]}
  {
    RemovalTakesOnePair(d, id);
    RemoveOnTable(d, d.forward[id]);
    forall other | other in TableOf(d) ensures Selected(TableOf(d)[other]) == d.forward[id] <==> other == id {
      GetLeavesWholeAlone(d, other);
    }
  }

  lemma RekeyOnTable(d: Dict<SessionEntity>, id: Id, mode: nat, session: Session)
    requires Whole(d) && id in d.forward && session != 0
    requires session == d.forward[id] || session !in d.backward
    ensures var d' := Set(RmById(d, id), id, session, NewEntity(id, mode, session));
      Whole(d') && TableOf(d') == TableOf(d)[id := NewEntity(id, mode, session)]
  {
    RemoveByIdOnTable(d, id);
    SetOnTable(RmById(d, id), id, mode, session);
    Rewritten(TableOf(d), id, NewEntity(id, mode, session));
  }

  lemma Rewritten(t: Table, id: Id, e: SessionEntity)
    ensures (t - {id})[id := e] == t[id := e]
  {}

  // The session that an id has after an option update.
  function SessionAfterUpdate(e: SessionEntity, mode: nat, session: Session): Session {
    if FamilyOf(mode) == FamilyOf(e.sessionMode) then Selected(e) else session
  }

  lemma UpdateIsRekeying(c: Client, id: Id, mode: nat, session: Session)
    requires Whole(c.dict) && id in c.dict.forward
    ensures id in TableOf(c.dict)
    ensures var s := SessionAfterUpdate(TableOf(c.dict)[id], mode, session);
      OnUpdate(c, id, mode, session).state.dict == Set(RmById(c.dict, id), id, s, NewEntity(id, mode, s))
  {
    GetLeavesWholeAlone(c.dict, id);
    UpdatedEntity(id, TableOf(c.dict)[id].sessionMode, c.dict.forward[id], mode, session);
  }

  lemma UpdateOnTable(c: Client, id: Id, mode: nat, session: Session)
    requires Whole(c.dict) && id in c.dict.forward && session != 0 && session !in c.dict.backward
    ensures var d' := OnUpdate(c, id, mode, session).state.dict;
      Whole(d') && TableOf(d') == TableStep(TableOf(c.dict), UpdateOptions(id, mode, session), false)
  {
    UpdateIsRekeying(c, id, mode, session);
    GetLeavesWholeAlone(c.dict, id);
    RekeyOnTable(c.dict, id, mode, SessionAfterUpdate(TableOf(c.dict)[id], mode, session));
  }

  function OnTripIds(t: Table, sessions: seq<Session>): set<Id> {
    set id | id in t && OnTrip(t[id], sessions)
  }

  // One round takes the entry of its session, if that is on a trip.
  lemma TripRound(d: Dict<SessionEntity>, sessions: seq<Session>)
    requires Whole(d) && sessions != []
    ensures var s, t := sessions[0], TableOf(d);
      if s in d.backward && d.ext[s].sessionMode == SESSION_MODE_ON_TRIP_COMPLETED then
        && TableOf(RmBySession(d, s)) == t - {d.backward[s]}
        && OnTripIds(t, sessions) == OnTripIds(t - {d.backward[s]}, sessions[1..]) + {d.backward[s]}
      else OnTripIds(t, sessions) == OnTripIds(t, sessions[1..])
  {
    var s, t := sessions[0], TableOf(d);
    assert sessions == [s] + sessions[1..];
    forall id | id in t ensures Selected(t[id]) == d.forward[id] {
      GetLeavesWholeAlone(d, id);
    }
    assert forall id | id in t :: OnTrip(t[id], sessions) <==>
      OnTrip(t[id], sessions[1..]) || (t[id].sessionMode == SESSION_MODE_ON_TRIP_COMPLETED && Selected(t[id]) == s);
    if s in d.backward {
      RemoveOnTable(d, s);
      assert t[d.backward[s]] == d.ext[s];
    }
  }

  lemma {:induction false} TripOnTable(d: Dict<SessionEntity>, sessions: seq<Session>)
    requires Whole(d)
    ensures var r := TripLoop(d, sessions);
      && Whole(r.state)
      && TableOf(r.state) == TableOf(d) - OnTripIds(TableOf(d), sessions)
      && (forall id :: id in r.out <==> id in OnTripIds(TableOf(d), sessions))
      && (forall i, j | 0 <= i < j < |r.out| :: r.out[i] != r.out[j])
    decreases |sessions|
  {
    if sessions != [] {
      var s, t := sessions[0], TableOf(d);
      TripRound(d, sessions);
      if s in d.backward && d.ext[s].sessionMode == SESSION_MODE_ON_TRIP_COMPLETED {
        var id, removed := d.backward[s], RmBySession(d, s);
        RemoveOnTable(d, s);
        TripOnTable(removed, sessions[1..]);
        var rest := TripLoop(removed, sessions[1..]);
        assert TripLoop(d, sessions).out == [id] + rest.out;
        assert t - {id} - OnTripIds(t - {id}, sessions[1..]) == t - OnTripIds(t, sessions);
      } else {
        TripOnTable(d, sessions[1..]);
      }
    }
  }

  lemma SessionsOfTable(d: Dict<SessionEntity>, session: Session)
    requires Whole(d)
    ensures session in d.backward <==> exists id | id in TableOf(d) :: Selected(TableOf(d)[id]) == session
  {
    if session in d.backward {
      GetLeavesWholeAlone(d, d.backward[session]);
    }
    forall id | id in TableOf(d) ensures Selected(TableOf(d)[id]) in d.backward {
      GetLeavesWholeAlone(d, id);
    }
  }

  lemma RemoveSessionOnTable(d: Dict<SessionEntity>, session: Session)
    requires Whole(d)
    ensures var t, d' := TableOf(d), RemoveSession(d, session);
      && Whole(d')
      && TableOf(d') == map id | id in t && Selected(t[id]) != session :: t[id]
  {
    if session in d.backward {
      RemoveOnTable(d, session);
    } else {
      SessionsOfTable(d, session);
    }
  }

  lemma AnswersFromOwnQueue(c: Client, ok: bool, session: Session, other: Option<Request>)
    requires Whole(c.dict)
    ensures Answers(View(c), Response(ok, session, other)) <==> FromOwnQueue(c, session, other)
  {
    SessionsOfTable(c.dict, session);
  }

  // What becomes of the dictionary of a response that ends its session, or does not.
  lemma ResponseOnTable(d: Dict<SessionEntity>, e: Event, ends: bool)
    requires Whole(d) && e.Response?
    ensures var d' := if ends then RemoveSession(d, e.session) else d;
      Whole(d') && TableOf(d') == TableStep(TableOf(d), e, ends)
  {
    RemoveSessionOnTable(d, e.session);
  }

  lemma ResponseParts(c: Client, ok: bool, session: Session, other: Option<Request>)
    requires Whole(c.dict)
    ensures var e, r := Response(ok, session, other), OnResponse(c, ok, session, other);
      && r.state.dict == (if EndsSession(View(c), e) then RemoveSession(c.dict, session) else c.dict)
      && r.state.requests == if Answers(View(c), e) then c.requests[1..] else c.requests
  {
    AnswersFromOwnQueue(c, ok, session, other);
  }

  lemma ResponseRefinesTable(c: Client, ok: bool, session: Session, other: Option<Request>)
    requires Whole(c.dict)
    ensures var c' := OnResponse(c, ok, session, other).state;
      Whole(c'.dict) && View(c') == SimpleStep(View(c), Response(ok, session, other))
  {
    var e := Response(ok, session, other);
    ResponseParts(c, ok, session, other);
    ResponseOnTable(c.dict, e, EndsSession(View(c), e));
    var left := if Answers(View(c), e) then c.requests[1..] else c.requests;
    assert left + [] == left;
  }

  // Every event does to the three maps what it does to the table.
  lemma StepRefinesTable(c: Client, e: Event)
    requires Whole(c.dict) && Fresh(c.dict, e)
    ensures var c' := React(c, e).state;
      Whole(c'.dict) && View(c') == SimpleStep(View(c), e)
  {
    assert c.requests + [] == c.requests;
    match e
    case StartSession(id, mode, session) =>
      if id !in c.dict.forward { SetOnTable(c.dict, id, mode, session); }
    case StopSession(id) =>
      if id in c.dict.forward { GetLeavesWholeAlone(c.dict, id); }
    case UpdateOptions(id, mode, session) =>
      if id in c.dict.forward { UpdateOnTable(c, id, mode, session); }
    case GetBatchedLocations(id) =>
      if id in c.dict.forward { GetLeavesWholeAlone(c.dict, id); }
    case Response(ok, session, other) => ResponseRefinesTable(c, ok, session, other);
    case BatchingStatus(tripCompleted, sessions) =>
      if tripCompleted { TripOnTable(c.dict, sessions); }
  }

  // ---------- Every run ----------

  const NEW_CLIENT := Client(Dict(map[], map[], map[]), [])

  function Step(c: Client, e: Event): Client {
    React(c, e).state
  }

  ghost predicate AlwaysFresh(c: Client, events: seq<Event>)
    decreases |events|
  {
    events != [] ==> Fresh(c.dict, events[0]) && AlwaysFresh(Step(c, events[0]), events[1..])
  }

  lemma {:induction false} RunRefinesTable(c: Client, events: seq<Event>)
    requires Whole(c.dict) && AlwaysFresh(c, events)
    ensures var c' := RunOf(Step, c, events);
      Whole(c'.dict) && View(c') == RunOf(SimpleStep, View(c), events)
    decreases |events|
  {
    if events != [] {
      StepRefinesTable(c, events[0]);
      RunRefinesTable(Step(c, events[0]), events[1..]);
    }
  }

  // Over every run with new sessions, the three maps are one dictionary whose entries name
  // their own id and session, and act as one table.
  lemma ThreeMapsActAsOneTable(events: seq<Event>)
    requires AlwaysFresh(NEW_CLIENT, events)
    ensures var c := RunOf(Step, NEW_CLIENT, events);
      Whole(c.dict) && View(c) == RunOf(SimpleStep, Simple(map[], []), events)
  {
    assert TableOf(NEW_CLIENT.dict) == map[];
    RunRefinesTable(NEW_CLIENT, events);
  }

  // ---------- Calls go to sessions of their own family ----------

  ghost predicate StartCalled(out: seq<Output>, family: Family, session: Session) {
    Call(Start, family, session) in out
  }

  // Each session in the table was started, by the family that its mode selects.
  ghost predicate Backed(t: Table, out: seq<Output>) {
    forall id | id in t :: StartCalled(out, FamilyOf(t[id].sessionMode), Selected(t[id]))
  }

  ghost predicate Justified(out: seq<Output>) {
    forall k | 0 <= k < |out| && out[k].Call? && out[k].verb != Start ::
      StartCalled(out[..k], out[k].family, out[k].session)
  }

  lemma JustifiedAppend(before: seq<Output>, more: seq<Output>)
    requires Justified(before)
    requires forall o | o in more && o.Call? && o.verb != Start :: StartCalled(before, o.family, o.session)
    ensures Justified(before + more)
  {
    var all := before + more;
    forall k | 0 <= k < |all| && all[k].Call? && all[k].verb != Start
      ensures StartCalled(all[..k], all[k].family, all[k].session)
    {
      if k < |before| {
        assert all[..k] == before[..k];
      } else {
        assert all[k] in more;
        assert all[..k] == before + more[..k - |before|];
      }
    }
  }

  // The start that puts a new session into the table.
  predicate Starts(t: Table, e: Event) {
    match e
    case StartSession(id, _, _) => id !in t
    case UpdateOptions(id, mode, _) => id in t && FamilyOf(mode) != FamilyOf(t[id].sessionMode)
    case StopSession(_) => false
    case GetBatchedLocations(_) => false
    case Response(_, _, _) => false
    case BatchingStatus(_, _) => false
  }

  lemma TableStaysBacked(t: Table, e: Event, ends: bool, before: seq<Output>, out: seq<Output>)
    requires Backed(t, before)
    requires Starts(t, e) ==> StartCalled(out, FamilyOf(e.mode), e.session)
    ensures Backed(TableStep(t, e, ends), before + out)
  {
    var t' := TableStep(t, e, ends);
    forall id | id in t' ensures StartCalled(before + out, FamilyOf(t'[id].sessionMode), Selected(t'[id])) {
      assert ((e.StartSession? || e.UpdateOptions?) && id == e.id) || (id in t && t'[id] == t[id]);
    }
  }

  // Each call of a step but a start is for a session in the table, by its family.
  lemma StepCalls(c: Client, e: Event, before: seq<Output>)
    requires Whole(c.dict) && Backed(TableOf(c.dict), before)
    ensures forall o | o in React(c, e).out && o.Call? && o.verb != Start :: StartCalled(before, o.family, o.session)
    ensures Starts(TableOf(c.dict), e) ==> StartCalled(React(c, e).out, FamilyOf(e.mode), e.session)
  {
    var t, r := TableOf(c.dict), React(c, e);
    if (e.StopSession? || e.UpdateOptions? || e.GetBatchedLocations?) && e.id in c.dict.forward {
      GetLeavesWholeAlone(c.dict, e.id);
      assert StartCalled(before, FamilyOf(t[e.id].sessionMode), Selected(t[e.id]));
    }
    if Starts(t, e) {
      assert r.out[|r.out| - 1] == Call(Start, FamilyOf(e.mode), e.session);
    }
  }

  lemma {:induction false} RunCalls(c: Client, events: seq<Event>, before: seq<Output>)
    requires Whole(c.dict) && AlwaysFresh(c, events) && Backed(TableOf(c.dict), before) && Justified(before)
    ensures Justified(before + Emits(React, c, events).out)
    decreases |events|
  {
    if events == [] {
      assert before + [] == before;
    } else {
      var r := React(c, events[0]);
      StepCalls(c, events[0], before);
      StepRefinesTable(c, events[0]);
      TableStaysBacked(TableOf(c.dict), events[0], EndsSession(View(c), events[0]), before, r.out);
      JustifiedAppend(before, r.out);
      RunCalls(r.state, events[1..], before + r.out);
      Assoc(before, r.out, Emits(React, r.state, events[1..]).out);
    }
  }

  // Every stop, update and fetch is called on a session that LocationAPI was asked to start
  // before, and by the family of calls that started it.
  lemma CallsFollowTheirStart(events: seq<Event>)
    requires AlwaysFresh(NEW_CLIENT, events)
    ensures Justified(Emits(React, NEW_CLIENT, events).out)
  {
    RunCalls(NEW_CLIENT, events, []);
    assert [] + Emits(React, NEW_CLIENT, events).out == Emits(React, NEW_CLIENT, events).out;
  }

  // ---------- What each event puts out ----------

  // Read off the table and the queue of requests. The order of the ids of a trip report is
  // that of the engine.
  ghost predicate PutsOut(s: Simple, e: Event, out: seq<Output>) {
    match e
    case StartSession(id, mode, session) =>
      out == if id in s.table then [] else [Call(Start, FamilyOf(mode), session)]
    case StopSession(id) =>
      out == if id in s.table then [Call(Stop, FamilyOf(s.table[id].sessionMode), Selected(s.table[id]))] else []
    case UpdateOptions(id, mode, session) =>
      if id !in s.table then out == []
      else
        var was := FamilyOf(s.table[id].sessionMode);
        // The old session is stopped before a session of the other family is started.
        out == if FamilyOf(mode) == was then [Call(Update, was, Selected(s.table[id]))]
               else [Call(Stop, was, Selected(s.table[id])), Call(Start, FamilyOf(mode), session)]
    case GetBatchedLocations(id) =>
      out == if id in s.table && FamilyOf(s.table[id].sessionMode) == Batching
             then [Call(GetBatched, Batching, Selected(s.table[id]))] else []
    case Response(ok, session, other) =>
      out == if Answers(s, e) then [Answer(s.requests[0], ok)]
             else if other.Some? then [Answer(other.value, ok)] else []
    case BatchingStatus(tripCompleted, sessions) =>
      && |out| == 1 && out[0].TripReport? && NoDuplicates(out[0].ids)
      && forall id :: id in out[0].ids <==> tripCompleted && id in OnTripIds(s.table, sessions)
  }

  lemma CallsPutOut(c: Client, e: Event)
    requires Whole(c.dict) && !e.Response? && !e.BatchingStatus?
    ensures PutsOut(View(c), e, React(c, e).out)
  {
    if e.id in c.dict.forward {
      GetLeavesWholeAlone(c.dict, e.id);
    }
    assert e.id in TableOf(c.dict) <==> e.id in c.dict.forward;
  }

  lemma ResponsePutsOut(c: Client, e: Event)
    requires Whole(c.dict) && e.Response?
    ensures PutsOut(View(c), e, React(c, e).out)
  {
    AnswersFromOwnQueue(c, e.ok, e.session, e.other);
  }

  lemma TripPutsOut(c: Client, e: Event)
    requires Whole(c.dict) && e.BatchingStatus?
    ensures PutsOut(View(c), e, React(c, e).out)
  {
    TripOnTable(c.dict, e.sessions);
  }

  lemma StepPutsOut(c: Client, e: Event)
    requires Whole(c.dict)
    ensures PutsOut(View(c), e, React(c, e).out)
  {
    if e.Response? {
      ResponsePutsOut(c, e);
    } else if e.BatchingStatus? {
      TripPutsOut(c, e);
    } else {
      CallsPutOut(c, e);
    }
  }

  ghost predicate TellsOfEnd(out: seq<Output>, ok: bool) {
    exists r :: Answer(r, ok) in out && ((r.verb == Start && !ok) || (r.verb == Stop && ok))
  }

  // A response ends its session if and only if it tells the request it answers that a start
  // has failed or that a stop has succeeded.
  lemma ResponseEndsIff(c: Client, e: Event, session: Session)
    requires Whole(c.dict) && e.Response?
    ensures session in Step(c, e).dict.backward <==>
      session in c.dict.backward && !(session == e.session && TellsOfEnd(React(c, e).out, e.ok))
  {
    ResponsePutsOut(c, e);
    var r := React(c, e);
    if r.out != [] {
      assert r.out == [Answer(r.out[0].request, e.ok)];
      assert Answer(r.out[0].request, e.ok) in r.out;
    }
  }

  // After every run with new sessions, the next event does to the table and to the queue what
  // SimpleStep says, and puts out what PutsOut says.
  lemma EveryStepIsAsTabled(events: seq<Event>, e: Event)
    requires AlwaysFresh(NEW_CLIENT, events) && Fresh(RunOf(Step, NEW_CLIENT, events).dict, e)
    ensures var c := RunOf(Step, NEW_CLIENT, events);
      && View(Step(c, e)) == SimpleStep(View(c), e)
      && PutsOut(View(c), e, React(c, e).out)
  {
    ThreeMapsActAsOneTable(events);
    var c := RunOf(Step, NEW_CLIENT, events);
    StepRefinesTable(c, e);
    StepPutsOut(c, e);
  }

  // ---------- No session is lost ----------

  ghost predicate InTable(t: Table, session: Session) {
    exists id :: id in t && Selected(t[id]) == session
  }

  // The sessions that an event ends: by a response, or by the end of a trip.
  function EndedBy(s: Simple, e: Event): set<Session> {
    match e
    case Response(_, session, _) => if EndsSession(s, e) then {session} else {}
    case BatchingStatus(tripCompleted, sessions) =>
      if tripCompleted then set id | id in OnTripIds(s.table, sessions) :: Selected(s.table[id]) else {}
    case StartSession(_, _, _) => {}
    case StopSession(_) => {}
    case UpdateOptions(_, _, _) => {}
    case GetBatchedLocations(_) => {}
  }

  function EndedByRun(s: Simple, events: seq<Event>): set<Session>
    decreases |events|
  {
    if events == [] then {} else EndedBy(s, events[0]) + EndedByRun(SimpleStep(s, events[0]), events[1..])
  }

  ghost predicate StopCalled(out: seq<Output>, session: Session) {
    exists family :: Call(Stop, family, session) in out
  }

  // Each session in the table stays, is stopped, or is ended; and so is each that is started.
  lemma StepLosesNone(c: Client, e: Event, session: Session)
    requires Whole(c.dict) && Fresh(c.dict, e)
    requires InTable(TableOf(c.dict), session) || exists family :: Call(Start, family, session) in React(c, e).out
    ensures || InTable(TableOf(Step(c, e).dict), session) || StopCalled(React(c, e).out, session)
            || session in EndedBy(View(c), e)
  {
    StepRefinesTable(c, e);
    StepPutsOut(c, e);
    var t, t', out := TableOf(c.dict), TableOf(Step(c, e).dict), React(c, e).out;
    if InTable(t, session) {
      var id :| id in t && Selected(t[id]) == session;
      EntryIsNotLost(View(c), e, out, id);
    } else {
      assert e.StartSession? || e.UpdateOptions?;
      assert e.id in t' && Selected(t'[e.id]) == session;
    }
  }

  lemma EntryIsNotLost(s: Simple, e: Event, out: seq<Output>, id: Id)
    requires id in s.table && PutsOut(s, e, out)
    ensures || (id in SimpleStep(s, e).table && Selected(SimpleStep(s, e).table[id]) == Selected(s.table[id]))
            || StopCalled(out, Selected(s.table[id])) || Selected(s.table[id]) in EndedBy(s, e)
  {
    if e.UpdateOptions? && e.id == id && FamilyOf(e.mode) != FamilyOf(s.table[id].sessionMode) {
      assert out[0] == Call(Stop, FamilyOf(s.table[id].sessionMode), Selected(s.table[id]));
    }
  }

  lemma StopStaysCalled(out: seq<Output>, more: seq<Output>, session: Session)
    ensures StopCalled(out, session) || StopCalled(more, session) ==> StopCalled(out + more, session)
  {
    if StopCalled(out, session) {
      var family :| Call(Stop, family, session) in out;
      assert Call(Stop, family, session) in out + more;
    }
    if StopCalled(more, session) {
      var family :| Call(Stop, family, session) in more;
      assert Call(Stop, family, session) in out + more;
    }
  }

  lemma {:induction false} RunLosesNone(c: Client, events: seq<Event>, family: Family, session: Session)
    requires Whole(c.dict) && AlwaysFresh(c, events)
    requires InTable(TableOf(c.dict), session) || Call(Start, family, session) in Emits(React, c, events).out
    ensures var r := Emits(React, c, events);
      || InTable(TableOf(r.state.dict), session) || StopCalled(r.out, session)
      || session in EndedByRun(View(c), events)
    decreases |events|
  {
    if events != [] {
      var e := events[0];
      var r := React(c, e);
      var rest := Emits(React, r.state, events[1..]);
      StepRefinesTable(c, e);
      if InTable(TableOf(c.dict), session) || Call(Start, family, session) in r.out {
        StepLosesNone(c, e, session);
      }
      StopStaysCalled(r.out, rest.out, session);
      if InTable(TableOf(r.state.dict), session) || Call(Start, family, session) in rest.out {
        RunLosesNone(r.state, events[1..], family, session);
      }
    }
  }

  // Over every run with new sessions: every session that was ever started is in the table, or
  // was stopped by a call, or was ended by a response or by the end of a trip.
  lemma NoSessionIsLost(events: seq<Event>, family: Family, session: Session)
    requires AlwaysFresh(NEW_CLIENT, events)
    requires Call(Start, family, session) in Emits(React, NEW_CLIENT, events).out
    ensures var r := Emits(React, NEW_CLIENT, events);
      || InTable(TableOf(r.state.dict), session) || StopCalled(r.out, session)
      || session in EndedByRun(Simple(map[], []), events)
  {
    assert TableOf(NEW_CLIENT.dict) == map[];
    RunLosesNone(NEW_CLIENT, events, family, session);
  }

  // ---------- Between two calls on the dictionary ----------

  // Each call on the dictionary locks it, but a response may remove a session after
  // locAPIStopSession has found the id and before it asks for the entity. Then the id stays
  // behind without a session: it cannot be started, and no response removes it, until its
  // options are updated.
  lemma RemovalInsideStopLeavesTheId(c: Client, id: Id)
    requires Whole(c.dict) && id in c.dict.forward
    ensures var d' := AfterGetExtById(RemoveSession(c.dict, c.dict.forward[id]), id);
      && !Inverse(d')
      && (forall mode, session :: OnStart(c.(dict := d'), id, mode, session) == Effect(c.(dict := d'), []))
      && (forall session :: session != 0 ==> id in RemoveSession(d', session).forward)
      && RemoveSession(d', 0) == d'
  {
    var session := c.dict.forward[id];
    RmBySessionKeepsInverseIff(c.dict, session);
    GetExtByIdKeepsInverseIff(RmBySession(c.dict, session), id);
  }

  // ---------- New sessions ----------

  const LAST_SESSION_ID := 0xFFFF_FFFE

  // generateSessionId on its 32-bit counter.
  function GenerateSessionId(counter: nat): nat {
    var next := (counter + 1) % 0x1_0000_0000;
    if next == 0xFFFF_FFFF then 1 else next
  }

  function Generated(counter: nat, draws: nat): nat {
    if draws == 0 then counter else GenerateSessionId(Generated(counter, draws - 1))
  }

  lemma {:induction false} GeneratedWithinOneCycle(counter: nat, draws: nat)
    requires 1 <= counter <= LAST_SESSION_ID && draws < LAST_SESSION_ID
    ensures Generated(counter, draws) ==
            if counter + draws <= LAST_SESSION_ID then counter + draws else counter + draws - LAST_SESSION_ID
  {
    if draws > 0 {
      GeneratedWithinOneCycle(counter, draws - 1);
    }
  }

  lemma {:induction false} GeneratedGoesOn(counter: nat, i: nat, more: nat)
    requires 1 <= counter <= LAST_SESSION_ID
    ensures 1 <= Generated(counter, i) <= LAST_SESSION_ID
    ensures Generated(counter, i + more) == Generated(Generated(counter, i), more)
    decreases i + more
  {
    if more > 0 {
      GeneratedGoesOn(counter, i, more - 1);
    } else if i > 0 {
      GeneratedGoesOn(counter, i - 1, 0);
    }
  }

  // A session is not 0, and comes again only when more than four billion others were drawn.
  lemma GeneratedIsFresh(counter: nat, i: nat, j: nat)
    requires 1 <= counter <= LAST_SESSION_ID && i < j
    ensures 1 <= Generated(counter, j) <= LAST_SESSION_ID
    ensures j - i < LAST_SESSION_ID ==> Generated(counter, i) != Generated(counter, j)
  {
    GeneratedGoesOn(counter, j, 0);
    GeneratedGoesOn(counter, i, j - i);
    if j - i < LAST_SESSION_ID {
      GeneratedWithinOneCycle(Generated(counter, i), j - i);
    }
  }

  // ---------- The class ----------

  datatype LocationError = Success | GeneralFailure | IdUnknown | NotSupported | AlreadyStarted

  class LocationAPIClientBase {
    const mLocationAPI: bool
    const mSessionBiDict: BiDict<SessionEntity>
    // The queue of the sessions, mRequestQueues[REQUEST_SESSION].
    var mQueue: seq<Request>
    // The calls and callbacks made so far.
    var out: seq<Output>

    ghost function Model(): Client
      reads this, mSessionBiDict
    {
      Client(mSessionBiDict.Model(), mQueue)
    }

    ghost function Now(): Reaction
      reads this, mSessionBiDict
    {
      Effect(Model(), out)
    }

    ghost predicate Valid()
      reads this, mSessionBiDict
    {
      mSessionBiDict.zero == NO_ENTITY
    }

    constructor (hasLocationAPI: bool)
      ensures Valid() && fresh(mSessionBiDict) && mLocationAPI == hasLocationAPI
      ensures Now() == Effect(NEW_CLIENT, [])
    {
      mLocationAPI := hasLocationAPI;
      mSessionBiDict := new BiDict(NO_ENTITY);
      mQueue, out := [], [];
    }

    // session is what LocationAPI returns when it is asked for a new session.
    method StartSession(id: Id, sessionMode: nat, session: Session) returns (retVal: LocationError)
      requires Valid()
      modifies this, mSessionBiDict
      ensures Valid()
      ensures Now() == if !mLocationAPI then old(Now())
                       else Onto(old(out), OnStart(old(Model()), id, sessionMode, session))
      ensures retVal == if !mLocationAPI then GeneralFailure
                        else if id in old(Model()).dict.forward then AlreadyStarted else Success
    {
      retVal := GeneralFailure;
      if mLocationAPI {
        var started := mSessionBiDict.HasId(id);
        if started {
          retVal := AlreadyStarted;
        } else {
          var trackingSession, batchingSession := 0, 0;
          if sessionMode == SESSION_MODE_ON_FIX {
            trackingSession := session;
            out := out + [Call(Start, Tracking, session)];
            mQueue := mQueue + [Request(Start, Tracking)];
          } else {
            batchingSession := session;
            out := out + [Call(Start, Batching, session)];
            mQueue := mQueue + [Request(Start, Batching)];
          }
          var key := if sessionMode != SESSION_MODE_ON_FIX then batchingSession else trackingSession;
          mSessionBiDict.SetEntry(id, key, SessionEntity(id, trackingSession, batchingSession, sessionMode));
          retVal := Success;
        }
      }
    }

    method StopSession(id: Id) returns (retVal: LocationError)
      requires Valid()
      modifies this, mSessionBiDict
      ensures Valid()
      ensures Now() == if mLocationAPI then Onto(old(out), OnStop(old(Model()), id)) else old(Now())
      ensures retVal == if !mLocationAPI then GeneralFailure
                        else if id in old(Model()).dict.forward then Success else IdUnknown
    {
      retVal := GeneralFailure;
      if mLocationAPI {
        var started := mSessionBiDict.HasId(id);
        if started {
          var entity := mSessionBiDict.GetExtById(id);
          if entity.sessionMode == SESSION_MODE_ON_FIX {
            mQueue := mQueue + [Request(Stop, Tracking)];
            out := out + [Call(Stop, Tracking, entity.trackingSession)];
          } else {
            mQueue := mQueue + [Request(Stop, Batching)];
            out := out + [Call(Stop, Batching, entity.batchingSession)];
          }
          retVal := Success;
        } else {
          retVal := IdUnknown;
        }
      }
    }

    method UpdateSessionOptions(id: Id, sessionMode: nat, session: Session) returns (retVal: LocationError)
      requires Valid()
      modifies this, mSessionBiDict
      ensures Valid()
      ensures Now() == if !mLocationAPI then old(Now())
                       else Onto(old(out), OnUpdate(old(Model()), id, sessionMode, session))
      ensures retVal == if !mLocationAPI then GeneralFailure
                        else if id in old(Model()).dict.forward then Success else IdUnknown
    {
      retVal := GeneralFailure;
      if mLocationAPI {
        var started := mSessionBiDict.HasId(id);
        if started {
          var entity := mSessionBiDict.GetExtById(id);
          var trackingSession, batchingSession := entity.trackingSession, entity.batchingSession;
          var sMode := entity.sessionMode;
          if sessionMode == SESSION_MODE_ON_FIX {
            mQueue := mQueue + [Request(Update, Tracking)];
            if sMode == SESSION_MODE_ON_FIX {
              out := out + [Call(Update, Tracking, trackingSession)];
            } else {
              out := out + [Call(Stop, Batching, batchingSession), Call(Start, Tracking, session)];
              batchingSession := 0;
              trackingSession := session;
            }
          } else {
            mQueue := mQueue + [Request(Update, Batching)];
            if sMode == SESSION_MODE_ON_FIX {
              out := out + [Call(Stop, Tracking, trackingSession), Call(Start, Batching, session)];
              trackingSession := 0;
              batchingSession := session;
            } else {
              out := out + [Call(Update, Batching, batchingSession)];
            }
          }
          var key := if sessionMode != SESSION_MODE_ON_FIX then batchingSession else trackingSession;
          entity := entity.(trackingSession := trackingSession, batchingSession := batchingSession,
                            sessionMode := sessionMode);
          mSessionBiDict.RemoveById(id);
          mSessionBiDict.SetEntry(id, key, entity);
          retVal := Success;
        } else {
          retVal := IdUnknown;
        }
      }
    }

    method GetBatchedLocations(id: Id) returns (retVal: LocationError)
      requires Valid()
      modifies this, mSessionBiDict
      ensures Valid()
      ensures Now() == if mLocationAPI then Onto(old(out), OnGetBatched(old(Model()), id)) else old(Now())
      ensures retVal == if !mLocationAPI then GeneralFailure
                        else if id !in old(Model()).dict.forward then IdUnknown
                        else if FamilyOf(ExtById(old(Model()).dict, id, NO_ENTITY).sessionMode) == Tracking
                             then NotSupported
                        else Success
    {
      retVal := GeneralFailure;
      if mLocationAPI {
        var started := mSessionBiDict.HasId(id);
        if started {
          var entity := mSessionBiDict.GetExtById(id);
          if entity.sessionMode != SESSION_MODE_ON_FIX {
            mQueue := mQueue + [Request(GetBatched, Batching)];
            out := out + [Call(GetBatched, Batching, entity.batchingSession)];
            retVal := Success;
          } else {
            retVal := NotSupported;
          }
        } else {
          retVal := IdUnknown;
        }
      }
    }

    method RemoveSessionOf(session: Session)
      modifies mSessionBiDict
      ensures mSessionBiDict.Model() == RemoveSession(old(mSessionBiDict.Model()), session)
    {
      var has := mSessionBiDict.HasSession(session);
      if has {
        mSessionBiDict.RemoveBySession(session);
      }
    }

    // getRequestBySession, after the other queues were asked.
    method RequestBySession(session: Session, other: Option<Request>) returns (request: Option<Request>)
      modifies `mQueue
      ensures var own := FromOwnQueue(old(Model()), session, other);
        && request == (if own then Some(old(mQueue)[0]) else other)
        && mQueue == if own then old(mQueue)[1..] else old(mQueue)
    {
      request := other;
      if request.None? {
        var has := mSessionBiDict.HasSession(session);
        if has && mQueue != [] {
          request := Some(mQueue[0]);
          mQueue := mQueue[1..];
        }
      }
    }

    method OnResponseCb(ok: bool, session: Session, other: Option<Request>)
      requires Valid()
      modifies this, mSessionBiDict
      ensures Valid()
      ensures Now() == Onto(old(out), OnResponse(old(Model()), ok, session, other))
    {
      var request := RequestBySession(session, other);
      if request.Some? {
        if (request.value.verb == Start && !ok) || (request.value.verb == Stop && ok) {
          RemoveSessionOf(session);
        }
        out := out + [Answer(request.value, ok)];
      }
    }

    method BeforeBatchingStatusCb(tripCompleted: bool, sessions: seq<Session>)
      requires Valid()
      modifies this, mSessionBiDict
      ensures Valid()
      ensures Now() == Onto(old(out), OnBatchingStatus(old(Model()), tripCompleted, sessions))
    {
      var ids: seq<Id> := [];
      if tripCompleted {
        var n := 0;
        while n < |sessions|
          invariant n <= |sessions| && mSessionBiDict.zero == NO_ENTITY
          invariant mQueue == old(mQueue) && out == old(out)
          invariant Onto(ids, TripLoop(mSessionBiDict.Model(), sessions[n..]))
                    == TripLoop(old(Model()).dict, sessions)
        {
          var session := sessions[n];
          assert sessions[n..][0] == session && sessions[n..][1..] == sessions[n + 1..];
          ghost var d, was := mSessionBiDict.Model(), ids;
          var has := mSessionBiDict.HasSession(session);
          if has {
            var entity := mSessionBiDict.GetExtBySession(session);
            if entity.sessionMode == SESSION_MODE_ON_TRIP_COMPLETED {
              ids := ids + [entity.id];
              mSessionBiDict.RemoveBySession(session);
              Assoc(was, [entity.id], TripLoop(mSessionBiDict.Model(), sessions[n + 1..]).out);
            }
          }
          n := n + 1;
        }
        assert ids + [] == ids;
      }
      out := out + [TripReport(ids)];
    }
  }
}
