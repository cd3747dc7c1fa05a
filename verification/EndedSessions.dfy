/** Sessions that have ended, and come back. An update of a client's options copies the entity
    of a session, removes the entry and stores the copy; a response or a trip report that ends
    the session in between is forgotten. That is the only way back. */
module EndedSessions {

  import opened Runs
  import opened Wrappers
  import opened SessionDict
  import opened ClientSessions
  import opened ClientRaces

  // issued: the sessions that LocationAPI has returned. ended: those that a callback has
  // removed, or found removed. lost: the session in the copy of the update under way has
  // ended since the copy was made.
  datatype Watched = Watched(state: State, issued: set<Session>, ended: set<Session>, lost: bool)

  predicate HasCopy(s: State) {
    s.api.Got? || s.api.Gone?
  }

  function Watch(w: Watched, a: Action): Watched {
    var s, s' := w.state, Try(w.state, a);
    var ends := a.RemoveFound? && Enabled(s, a);
    Watched(s',
            if Draws(s, a) then w.issued + {a.session} else w.issued,
            if ends then w.ended + {a.session} else w.ended,
            if ends then w.lost || (HasCopy(s) && Selected(s.api.entity) == a.session)
            else if a.GoOn? && s.api.Present? then false else w.lost)
  }

  // A session is issued once.
  ghost predicate NewFor(w: Watched, a: Action) {
    Draws(w.state, a) ==> a.session != 0 && a.session !in w.issued
  }

  // The copy is stored although its session has ended meanwhile.
  predicate StoresLost(w: Watched, a: Action) {
    a.GoOn? && w.state.api.Gone? && w.lost
  }

  ghost predicate EndedStayOut(w: Watched) {
    w.ended !! w.state.dict.backward.Keys
  }

  // ---------- One step ----------

  ghost predicate Consistent(w: Watched) {
    && Ok(w.state) && EndedStayOut(w)
    && w.state.dict.backward.Keys <= w.issued && w.ended <= w.issued
    && (forall x | x in w.state.callbacks :: x in w.issued)
    && (HasCopy(w.state) ==>
          && Selected(w.state.api.entity) in w.issued
          && (w.lost <==> Selected(w.state.api.entity) in w.ended))
  }

  lemma NewIsFresh(w: Watched, a: Action)
    requires Consistent(w) && NewFor(w, a)
    ensures FreshFor(w.state, a)
  {}

  lemma BeginStep(w: Watched, a: Action)
    requires Consistent(w) && (a.BeginStart? || a.BeginOther? || a.FindSession?)
    ensures Consistent(Watch(w, a))
  {
    StepKeepsWholeIff(w.state, a);
  }

  lemma EndStep(w: Watched, a: Action)
    requires Consistent(w) && a.RemoveFound? && !Misses(w.state, a)
    ensures Consistent(Watch(w, a))
  {
    StepKeepsWholeIff(w.state, a);
    if Enabled(w.state, a) {
      RemovedIsOut(w.state.dict, a.session);
    }
  }

  lemma RemovedIsOut(d: Dict<SessionEntity>, session: Session)
    ensures RmBySession(d, session).backward.Keys == d.backward.Keys - {session}
  {}

  lemma StartStep(w: Watched, a: Action)
    requires Consistent(w) && NewFor(w, a) && a.GoOn? && w.state.api.Absent?
    ensures Consistent(Watch(w, a))
  {
    NewIsFresh(w, a);
    StepKeepsWholeIff(w.state, a);
  }

  // The copy of an update names the session of the entry, or a new one.
  lemma CopyStep(w: Watched, a: Action)
    requires Consistent(w) && NewFor(w, a) && a.GoOn? && w.state.api.Present? && !Misses(w.state, a)
    ensures Consistent(Watch(w, a))
  {
    NewIsFresh(w, a);
    StepKeepsWholeIff(w.state, a);
    GetLeavesWholeAlone(w.state.dict, w.state.api.id);
  }

  lemma DropStep(w: Watched, a: Action)
    requires Consistent(w) && a.GoOn? && w.state.api.Got?
    ensures Consistent(Watch(w, a))
  {
    StepKeepsWholeIff(w.state, a);
  }

  lemma StoreStep(w: Watched, a: Action)
    requires Consistent(w) && a.GoOn? && w.state.api.Gone?
    ensures EndedStayOut(Watch(w, a)) <==> !w.lost
    ensures !w.lost ==> Consistent(Watch(w, a))
  {
    StepKeepsWholeIff(w.state, a);
    assert Selected(w.state.api.entity) in Watch(w, a).state.dict.backward;
  }

  lemma StepKeepsEndedOutIff(w: Watched, a: Action)
    requires Consistent(w) && NewFor(w, a) && !Misses(w.state, a)
    ensures EndedStayOut(Watch(w, a)) <==> !StoresLost(w, a)
    ensures !StoresLost(w, a) ==> Consistent(Watch(w, a))
  {
    if a.RemoveFound? {
      EndStep(w, a);
    } else if !a.GoOn? {
      BeginStep(w, a);
    } else {
      match w.state.api
      case Idle =>
      case Absent(_, _) => StartStep(w, a);
      case Present(_, _) => CopyStep(w, a);
      case Got(_, _) => DropStep(w, a);
      case Gone(_, _) => StoreStep(w, a);
    }
  }

  // ---------- Every interleaving ----------

  const START := Watched(INIT, {}, {}, false)

  ghost predicate AllNew(w: Watched, actions: seq<Action>)
    decreases |actions|
  {
    actions != [] ==> NewFor(w, actions[0]) && AllNew(Watch(w, actions[0]), actions[1..])
  }

  ghost predicate EndedAlwaysOut(w: Watched, actions: seq<Action>)
    decreases |actions|
  {
    EndedStayOut(w) && (actions != [] ==> EndedAlwaysOut(Watch(w, actions[0]), actions[1..]))
  }

  predicate NeverStoresLost(w: Watched, actions: seq<Action>)
    decreases |actions|
  {
    actions != [] ==> !StoresLost(w, actions[0]) && NeverStoresLost(Watch(w, actions[0]), actions[1..])
  }

  lemma {:induction false} RunEndedOutIff(w: Watched, actions: seq<Action>)
    requires Consistent(w) && AllNew(w, actions) && NeverMisses(w.state, actions)
    ensures EndedAlwaysOut(w, actions) <==> NeverStoresLost(w, actions)
    decreases |actions|
  {
    if actions != [] {
      StepKeepsEndedOutIff(w, actions[0]);
      if !StoresLost(w, actions[0]) {
        RunEndedOutIff(Watch(w, actions[0]), actions[1..]);
      }
    }
  }

  // In every interleaving in which sessions are issued once and nothing is missed: no ended
  // session is in the dictionary after any call on it, if and only if no update stores a
  // copy whose session has ended since the copy was made.
  lemma EndedSessionsStayOutIff(actions: seq<Action>)
    requires AllNew(START, actions) && NeverMisses(INIT, actions)
    ensures EndedAlwaysOut(START, actions) <==> NeverStoresLost(START, actions)
  {
    RunEndedOutIff(START, actions);
  }

  // ---------- A session that comes back ----------

  // Client id 7 starts batching with session 5 and updates its options. The session ends
  // between the copy of its entity and the removal of its entry.
  const STARTED := [BeginStart(7, SESSION_MODE_ON_FULL), GoOn(5)]
  const COPIED := [BeginOther(7, Some(SESSION_MODE_ON_FULL)), GoOn(6)]
  const ENDED := [FindSession(5), RemoveFound(5)]
  const STORED := [GoOn(6), GoOn(6)]

  const ENTITY := NewEntity(7, SESSION_MODE_ON_FULL, 5)
  const STORED_DICT := Dict(map[7 := 5], map[5 := 7], map[5 := ENTITY])
  const NOTHING: Dict<SessionEntity> := Dict(map[], map[], map[])

  // The session is ended, and out of the dictionary; and then it is back.
  lemma EndedSessionComesBack()
    ensures var w3 := RunOf(Watch, START, STARTED + COPIED + ENDED);
      var w4 := RunOf(Watch, START, STARTED + COPIED + ENDED + STORED);
      && 5 !in w3.state.dict.backward && w3.ended == {5}
      && w4.state == State(STORED_DICT, Idle, multiset{}) && w4.ended == {5}
    ensures Proper(START, STARTED + COPIED + ENDED + STORED)
  {
    RunStarted();
    RunCopied();
    RunEnded();
    RunStored();
    ProperAppend(START, STARTED, COPIED);
    ProperAppend(START, STARTED + COPIED, ENDED);
    ProperAppend(START, STARTED + COPIED + ENDED, STORED);
  }

  // Sessions are issued once, and nothing is missed.
  ghost predicate Proper(w: Watched, actions: seq<Action>) {
    AllNew(w, actions) && NeverMisses(w.state, actions)
  }

  lemma {:induction false} ProperAppend(w: Watched, a: seq<Action>, b: seq<Action>)
    requires Proper(w, a) && Proper(RunOf(Watch, w, a), b)
    ensures Proper(w, a + b) && RunOf(Watch, w, a + b) == RunOf(Watch, RunOf(Watch, w, a), b)
    decreases |a|
  {
    if a == [] {
      assert a + b == b;
    } else {
      assert (a + b)[0] == a[0] && (a + b)[1..] == a[1..] + b;
      ProperAppend(Watch(w, a[0]), a[1..], b);
    }
  }

  lemma TwoSteps(w: Watched, actions: seq<Action>)
    requires |actions| == 2
    ensures RunOf(Watch, w, actions) == Watch(Watch(w, actions[0]), actions[1])
    ensures var w' := Watch(w, actions[0]);
      NewFor(w, actions[0]) && NewFor(w', actions[1]) && !Misses(w.state, actions[0]) && !Misses(w'.state, actions[1])
      ==> Proper(w, actions)
  {
    var w' := Watch(w, actions[0]);
    assert AllNew(Watch(w', actions[1]), []) && NeverMisses(Watch(w', actions[1]).state, []);
    assert AllNew(w', [actions[1]]) <==> NewFor(w', actions[1]);
    assert NeverMisses(w'.state, [actions[1]]) <==> !Misses(w'.state, actions[1]);
    assert actions[1..] == [actions[1]];
    RunOne(Watch, w, actions);
    RunOne(Watch, w', actions[1..]);
    assert actions[1..][0] == actions[1] && actions[1..][1..] == [];
  }

  lemma RunStarted()
    ensures RunOf(Watch, START, STARTED) == Watched(State(STORED_DICT, Idle, multiset{}), {5}, {}, false)
    ensures Proper(START, STARTED)
  {
    TwoSteps(START, STARTED);
    var w := Watch(START, STARTED[0]);
    assert w == START.(state := INIT.(api := Absent(7, SESSION_MODE_ON_FULL)));
    assert Continue(w.state, 5) == State(STORED_DICT, Idle, multiset{});
  }

  lemma RunCopied()
    ensures var w := Watched(State(STORED_DICT, Idle, multiset{}), {5}, {}, false);
      RunOf(Watch, w, COPIED) == w.(state := w.state.(api := Got(7, ENTITY))) && Proper(w, COPIED)
  {
    var w := Watched(State(STORED_DICT, Idle, multiset{}), {5}, {}, false);
    TwoSteps(w, COPIED);
    var w' := Watch(w, COPIED[0]);
    assert w' == w.(state := w.state.(api := Present(7, Some(SESSION_MODE_ON_FULL))));
    assert AfterGetExtById(STORED_DICT, 7) == STORED_DICT;
  }

  lemma RunEnded()
    ensures var w := Watched(State(STORED_DICT, Got(7, ENTITY), multiset{}), {5}, {}, false);
      RunOf(Watch, w, ENDED) == Watched(State(NOTHING, Got(7, ENTITY), multiset{}), {5}, {5}, true) && Proper(w, ENDED)
  {
    var w := Watched(State(STORED_DICT, Got(7, ENTITY), multiset{}), {5}, {}, false);
    TwoSteps(w, ENDED);
    var w' := Watch(w, ENDED[0]);
    assert w' == w.(state := w.state.(callbacks := multiset{5}));
    assert RmBySession(STORED_DICT, 5) == NOTHING;
  }

  lemma RunStored()
    ensures var w := Watched(State(NOTHING, Got(7, ENTITY), multiset{}), {5}, {5}, true);
      RunOf(Watch, w, STORED) == Watched(State(STORED_DICT, Idle, multiset{}), {5}, {5}, true) && Proper(w, STORED)
  {
    var w := Watched(State(NOTHING, Got(7, ENTITY), multiset{}), {5}, {5}, true);
    TwoSteps(w, STORED);
    var w' := Watch(w, STORED[0]);
    assert w' == w.(state := w.state.(api := Gone(7, ENTITY)));
    assert Set(NOTHING, 7, 5, ENTITY) == STORED_DICT;
  }
}
