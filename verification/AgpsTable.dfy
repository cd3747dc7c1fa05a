/** A second account of the AGPS machines of Agps.dfy, read off per subscriber and per kind of
    output instead of per procedure: what becomes of each subscriber on the list, what state
    follows, and how often each possible output is made. */
module AgpsTable {

  import opened Runs
  import opened Wrappers
  import opened Agps
  import opened AgpsSafety

  // ---------- The list ----------

  predicate IsClose(i: Input) {
    i.Lost? || i.Denied?
  }

  // A machine that asked for a connection is told that there is none. The base machine
  // takes only a denial for that.
  predicate Refuses(m: Machine, i: Input) {
    m.state == Pending && (i.Denied? || (i.Lost? && m.isDs))
  }

  // What becomes of a subscriber.
  function FateOf(m: Machine, i: Input, s: Subscriber): Option<Subscriber> {
    if i.Drop? || Refuses(m, i) || (i.Lost? && m.state == Acquired) then None
    else if IsClose(i) && m.state == Releasing && s.inactive then None
    else if i.Quit? && i.handle == s.handle && m.state != Released then
      if s.waitForClose then Some(s.(inactive := true)) else None
    else Some(s)
  }

  function Survivors(m: Machine, i: Input, subs: seq<Subscriber>): seq<Subscriber> {
    if subs == [] then []
    else
      var rest := Survivors(m, i, subs[1..]);
      if FateOf(m, i, subs[0]).Some? then [FateOf(m, i, subs[0]).value] + rest else rest
  }

  function Newcomer(m: Machine, i: Input): seq<Subscriber> {
    if i.Request? && !Has(m.subscribers, i.handle) then [Subscriber(i.handle, i.waitForClose, false)] else []
  }

  predicate Has(subs: seq<Subscriber>, h: int) {
    exists k :: 0 <= k < |subs| && subs[k].handle == h
  }

  predicate HasInactive(subs: seq<Subscriber>, h: int) {
    exists k :: 0 <= k < |subs| && subs[k].handle == h && subs[k].inactive
  }

  predicate HasActive(subs: seq<Subscriber>, h: int) {
    exists k :: 0 <= k < |subs| && subs[k].handle == h && !subs[k].inactive
  }

  predicate HasWaiting(subs: seq<Subscriber>, h: int) {
    exists k :: 0 <= k < |subs| && subs[k].handle == h && subs[k].waitForClose
  }

  predicate OtherActive(subs: seq<Subscriber>, h: int) {
    exists k :: 0 <= k < |subs| && subs[k].handle != h && !subs[k].inactive
  }

  predicate Other(subs: seq<Subscriber>, h: int) {
    exists k :: 0 <= k < |subs| && subs[k].handle != h
  }

  predicate SomeActive(subs: seq<Subscriber>) {
    exists k :: 0 <= k < |subs| && !subs[k].inactive
  }

  lemma ListedIsHas(subs: seq<Subscriber>, h: int)
    ensures Listed(subs, h) <==> Has(subs, h)
  {}

  lemma AnyActiveIsSomeActive(subs: seq<Subscriber>)
    ensures AnyActive(subs) <==> SomeActive(subs)
  {}

  lemma {:induction false} AllSurvive(m: Machine, i: Input, subs: seq<Subscriber>)
    requires forall s | s in subs :: FateOf(m, i, s) == Some(s)
    ensures Survivors(m, i, subs) == subs
  {
    if subs != [] {
      AllSurvive(m, i, subs[1..]);
      assert subs[0] in subs && subs == [subs[0]] + subs[1..];
    }
  }

  lemma {:induction false} NoneSurvives(m: Machine, i: Input, subs: seq<Subscriber>)
    requires forall s | s in subs :: FateOf(m, i, s).None?
    ensures Survivors(m, i, subs) == []
  {
    if subs != [] {
      NoneSurvives(m, i, subs[1..]);
      assert subs[0] in subs;
    }
  }

  lemma {:induction false} SparedSurvive(m: Machine, i: Input, subs: seq<Subscriber>)
    requires IsClose(i) && m.state == Releasing
    ensures Spared(subs, Inactives) == Survivors(m, i, subs)
  {
    if subs != [] {
      SparedSurvive(m, i, subs[1..]);
    }
  }

  lemma {:induction false} DeletedSurvive(m: Machine, h: int, env: Env, subs: seq<Subscriber>)
    requires m.state != Released && forall s | s in subs && s.handle == h :: !s.waitForClose
    ensures Deleted(subs, h) == Survivors(m, Quit(h, env), subs)
  {
    if subs != [] {
      assert subs[0] in subs;
      DeletedSurvive(m, h, env, subs[1..]);
    }
  }

  lemma {:induction false} DeactivatedSurvive(m: Machine, h: int, env: Env, subs: seq<Subscriber>)
    requires m.state != Released && Unique(subs) && Listed(subs, h) && subs[IndexOf(subs, h)].waitForClose
    ensures Deactivated(subs, h) == Survivors(m, Quit(h, env), subs)
  {
    var i, rest := Quit(h, env), subs[1..];
    if subs[0].handle == h {
      assert forall s | s in rest :: s.handle != h;
      AllSurvive(m, i, rest);
    } else {
      ListedIsHas(subs, h);
      DeactivatedSurvive(m, h, env, rest);
      assert Deactivated(subs, h) == [subs[0]] + Deactivated(rest, h);
    }
  }

  lemma LeaveSurvive(m: Machine, h: int, env: Env)
    requires m.state != Released && Unique(m.subscribers) && Listed(m.subscribers, h)
    ensures Leave(m, h).state.subscribers == Survivors(m, Quit(h, env), m.subscribers)
  {
    var subs := m.subscribers;
    if subs[IndexOf(subs, h)].waitForClose {
      DeactivatedSurvive(m, h, env, subs);
    } else {
      forall s | s in subs && s.handle == h ensures !s.waitForClose {
        SameHandle(subs, s, h);
      }
      DeletedSurvive(m, h, env, subs);
    }
  }

  // The list after every event: the survivors in their order, and behind them a newcomer.
  lemma ListIsAsTabled(m: Machine, i: Input)
    requires Unique(m.subscribers)
    ensures React(m, i).state.subscribers == Survivors(m, i, m.subscribers) + Newcomer(m, i)
  {
    assert Survivors(m, i, m.subscribers) + [] == Survivors(m, i, m.subscribers);
    if i.Request? {
      RequestListIsAsTabled(m, i);
    } else if i.Quit? {
      QuitListIsAsTabled(m, i.handle, i.env);
    } else if IsClose(i) {
      CloseListIsAsTabled(m, i);
    } else if i.Drop? {
      NoneSurvives(m, i, m.subscribers);
    } else {
      QuietListIsAsTabled(m, i);
    }
  }

  lemma RequestListIsAsTabled(m: Machine, i: Input)
    requires i.Request?
    ensures React(m, i).state.subscribers == Survivors(m, i, m.subscribers) + Newcomer(m, i)
  {
    AllSurvive(m, i, m.subscribers);
    ListedIsHas(m.subscribers, i.handle);
    var s := Subscriber(i.handle, i.waitForClose, false);
    ConnectKeepsList(m.(subscribers := Added(m.subscribers, s)), true, i.env);
    assert Added(m.subscribers, s) == m.subscribers + Newcomer(m, i);
  }

  lemma ConnectKeepsList(m: Machine, request: bool, env: Env)
    ensures Connect(m, request, env).reaction.state.subscribers == m.subscribers
  {}

  lemma QuietListIsAsTabled(m: Machine, i: Input)
    requires i.Granted? || i.Retry?
    ensures React(m, i).state.subscribers == Survivors(m, i, m.subscribers)
  {
    AllSurvive(m, i, m.subscribers);
  }

  lemma QuitListIsAsTabled(m: Machine, h: int, env: Env)
    requires Unique(m.subscribers)
    ensures React(m, Quit(h, env)).state.subscribers == Survivors(m, Quit(h, env), m.subscribers)
  {
    var subs := m.subscribers;
    if !Listed(subs, h) || m.state == Released {
      ListedIsHas(subs, h);
      AllSurvive(m, Quit(h, env), subs);
    } else {
      LeaveSurvive(m, h, env);
    }
  }

  lemma CloseListIsAsTabled(m: Machine, i: Input)
    requires IsClose(i)
    ensures React(m, i).state.subscribers == Survivors(m, i, m.subscribers)
  {
    var subs := m.subscribers;
    SparedByAll(subs);
    if m.state == Releasing {
      SparedSurvive(m, i, subs);
      ClosedSubscribers(m, i.env);
    } else if Refuses(m, i) || (i.Lost? && m.state == Acquired) {
      NoneSurvives(m, i, subs);
    } else {
      AllSurvive(m, i, subs);
    }
  }

  // ---------- The state ----------

  function ListAfter(m: Machine, i: Input): seq<Subscriber> {
    Survivors(m, i, m.subscribers) + Newcomer(m, i)
  }

  predicate Leaves(m: Machine, i: Input) {
    i.Quit? && Has(m.subscribers, i.handle)
  }

  // A subscriber that leaves and takes the last interest in the connection with it.
  predicate LetsGo(m: Machine, i: Input) {
    Leaves(m, i) && (m.state == Pending || m.state == Acquired) && !OtherActive(m.subscribers, i.handle)
  }

  predicate LeavesNobody(m: Machine, i: Input) {
    Leaves(m, i) && !Other(m.subscribers, i.handle) && !HasWaiting(m.subscribers, i.handle)
  }

  // The connection is closed while somebody waits for a new one.
  predicate Reopens(m: Machine, i: Input) {
    IsClose(i) && m.state == Releasing && SomeActive(m.subscribers)
  }

  // The set-up of a connection is under way: with the framework at once, with the
  // data-service client if that takes the call.
  predicate SetUpGoesOn(m: Machine, i: Input)
    requires i.Request?
  {
    !m.isDs || (SomeActive(ListAfter(m, i)) && i.env.hasStart && i.env.answer == Success)
  }

  function StateAfter(m: Machine, i: Input): AgpsState {
    if i.Request? && m.state == Released && SetUpGoesOn(m, i) then Pending
    else if i.Granted? && m.state == Pending then Acquired
    else if Refuses(m, i) || (i.Lost? && m.state == Acquired) then Released
    else if IsClose(i) && m.state == Releasing then if Reopens(m, i) then Pending else Released
    else if LetsGo(m, i) then if LeavesNobody(m, i) then Released else Releasing
    else if m.state == Releasing && LeavesNobody(m, i) then Released
    else m.state
  }

  lemma {:induction false} SurvivorsOf(m: Machine, i: Input, subs: seq<Subscriber>)
    ensures forall x :: x in Survivors(m, i, subs) <==> exists s :: s in subs && FateOf(m, i, s) == Some(x)
  {
    if subs != [] {
      SurvivorsOf(m, i, subs[1..]);
      assert subs == [subs[0]] + subs[1..];
    }
  }

  lemma HasIsMembership(subs: seq<Subscriber>, h: int)
    ensures Other(subs, h) <==> exists s :: s in subs && s.handle != h
    ensures OtherActive(subs, h) <==> exists s :: s in subs && s.handle != h && !s.inactive
    ensures HasWaiting(subs, h) <==> exists s :: s in subs && s.handle == h && s.waitForClose
    ensures SomeActive(subs) <==> exists s :: s in subs && !s.inactive
  {}

  // Who is left when one subscriber quits.
  lemma LeftByQuit(m: Machine, h: int, env: Env)
    requires m.state != Released
    ensures var left := Survivors(m, Quit(h, env), m.subscribers);
      && (SomeActive(left) <==> OtherActive(m.subscribers, h))
      && (left == [] <==> !Other(m.subscribers, h) && !HasWaiting(m.subscribers, h))
  {
    var i, subs := Quit(h, env), m.subscribers;
    var left := Survivors(m, i, subs);
    SurvivorsOf(m, i, subs);
    HasIsMembership(subs, h);
    HasIsMembership(left, h);
    if OtherActive(subs, h) {
      var s :| s in subs && s.handle != h && !s.inactive;
      assert FateOf(m, i, s) == Some(s);
    }
    if Other(subs, h) {
      var s :| s in subs && s.handle != h;
      assert FateOf(m, i, s) == Some(s);
    }
    if HasWaiting(subs, h) {
      var s :| s in subs && s.handle == h && s.waitForClose;
      assert FateOf(m, i, s) == Some(s.(inactive := true));
    }
    if left != [] {
      assert left[0] in left;
    }
  }

  lemma ActiveSpared(m: Machine, i: Input)
    requires IsClose(i) && m.state == Releasing
    ensures AnyActive(Spared(m.subscribers, Inactives)) <==> SomeActive(m.subscribers)
  {
    SparedFacts(m.subscribers, Inactives);
    AnyActiveIsMembership(Spared(m.subscribers, Inactives));
    HasIsMembership(m.subscribers, 0);
  }

  lemma QuitStateIsAsTabled(m: Machine, h: int, env: Env)
    requires Unique(m.subscribers)
    ensures React(m, Quit(h, env)).state.state == StateAfter(m, Quit(h, env))
  {
    ListedIsHas(m.subscribers, h);
    if Listed(m.subscribers, h) && m.state != Released {
      LeaveSurvive(m, h, env);
      LeftByQuit(m, h, env);
      AnyActiveIsSomeActive(Leave(m, h).state.subscribers);
      ConnectKeepsState(Leave(m, h).state.(state := Released), false, env);
      ConnectKeepsState(Leave(m, h).state.(state := Releasing), false, env);
    }
  }

  lemma ConnectKeepsState(m: Machine, request: bool, env: Env)
    ensures Connect(m, request, env).reaction.state.state == m.state
    ensures Connect(m, request, env).ok <==>
      (!m.isDs || (!request && env.hasStop)
       || (SomeActive(m.subscribers) && env.hasStart && env.answer == Success))
  {
    AnyActiveIsSomeActive(m.subscribers);
  }

  lemma RequestStateIsAsTabled(m: Machine, i: Input)
    requires i.Request? && Unique(m.subscribers)
    ensures React(m, i).state.state == StateAfter(m, i)
  {
    var joined := m.(subscribers := Added(m.subscribers, Subscriber(i.handle, i.waitForClose, false)));
    RequestListIsAsTabled(m, i);
    ConnectKeepsState(joined, true, i.env);
    assert joined.subscribers == ListAfter(m, i);
  }

  lemma CloseStateIsAsTabled(m: Machine, i: Input)
    requires IsClose(i)
    ensures React(m, i).state.state == StateAfter(m, i)
  {
    if m.state == Releasing {
      ActiveSpared(m, i);
      ConnectKeepsState(NotifyAll(m, Release, true, Inactives).state.(state := Pending), true, i.env);
    }
  }

  lemma StateIsAsTabled(m: Machine, i: Input)
    requires Unique(m.subscribers)
    ensures React(m, i).state.state == StateAfter(m, i)
  {
    if i.Request? {
      RequestStateIsAsTabled(m, i);
    } else if i.Quit? {
      QuitStateIsAsTabled(m, i.handle, i.env);
    } else if IsClose(i) {
      CloseStateIsAsTabled(m, i);
    }
  }

  // ---------- The outputs ----------

  predicate GetsOpen(m: Machine, i: Input, h: int) {
    || (i.Request? && i.handle == h && m.state == Acquired)
    || (i.Granted? && m.state == Pending && HasActive(m.subscribers, h))
  }

  predicate GetsRefused(m: Machine, i: Input, h: int) {
    Refuses(m, i) && Has(m.subscribers, h)
  }

  predicate GetsClosed(m: Machine, i: Input, h: int) {
    || (i.Lost? && m.state == Acquired && Has(m.subscribers, h))
    || (IsClose(i) && m.state == Releasing && HasInactive(m.subscribers, h))
    || (Leaves(m, i) && i.handle == h && (m.state == Released || !HasWaiting(m.subscribers, h)))
  }

  function NumberOfInactive(subs: seq<Subscriber>): nat {
    if subs == [] then 0 else One(subs[0].inactive) + NumberOfInactive(subs[1..])
  }

  // How often an output is made to tell subscribers something.
  function NoticeTimes(m: Machine, i: Input, o: Output): nat {
    match o
    case OpenStatus(h, success) => One(if success then GetsOpen(m, i, h) else GetsRefused(m, i, h) && !m.isDs)
    case CloseStatus(h, success) => One(success && GetsClosed(m, i, h))
    case QueueSupl(h) => One(GetsRefused(m, i, h) && m.isDs)
    case DsClose =>
      if !m.isDs then 0
      else if i.Lost? && m.state == Acquired then |m.subscribers|
      else if IsClose(i) && m.state == Releasing then NumberOfInactive(m.subscribers)
      else 0
    case QueueEmergency(h) => One(m.isDs && i.Retry? && IsFirstActive(m.subscribers, h))
    case RequestConn => 0
    case ReleaseConn => 0
    case DsStart(_) => 0
    case DsStop => 0
    case RetryTimer => 0
  }

  predicate IsFirstActive(subs: seq<Subscriber>, h: int) {
    exists k :: 0 <= k < |subs| && subs[k].handle == h && !subs[k].inactive
                && forall j | 0 <= j < k :: subs[j].inactive
  }

  // The data-service client is called for a set-up, or is not there to be called.
  predicate Tries(isDs: bool, subs: seq<Subscriber>, request: bool, env: Env) {
    isDs && SomeActive(subs) && (request || !env.hasStop)
  }

  predicate FallsBack(retries: nat, env: Env) {
    !env.hasStart || env.answer == Unsupported || (env.answer == Busy && retries >= MAX_START_DATA_CALL_RETRIES)
  }

  // How often an output is made to set up or to release the connection.
  function ConnectionTimes(isDs: bool, retries: nat, subs: seq<Subscriber>, request: bool, env: Env, o: Output): nat {
    match o
    case RequestConn => One(!isDs && request)
    case ReleaseConn => One(!isDs && !request)
    case DsStop => One(isDs && !request && env.hasStop)
    case DsStart(a) => One(Tries(isDs, subs, request, env) && env.hasStart && a == env.answer)
    case RetryTimer =>
      One(Tries(isDs, subs, request, env) && env.hasStart && env.answer == Busy
          && retries < MAX_START_DATA_CALL_RETRIES)
    case QueueSupl(h) => One(Tries(isDs, subs, request, env) && FallsBack(retries, env) && IsFirstActive(subs, h))
    case OpenStatus(_, _) => 0
    case CloseStatus(_, _) => 0
    case DsClose => 0
    case QueueEmergency(_) => 0
  }

  function Expected(m: Machine, i: Input, o: Output): nat {
    NoticeTimes(m, i, o)
    + (if (i.Request? && m.state == Released) || Reopens(m, i) then
         ConnectionTimes(m.isDs, m.retries, ListAfter(m, i), true, i.env, o)
       else if LetsGo(m, i) then ConnectionTimes(m.isDs, m.retries, ListAfter(m, i), false, i.env, o)
       else 0)
  }

  lemma FirstActiveIs(subs: seq<Subscriber>, h: int)
    ensures IsFirstActive(subs, h) <==> AnyActive(subs) && subs[FirstActive(subs)].handle == h
  {}

  lemma Both(a: seq<Output>, b: seq<Output>, o: Output)
    ensures multiset(a + b)[o] == multiset(a)[o] + multiset(b)[o]
  {}

  lemma SetUpAsTabled(m: Machine, first: int, env: Env, o: Output)
    requires m.isDs && env.hasStart && IsFirstActive(m.subscribers, first)
    ensures multiset(SetUp(m, first, env.answer).reaction.out)[o]
            == One(o == DsStart(env.answer))
               + One(o == RetryTimer && env.answer == Busy && m.retries < MAX_START_DATA_CALL_RETRIES)
               + One(o == QueueSupl(first) && FallsBack(m.retries, env))
  {
    Both([DsStart(env.answer)], Notice(true, Deny, first), o);
    Both([DsStart(env.answer)], [RetryTimer], o);
  }

  lemma OneFirstActive(subs: seq<Subscriber>, h: int, first: int)
    requires IsFirstActive(subs, first)
    ensures IsFirstActive(subs, h) <==> h == first
  {}

  lemma ConnectAsTabled(m: Machine, request: bool, env: Env, o: Output)
    ensures multiset(Connect(m, request, env).reaction.out)[o]
            == ConnectionTimes(m.isDs, m.retries, m.subscribers, request, env, o)
  {
    AnyActiveIsSomeActive(m.subscribers);
    if Tries(m.isDs, m.subscribers, request, env) {
      var first := m.subscribers[FirstActive(m.subscribers)].handle;
      FirstActiveIs(m.subscribers, first);
      TryAsTabled(m, first, request, env, o);
    } else {
      NoTryAsTabled(m, request, env, o);
    }
  }

  lemma NoTryAsTabled(m: Machine, request: bool, env: Env, o: Output)
    requires !Tries(m.isDs, m.subscribers, request, env) && (AnyActive(m.subscribers) <==> SomeActive(m.subscribers))
    ensures multiset(Connect(m, request, env).reaction.out)[o]
            == ConnectionTimes(m.isDs, m.retries, m.subscribers, request, env, o)
  {}

  lemma TryAsTabled(m: Machine, first: int, request: bool, env: Env, o: Output)
    requires Tries(m.isDs, m.subscribers, request, env)
    requires AnyActive(m.subscribers) && m.subscribers[FirstActive(m.subscribers)].handle == first
    requires IsFirstActive(m.subscribers, first)
    ensures multiset(Connect(m, request, env).reaction.out)[o]
            == ConnectionTimes(m.isDs, m.retries, m.subscribers, request, env, o)
  {
    if o.QueueSupl? {
      OneFirstActive(m.subscribers, o.handle, first);
    }
    if env.hasStart {
      SetUpAsTabled(m, first, env, o);
    } else {
      assert Connect(m, request, env).reaction.out == [QueueSupl(first)];
    }
  }

  // What one kind of notice to some subscribers comes to.
  function EventTimes(isDs: bool, event: AgpsEvent, subs: seq<Subscriber>, o: Output): nat {
    match o
    case OpenStatus(h, success) => One(Has(subs, h) && if success then event == Grant else event == Deny && !isDs)
    case CloseStatus(h, success) => One(Has(subs, h) && success && (event == Release || event == Unsubscribe))
    case QueueSupl(h) => One(Has(subs, h) && event == Deny && isDs)
    case DsClose => if isDs && event == Release then |subs| else 0
    case _ => 0
  }

  lemma HasTail(subs: seq<Subscriber>, h: int)
    requires subs != []
    ensures Has(subs, h) <==> subs[0].handle == h || Has(subs[1..], h)
  {
    if Has(subs[1..], h) {
      var k :| 0 <= k < |subs[1..]| && subs[1..][k].handle == h;
      assert subs[k + 1].handle == h;
    }
    if Has(subs, h) && subs[0].handle != h {
      var k :| 0 <= k < |subs| && subs[k].handle == h;
      assert subs[1..][k - 1].handle == h;
    }
  }

  function OneEventTimes(isDs: bool, event: AgpsEvent, to: int, o: Output): nat {
    match event
    case Subscribe => 0
    case Grant => One(OpenStatus(to, true) == o)
    case Deny => One((if isDs then QueueSupl(to) else OpenStatus(to, false)) == o)
    case Unsubscribe => One(CloseStatus(to, true) == o)
    case Release => One(isDs && DsClose == o) + One(CloseStatus(to, true) == o)
  }

  lemma Single(x: Output, o: Output)
    ensures multiset([x])[o] == One(x == o)
  {}

  lemma NoticeAsTabled(isDs: bool, event: AgpsEvent, to: int, o: Output)
    ensures multiset(Notice(isDs, event, to))[o] == OneEventTimes(isDs, event, to, o)
  {
    if event == Release {
      ReleaseAsTabled(isDs, to, o);
    } else if event == Subscribe {
      assert Notice(isDs, event, to) == [];
    } else {
      var x := if event == Grant then OpenStatus(to, true)
               else if event == Unsubscribe then CloseStatus(to, true)
               else if isDs then QueueSupl(to) else OpenStatus(to, false);
      assert Notice(isDs, event, to) == [x];
      Single(x, o);
    }
  }

  lemma ReleaseAsTabled(isDs: bool, to: int, o: Output)
    ensures multiset(Notice(isDs, Release, to))[o] == One(isDs && DsClose == o) + One(CloseStatus(to, true) == o)
  {
    Single(DsClose, o);
    Single(CloseStatus(to, true), o);
    if isDs {
      Both([DsClose], [CloseStatus(to, true)], o);
    } else {
      assert Notice(isDs, Release, to) == [CloseStatus(to, true)];
    }
  }

  lemma EventTail(isDs: bool, event: AgpsEvent, subs: seq<Subscriber>, o: Output)
    requires subs != [] && Unique(subs)
    ensures EventTimes(isDs, event, subs, o)
            == OneEventTimes(isDs, event, subs[0].handle, o) + EventTimes(isDs, event, subs[1..], o)
  {
    if o.OpenStatus? || o.CloseStatus? || o.QueueSupl? {
      HasTail(subs, o.handle);
      NotTwice(subs);
    }
  }

  lemma NotTwice(subs: seq<Subscriber>)
    requires subs != [] && Unique(subs)
    ensures !Has(subs[1..], subs[0].handle)
  {}

  lemma {:induction false} NoticesAsTabled(isDs: bool, event: AgpsEvent, subs: seq<Subscriber>, o: Output)
    requires Unique(subs)
    ensures multiset(Notices(isDs, event, subs))[o] == EventTimes(isDs, event, subs, o)
  {
    if subs != [] {
      UniqueTail(subs);
      NoticeAsTabled(isDs, event, subs[0].handle, o);
      NoticesAsTabled(isDs, event, subs[1..], o);
      Both(Notice(isDs, event, subs[0].handle), Notices(isDs, event, subs[1..]), o);
      EventTail(isDs, event, subs, o);
    }
  }

  lemma UniqueTail(subs: seq<Subscriber>)
    requires subs != [] && Unique(subs)
    ensures Unique(subs[1..])
  {}

  // ---------- One step ----------

  lemma Nothing(m: Machine, i: Input, o: Output)
    requires i.Drop? || (i.Quit? && !Has(m.subscribers, i.handle))
             || (i.Granted? && m.state != Pending) || (i.Retry? && !(m.isDs && SomeActive(m.subscribers)))
             || (IsClose(i) && !Refuses(m, i) && !(i.Lost? && m.state == Acquired) && m.state != Releasing)
    ensures React(m, i).out == [] && Expected(m, i, o) == 0
  {
    AnyActiveIsSomeActive(m.subscribers);
    if i.Quit? {
      ListedIsHas(m.subscribers, i.handle);
    } else if i.Retry? && o.QueueEmergency? {
      FirstActiveIs(m.subscribers, o.handle);
    }
  }

  lemma RequestAsTabled(m: Machine, i: Input, o: Output)
    requires i.Request?
    ensures multiset(React(m, i).out)[o] == Expected(m, i, o)
  {
    if m.state == Released {
      OpenAsTabled(m, i, o);
    } else {
      JoinAsTabled(m, i, o);
    }
  }

  lemma JoinAsTabled(m: Machine, i: Input, o: Output)
    requires i.Request? && m.state != Released
    ensures multiset(React(m, i).out)[o] == Expected(m, i, o)
  {
    if m.state == Acquired {
      NoticeAsTabled(m.isDs, Grant, i.handle, o);
    }
  }

  lemma OpenAsTabled(m: Machine, i: Input, o: Output)
    requires i.Request? && m.state == Released
    ensures multiset(React(m, i).out)[o] == ConnectionTimes(m.isDs, m.retries, ListAfter(m, i), true, i.env, o)
  {
    var joined := m.(subscribers := Added(m.subscribers, Subscriber(i.handle, i.waitForClose, false)));
    RequestListIsAsTabled(m, i);
    ConnectAsTabled(joined, true, i.env, o);
    ConnectKeepsList(joined, true, i.env);
    assert joined.subscribers == ListAfter(m, i);
  }

  lemma QuitAsTabled(m: Machine, i: Input, o: Output)
    requires i.Quit? && Has(m.subscribers, i.handle) && Unique(m.subscribers)
    ensures multiset(React(m, i).out)[o] == Expected(m, i, o)
  {
    ListedIsHas(m.subscribers, i.handle);
    if m.state == Released {
      QuitReleasedAsTabled(m, i, o);
    } else {
      LeaveTimes(m, i, o);
      QuitTimes(m, i, o);
      LetGoAsTabled(m, i, o);
      assert Expected(m, i, o) == NoticeTimes(m, i, o)
        + if LetsGo(m, i) then ConnectionTimes(m.isDs, m.retries, ListAfter(m, i), false, i.env, o) else 0;
    }
  }

  lemma QuitReleasedAsTabled(m: Machine, i: Input, o: Output)
    requires i.Quit? && Has(m.subscribers, i.handle) && Listed(m.subscribers, i.handle) && m.state == Released
    ensures multiset(React(m, i).out)[o] == Expected(m, i, o)
  {
    NoticeAsTabled(m.isDs, Unsubscribe, i.handle, o);
  }

  lemma QuitTimes(m: Machine, i: Input, o: Output)
    requires i.Quit? && Has(m.subscribers, i.handle) && Listed(m.subscribers, i.handle)
    requires Unique(m.subscribers) && m.state != Released
    ensures multiset(React(m, i).out)[o]
            == multiset(Leave(m, i.handle).out)[o] + if LetsGo(m, i) then multiset(LetGoCalls(m, i))[o] else 0
  {
    QuitParts(m, i);
    Both(Leave(m, i.handle).out, if LetsGo(m, i) then LetGoCalls(m, i) else [], o);
  }

  // Whether a connection is let go, and what for.
  lemma QuitParts(m: Machine, i: Input)
    requires i.Quit? && Has(m.subscribers, i.handle) && Listed(m.subscribers, i.handle)
    requires Unique(m.subscribers) && m.state != Released
    ensures var left := Leave(m, i.handle);
      React(m, i).out == left.out + (if LetsGo(m, i) then LetGoCalls(m, i) else [])
  {
    LeaveSurvive(m, i.handle, i.env);
    LeftByQuit(m, i.handle, i.env);
    AnyActiveIsSomeActive(Leave(m, i.handle).state.subscribers);
    assert Leave(m, i.handle).out + [] == Leave(m, i.handle).out;
  }

  function LetGoCalls(m: Machine, i: Input): seq<Output>
    requires i.Quit? && Listed(m.subscribers, i.handle)
  {
    var left := Leave(m, i.handle).state;
    Connect(left.(state := if left.subscribers == [] then Released else Releasing), false, i.env).reaction.out
  }

  lemma LetGoAsTabled(m: Machine, i: Input, o: Output)
    requires i.Quit? && Listed(m.subscribers, i.handle) && Unique(m.subscribers) && m.state != Released
    ensures multiset(LetGoCalls(m, i))[o]
            == ConnectionTimes(m.isDs, m.retries, ListAfter(m, i), false, i.env, o)
  {
    var left := Leave(m, i.handle).state;
    LeaveSurvive(m, i.handle, i.env);
    assert ListAfter(m, i) == left.subscribers;
    ConnectAsTabled(left.(state := if left.subscribers == [] then Released else Releasing), false, i.env, o);
  }

  lemma LeaveTimes(m: Machine, i: Input, o: Output)
    requires i.Quit? && Has(m.subscribers, i.handle) && Unique(m.subscribers) && Listed(m.subscribers, i.handle)
    requires m.state != Released
    ensures multiset(Leave(m, i.handle).out)[o] == NoticeTimes(m, i, o)
  {
    WaitingIs(m.subscribers, i.handle);
    NoticeAsTabled(m.isDs, Unsubscribe, i.handle, o);
  }

  lemma WaitingIs(subs: seq<Subscriber>, h: int)
    requires Unique(subs) && Listed(subs, h)
    ensures HasWaiting(subs, h) <==> subs[IndexOf(subs, h)].waitForClose
  {
    if HasWaiting(subs, h) {
      var k :| 0 <= k < |subs| && subs[k].handle == h && subs[k].waitForClose;
      SameHandle(subs, subs[k], h);
    }
  }

  lemma GrantAsTabled(m: Machine, i: Input, o: Output)
    requires i.Granted? && m.state == Pending && Unique(m.subscribers)
    ensures multiset(React(m, i).out)[o] == Expected(m, i, o)
  {
    ChosenFacts(m.subscribers, Actives);
    NoticesAsTabled(m.isDs, Grant, Chosen(m.subscribers, Actives), o);
    GrantTimes(m, i, o);
    assert React(m, i).out == Notices(m.isDs, Grant, Chosen(m.subscribers, Actives));
  }

  lemma GrantTimes(m: Machine, i: Input, o: Output)
    requires i.Granted? && m.state == Pending
    ensures EventTimes(m.isDs, Grant, Chosen(m.subscribers, Actives), o) == Expected(m, i, o)
  {
    if o.OpenStatus? {
      HasChosen(m.subscribers, o.handle);
    }
  }

  lemma ChosenFacts(subs: seq<Subscriber>, whom: Whom)
    requires Unique(subs)
    ensures Unique(Chosen(subs, whom))
  {
    SparedFacts(subs, whom);
  }

  lemma HasChosen(subs: seq<Subscriber>, h: int)
    ensures Has(Chosen(subs, Actives), h) <==> HasActive(subs, h)
    ensures Has(Chosen(subs, Inactives), h) <==> HasInactive(subs, h)
  {
    SparedFacts(subs, Actives);
    SparedFacts(subs, Inactives);
    HasByMembership(Chosen(subs, Actives), h);
    HasByMembership(Chosen(subs, Inactives), h);
    HasByMembership(subs, h);
  }

  lemma HasByMembership(subs: seq<Subscriber>, h: int)
    ensures Has(subs, h) <==> exists s :: s in subs && s.handle == h
    ensures HasActive(subs, h) <==> exists s :: s in subs && s.handle == h && !s.inactive
    ensures HasInactive(subs, h) <==> exists s :: s in subs && s.handle == h && s.inactive
  {}

  lemma {:induction false} NumberChosen(subs: seq<Subscriber>)
    ensures |Chosen(subs, Inactives)| == NumberOfInactive(subs)
  {
    if subs != [] {
      NumberChosen(subs[1..]);
    }
  }

  // Everybody is told that the connection has failed, or is gone.
  lemma AllAsTabled(m: Machine, i: Input, o: Output)
    requires (Refuses(m, i) || (i.Lost? && m.state == Acquired)) && Unique(m.subscribers)
    ensures multiset(React(m, i).out)[o] == Expected(m, i, o)
  {
    var event := if m.state == Pending then Deny else Release;
    AllParts(m, i);
    NoticesAsTabled(m.isDs, event, m.subscribers, o);
    AllTimes(m, i, o);
  }

  lemma AllParts(m: Machine, i: Input)
    requires Refuses(m, i) || (i.Lost? && m.state == Acquired)
    ensures React(m, i).out == Notices(m.isDs, if m.state == Pending then Deny else Release, m.subscribers)
  {
    SparedByAll(m.subscribers);
  }

  lemma AllTimes(m: Machine, i: Input, o: Output)
    requires Refuses(m, i) || (i.Lost? && m.state == Acquired)
    ensures EventTimes(m.isDs, if m.state == Pending then Deny else Release, m.subscribers, o) == Expected(m, i, o)
  {}

  lemma ClosedAsTabled(m: Machine, i: Input, o: Output)
    requires IsClose(i) && m.state == Releasing && Unique(m.subscribers)
    ensures multiset(React(m, i).out)[o] == Expected(m, i, o)
  {
    ToldAsTabled(m, i, o);
    ClosedTimes(m, i, o);
    ReopenAsTabled(m, i, o);
  }

  lemma ClosedTimes(m: Machine, i: Input, o: Output)
    requires IsClose(i) && m.state == Releasing
    ensures multiset(React(m, i).out)[o]
            == multiset(NotifyAll(m, Release, true, Inactives).out)[o]
               + if Reopens(m, i) then multiset(ReopenCalls(m, i))[o] else 0
  {
    ClosedParts(m, i);
    Both(NotifyAll(m, Release, true, Inactives).out, if Reopens(m, i) then ReopenCalls(m, i) else [], o);
  }

  lemma ClosedParts(m: Machine, i: Input)
    requires IsClose(i) && m.state == Releasing
    ensures React(m, i).out
            == NotifyAll(m, Release, true, Inactives).out + (if Reopens(m, i) then ReopenCalls(m, i) else [])
  {
    ActiveSpared(m, i);
    var told := NotifyAll(m, Release, true, Inactives).out;
    assert told + [] == told;
  }

  function ReopenCalls(m: Machine, i: Input): seq<Output>
    requires IsClose(i)
  {
    Connect(NotifyAll(m, Release, true, Inactives).state.(state := Pending), true, i.env).reaction.out
  }

  lemma ReopenAsTabled(m: Machine, i: Input, o: Output)
    requires IsClose(i) && m.state == Releasing
    ensures multiset(ReopenCalls(m, i))[o] == ConnectionTimes(m.isDs, m.retries, ListAfter(m, i), true, i.env, o)
  {
    var again := NotifyAll(m, Release, true, Inactives).state.(state := Pending);
    SparedSurvive(m, i, m.subscribers);
    assert ListAfter(m, i) == again.subscribers;
    ConnectAsTabled(again, true, i.env, o);
  }

  lemma ToldAsTabled(m: Machine, i: Input, o: Output)
    requires IsClose(i) && m.state == Releasing && Unique(m.subscribers)
    ensures multiset(NotifyAll(m, Release, true, Inactives).out)[o] == NoticeTimes(m, i, o)
    ensures NotifyAll(m, Release, true, Inactives).state.retries == m.retries
  {
    ChosenFacts(m.subscribers, Inactives);
    NumberChosen(m.subscribers);
    NoticesAsTabled(m.isDs, Release, Chosen(m.subscribers, Inactives), o);
    if o.CloseStatus? {
      HasChosen(m.subscribers, o.handle);
    }
  }

  lemma RetryAsTabled(m: Machine, i: Input, o: Output)
    requires i.Retry? && m.isDs && SomeActive(m.subscribers)
    ensures multiset(React(m, i).out)[o] == Expected(m, i, o)
  {
    AnyActiveIsSomeActive(m.subscribers);
    var first := m.subscribers[FirstActive(m.subscribers)].handle;
    FirstActiveIs(m.subscribers, first);
    Single(QueueEmergency(first), o);
    if o.QueueEmergency? {
      OneFirstActive(m.subscribers, o.handle, first);
    }
  }

  // Every event of either machine makes every possible output exactly as often as the table
  // says.
  lemma OutputsAreAsTabled(m: Machine, i: Input, o: Output)
    requires Unique(m.subscribers)
    ensures multiset(React(m, i).out)[o] == Expected(m, i, o)
  {
    if i.Request? {
      RequestAsTabled(m, i, o);
    } else if i.Quit? && Has(m.subscribers, i.handle) {
      QuitAsTabled(m, i, o);
    } else if i.Granted? && m.state == Pending {
      GrantAsTabled(m, i, o);
    } else if Refuses(m, i) || (i.Lost? && m.state == Acquired) {
      AllAsTabled(m, i, o);
    } else if IsClose(i) && m.state == Releasing {
      ClosedAsTabled(m, i, o);
    } else if i.Retry? && m.isDs && SomeActive(m.subscribers) {
      RetryAsTabled(m, i, o);
    } else {
      Nothing(m, i, o);
    }
  }

  // After every run of either machine, modem restarts included, the next event does to the
  // list and to the state what the table says, and puts out what it says.
  lemma EveryStepIsAsTabled(isDs: bool, inputs: seq<Input>, i: Input)
    ensures var m := Emits(React, NewMachine(isDs), inputs).state;
      var r := React(m, i);
      && r.state.subscribers == Survivors(m, i, m.subscribers) + Newcomer(m, i)
      && r.state.state == StateAfter(m, i)
      && r.state.isDs == m.isDs
      && forall o :: multiset(r.out)[o] == Expected(m, i, o)
  {
    RunKeepsUnique(NewMachine(isDs), inputs);
    var m := Emits(React, NewMachine(isDs), inputs).state;
    ListIsAsTabled(m, i);
    StateIsAsTabled(m, i);
    ReactKeepsKind(m, i);
    forall o ensures multiset(React(m, i).out)[o] == Expected(m, i, o) {
      OutputsAreAsTabled(m, i, o);
    }
  }

  // So a subscriber is told once that the connection is open, exactly when it joins an open
  // connection or waits for one that is granted.
  lemma OpenSuccessesAreCounted(isDs: bool, inputs: seq<Input>, i: Input, h: int)
    ensures var m := Emits(React, NewMachine(isDs), inputs).state;
      multiset(React(m, i).out)[OpenStatus(h, true)] ==
        One((i.Request? && i.handle == h && m.state == Acquired)
            || (i.Granted? && m.state == Pending && HasActive(m.subscribers, h)))
  {
    EveryStepIsAsTabled(isDs, inputs, i);
  }
}
