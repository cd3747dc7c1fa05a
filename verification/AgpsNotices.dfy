/** Who is told what by the AGPS state machines of Agps.dfy: no subscriber disappears
    untold, none is told twice, and the data-service machine does not retry for ever. */
module AgpsNotices {

  import opened Runs
  import opened Wrappers
  import opened Agps
  import opened AgpsSafety

  // ---------- Counting outputs about one handle ----------

  // The last word to a subscriber: open failed or closed, and for the data-service machine
  // a SUPL request in its name instead of the open failure.
  predicate IsFinal(isDs: bool, o: Output, h: int) {
    o == CloseStatus(h, true) || o == (if isDs then QueueSupl(h) else OpenStatus(h, false))
  }

  function Finals(isDs: bool, out: seq<Output>, h: int): nat {
    if out == [] then 0 else One(IsFinal(isDs, out[0], h)) + Finals(isDs, out[1..], h)
  }

  function Grants(out: seq<Output>, h: int): nat {
    if out == [] then 0 else One(out[0] == OpenStatus(h, true)) + Grants(out[1..], h)
  }

  lemma {:induction false} FinalsConcat(isDs: bool, a: seq<Output>, b: seq<Output>, h: int)
    ensures Finals(isDs, a + b, h) == Finals(isDs, a, h) + Finals(isDs, b, h)
    decreases |a|
  {
    if a == [] {
      assert a + b == b;
    } else {
      assert (a + b)[1..] == a[1..] + b;
      FinalsConcat(isDs, a[1..], b, h);
    }
  }

  lemma {:induction false} GrantsConcat(a: seq<Output>, b: seq<Output>, h: int)
    ensures Grants(a + b, h) == Grants(a, h) + Grants(b, h)
    decreases |a|
  {
    if a == [] {
      assert a + b == b;
    } else {
      assert (a + b)[1..] == a[1..] + b;
      GrantsConcat(a[1..], b, h);
    }
  }

  lemma FinalsOfNotice(isDs: bool, event: AgpsEvent, to: int, h: int)
    ensures Finals(isDs, Notice(isDs, event, to), h)
         == One(to == h && (event == Deny || event == Release || event == Unsubscribe))
    ensures Grants(Notice(isDs, event, to), h) == One(to == h && event == Grant)
  {
    var n := Notice(isDs, event, to);
    if |n| >= 1 {
      assert Finals(isDs, n, h) == One(IsFinal(isDs, n[0], h)) + Finals(isDs, n[1..], h);
      assert Grants(n, h) == One(n[0] == OpenStatus(h, true)) + Grants(n[1..], h);
    }
    if |n| == 2 {
      assert Finals(isDs, n[1..], h) == One(IsFinal(isDs, n[1], h)) + Finals(isDs, n[1..][1..], h);
      assert Grants(n[1..], h) == One(n[1] == OpenStatus(h, true)) + Grants(n[1..][1..], h);
    }
  }

  lemma ListedTail(subs: seq<Subscriber>, h: int)
    requires subs != []
    ensures Listed(subs, h) <==> subs[0].handle == h || Listed(subs[1..], h)
    ensures Unique(subs) ==> Unique(subs[1..]) && !Listed(subs[1..], subs[0].handle)
  {
    assert forall i | 0 <= i < |subs[1..]| :: subs[1..][i] == subs[i + 1];
  }

  // A notice to a list of subscribers reaches each of them once, and no one else.
  lemma {:induction false} NoticesReachEachOnce(isDs: bool, event: AgpsEvent, subs: seq<Subscriber>, h: int)
    requires Unique(subs)
    ensures event == Deny || event == Release ==>
              Finals(isDs, Notices(isDs, event, subs), h) == One(Listed(subs, h))
    ensures event == Grant ==>
              Grants(Notices(isDs, event, subs), h) == One(Listed(subs, h))
              && Finals(isDs, Notices(isDs, event, subs), h) == 0
  {
    if subs != [] {
      var n := Notice(isDs, event, subs[0].handle);
      var ns := Notices(isDs, event, subs[1..]);
      ListedTail(subs, h);
      NoticesReachEachOnce(isDs, event, subs[1..], h);
      FinalsOfNotice(isDs, event, subs[0].handle, h);
      FinalsConcat(isDs, n, ns, h);
      GrantsConcat(n, ns, h);
    }
  }

  // ---------- A grant ----------

  // A grant tells every active subscriber once that the connection is open, tells the
  // others nothing, and takes no one off the list.
  lemma GrantTellsEachActiveOnce(m: Machine, h: int)
    requires Unique(m.subscribers) && m.state == Pending
    ensures var r := React(m, Granted);
      && Grants(r.out, h) == One(exists s :: s in m.subscribers && s.handle == h && !s.inactive)
      && Finals(m.isDs, r.out, h) == 0
      && r.state == m.(state := Acquired)
  {
    SparedFacts(m.subscribers, Actives);
    var chosen := Chosen(m.subscribers, Actives);
    NoticesReachEachOnce(m.isDs, Grant, chosen, h);
    ListedIsMembership(chosen, h);
    var r := OnGrant(m);
    assert r.state.subscribers == m.subscribers && r.state.retries == m.retries;
    if Listed(chosen, h) {
      var s :| s in chosen && s.handle == h;
      assert s in m.subscribers && !s.inactive;
    }
  }

  // After every run of either machine.
  lemma EveryGrantTellsEachActiveOnce(isDs: bool, inputs: seq<Input>, h: int)
    ensures var m := Emits(React, NewMachine(isDs), inputs).state;
      var r := React(m, Granted);
      m.state == Pending ==>
        && Grants(r.out, h) == One(exists s :: s in m.subscribers && s.handle == h && !s.inactive)
        && Finals(isDs, r.out, h) == 0
        && r.state == m.(state := Acquired)
  {
    RunKeepsUnique(NewMachine(isDs), inputs);
    var m := Emits(React, NewMachine(isDs), inputs).state;
    if m.state == Pending {
      GrantTellsEachActiveOnce(m, h);
    }
  }

  // ---------- Leaving the list ----------

  // What the list and the last words say about one handle after a step.
  function Account(m: Machine, r: Reaction, h: int): nat {
    One(Listed(r.state.subscribers, h)) + Finals(m.isDs, r.out, h)
  }

  lemma SplitByWhom(subs: seq<Subscriber>, whom: Whom, h: int)
    requires Unique(subs)
    ensures One(Listed(subs, h)) == One(Listed(Spared(subs, whom), h)) + One(Listed(Chosen(subs, whom), h))
  {
    SparedFacts(subs, whom);
    var spared, chosen := Spared(subs, whom), Chosen(subs, whom);
    ListedIsMembership(subs, h);
    ListedIsMembership(spared, h);
    ListedIsMembership(chosen, h);
    if Listed(spared, h) {
      var s :| s in spared && s.handle == h;
      SameHandle(subs, s, h);
      assert !Meant(whom, subs[IndexOf(subs, h)]);
    }
    if Listed(chosen, h) {
      var s :| s in chosen && s.handle == h;
      SameHandle(subs, s, h);
      assert Meant(whom, subs[IndexOf(subs, h)]);
    }
    if Listed(subs, h) {
      var s :| s in subs && s.handle == h;
      assert s in spared || s in chosen;
    }
  }

  // Notifying and deleting: whoever is notified is deleted, whoever is not stays.
  lemma NotifyAllAccount(m: Machine, event: AgpsEvent, whom: Whom, h: int)
    requires Unique(m.subscribers) && (event == Deny || event == Release)
    ensures Account(m, NotifyAll(m, event, true, whom), h) == One(Listed(m.subscribers, h))
  {
    SparedFacts(m.subscribers, whom);
    SplitByWhom(m.subscribers, whom, h);
    NoticesReachEachOnce(m.isDs, event, Chosen(m.subscribers, whom), h);
  }

  lemma LeaveAccount(m: Machine, from: int, h: int)
    requires Unique(m.subscribers) && Listed(m.subscribers, from)
    ensures Account(m, Leave(m, from), h) == One(Listed(m.subscribers, h))
  {
    var subs' := Leave(m, from).state.subscribers;
    ListedIsMembership(m.subscribers, h);
    ListedIsMembership(subs', h);
    FinalsOfNotice(m.isDs, Unsubscribe, from, h);
    if m.subscribers[IndexOf(m.subscribers, from)].waitForClose {
      DeactivatedFacts(m.subscribers, from);
    } else {
      DeletedFacts(m.subscribers, from);
    }
  }

  // Setting up or releasing a connection tells no one for good, except that the
  // data-service machine may hand its first active subscriber over to SUPL.
  lemma ConnectFinals(m: Machine, request: bool, env: Env, h: int)
    ensures var r := Connect(m, request, env).reaction;
      && r.state.subscribers == m.subscribers && r.state.isDs == m.isDs
      && ((!m.isDs || !AnyActive(m.subscribers) || m.subscribers[FirstActive(m.subscribers)].handle != h)
          ==> Finals(m.isDs, r.out, h) == 0)
  {
    var out := Connect(m, request, env).reaction.out;
    if m.isDs && AnyActive(m.subscribers) && !(!request && env.hasStop) {
      var first := m.subscribers[FirstActive(m.subscribers)].handle;
      FinalsOfNotice(true, Deny, first, h);
      if env.hasStart {
        FinalsConcat(true, [DsStart(env.answer)], Notice(true, Deny, first), h);
        FinalsConcat(true, [DsStart(env.answer)], [RetryTimer], h);
      }
    }
  }

  lemma AlsoConnectAccount(m: Machine, left: Reaction, state: AgpsState, request: bool, env: Env, h: int)
    requires left.state.isDs == m.isDs
    ensures var down := left.state.(state := state);
      var r := Also(left, Connect(down, request, env).reaction);
      && r.state.subscribers == left.state.subscribers
      && Account(m, r, h) >= Account(m, left, h)
      && (!m.isDs || !Listed(left.state.subscribers, h) ==> Account(m, r, h) == Account(m, left, h))
  {
    var down := left.state.(state := state);
    ConnectFinals(down, request, env, h);
    FinalsConcat(m.isDs, left.out, Connect(down, request, env).reaction.out, h);
  }

  lemma ClosedAccount(m: Machine, env: Env, h: int)
    requires Unique(m.subscribers)
    ensures var r := Closed(m, env);
      && Account(m, r, h) >= One(Listed(m.subscribers, h))
      && (!m.isDs || !Listed(r.state.subscribers, h) ==> Account(m, r, h) == One(Listed(m.subscribers, h)))
  {
    NotifyAllAccount(m, Release, Inactives, h);
    AlsoConnectAccount(m, NotifyAll(m, Release, true, Inactives), Pending, true, env, h);
  }

  lemma UnsubscribeAccount(m: Machine, from: int, env: Env, h: int)
    requires Unique(m.subscribers) && Listed(m.subscribers, from)
    ensures var r := OnUnsubscribe(m, from, env);
      && Account(m, r, h) >= One(Listed(m.subscribers, h))
      && (m.state != Released && (!m.isDs || !Listed(r.state.subscribers, h)) ==>
            Account(m, r, h) == One(Listed(m.subscribers, h)))
  {
    if m.state != Released {
      var left := Leave(m, from);
      LeaveAccount(m, from, h);
      var down := if left.state.subscribers == [] then Released else Releasing;
      AlsoConnectAccount(m, left, down, false, env, h);
    }
  }

  lemma SubscribeAccount(m: Machine, s: Subscriber, env: Env, h: int)
    requires Unique(m.subscribers)
    ensures var r := OnSubscribe(m, s, env);
      && Listed(r.state.subscribers, h) == (Listed(m.subscribers, h) || h == s.handle)
      && (!m.isDs ==> Finals(m.isDs, r.out, h) == 0)
  {
    AddedFacts(m.subscribers, s);
    ConnectFinals(m.(subscribers := Added(m.subscribers, s)), true, env, h);
    FinalsOfNotice(m.isDs, Grant, s.handle, h);
  }

  // Either machine, any step but a modem restart: a subscriber that leaves the list gets
  // its last word in that step, and gets it once.
  lemma WhoLeavesIsToldOnce(m: Machine, i: Input, h: int)
    requires Unique(m.subscribers) && i != Drop
    requires Listed(m.subscribers, h) && !Listed(React(m, i).state.subscribers, h)
    ensures Finals(m.isDs, React(m, i).out, h) == 1
  {
    match i
    case Request(from, wait, env) => SubscribeAccount(m, Subscriber(from, wait, false), env, h);
    case Quit(from, env) =>
      if Listed(m.subscribers, from) {
        UnsubscribeAccount(m, from, env, h);
      }
    case Granted =>
    case Lost(env) => LostAccount(m, env, h);
    case Denied(env) => DeniedAccount(m, env, h);
    case Retry =>
  }

  // After every run of either machine, modem restarts included: whoever the next step, if
  // it is not itself a restart, takes off the list is told so once in that step. For the
  // denial of the data-service machine the last word is one queued request for SUPL.
  lemma EveryLeaverIsToldOnce(isDs: bool, inputs: seq<Input>, i: Input, h: int)
    requires i != Drop
    ensures var m := Emits(React, NewMachine(isDs), inputs).state;
      var r := React(m, i);
      Listed(m.subscribers, h) && !Listed(r.state.subscribers, h) ==>
        Finals(isDs, r.out, h) == 1
  {
    RunKeepsUnique(NewMachine(isDs), inputs);
    var m := Emits(React, NewMachine(isDs), inputs).state;
    if Listed(m.subscribers, h) && !Listed(React(m, i).state.subscribers, h) {
      WhoLeavesIsToldOnce(m, i, h);
    }
  }

  lemma LostAccount(m: Machine, env: Env, h: int)
    requires Unique(m.subscribers)
    ensures var r := React(m, Lost(env));
      !m.isDs || !Listed(r.state.subscribers, h) ==> Account(m, r, h) == One(Listed(m.subscribers, h))
  {
    if m.isDs && m.state == Pending {
      DeniedAccount(m, env, h);
    } else if m.state == Releasing {
      ClosedAccount(m, env, h);
    } else if m.state == Acquired {
      NotifyAllAccount(m.(state := Released), Release, All, h);
    }
  }

  lemma DeniedAccount(m: Machine, env: Env, h: int)
    requires Unique(m.subscribers)
    ensures var r := OnDeny(m, env);
      !m.isDs || !Listed(r.state.subscribers, h) ==> Account(m, r, h) == One(Listed(m.subscribers, h))
  {
    if m.state == Releasing {
      ClosedAccount(m, env, h);
    } else if m.state == Pending {
      NotifyAllAccount(m.(state := Released), Deny, All, h);
    }
  }

  // ---------- Conservation for the base machine ----------

  // Whether a step puts a handle on the list.
  function Joins(m: Machine, i: Input, h: int): nat {
    One(i.Request? && i.handle == h && !Listed(m.subscribers, h))
  }

  lemma ReactConserves(m: Machine, i: Input, h: int)
    requires Inv(m) && i != Drop
    ensures Account(m, React(m, i), h) == One(Listed(m.subscribers, h)) + Joins(m, i, h)
  {
    match i
    case Request(from, wait, env) => SubscribeAccount(m, Subscriber(from, wait, false), env, h);
    case Quit(from, env) =>
      if Listed(m.subscribers, from) {
        UnsubscribeAccount(m, from, env, h);
      }
    case Granted => if m.state == Pending { GrantTellsEachActiveOnce(m, h); }
    case Lost(env) => LostAccount(m, env, h);
    case Denied(env) => DeniedAccount(m, env, h);
    case Retry =>
  }

  function Joined(m: Machine, inputs: seq<Input>, h: int): nat
    decreases |inputs|
  {
    if inputs == [] then 0 else Joins(m, inputs[0], h) + Joined(React(m, inputs[0]).state, inputs[1..], h)
  }

  lemma {:induction false} RunConserves(m: Machine, inputs: seq<Input>, h: int)
    requires Inv(m) && Drop !in inputs
    ensures var r := Emits(React, m, inputs);
      One(Listed(m.subscribers, h)) + Joined(m, inputs, h)
      == One(Listed(r.state.subscribers, h)) + Finals(false, r.out, h)
    decreases |inputs|
  {
    if inputs != [] {
      var first := React(m, inputs[0]);
      var rest := Emits(React, first.state, inputs[1..]);
      ReactConserves(m, inputs[0], h);
      ReactKeepsInv(m, inputs[0]);
      RunConserves(first.state, inputs[1..], h);
      FinalsConcat(false, first.out, rest.out, h);
    }
  }

  // Over every run of a base machine without a modem restart: every subscription taken
  // has had exactly one last word, or is still on the list.
  lemma EverySubscriptionIsAnsweredOnce(inputs: seq<Input>, h: int)
    requires Drop !in inputs
    ensures var r := Emits(React, NewMachine(false), inputs);
      Joined(NewMachine(false), inputs, h) == Finals(false, r.out, h) + One(Listed(r.state.subscribers, h))
  {
    RunConserves(NewMachine(false), inputs, h);
  }

  // ---------- The retries of the data-service machine ----------

  // BUSY answers since the last time a SUPL connection was asked for instead.
  function BusyCount(n: nat, out: seq<Output>): nat
    decreases |out|
  {
    if out == [] then n
    else BusyCount(if out[0] == DsStart(Busy) then n + 1 else if out[0].QueueSupl? then 0 else n, out[1..])
  }

  lemma {:induction false} BusyCountConcat(n: nat, a: seq<Output>, b: seq<Output>)
    ensures BusyCount(n, a + b) == BusyCount(BusyCount(n, a), b)
    decreases |a|
  {
    if a == [] {
      assert a + b == b;
    } else {
      assert (a + b)[1..] == a[1..] + b;
      var n' := if a[0] == DsStart(Busy) then n + 1 else if a[0].QueueSupl? then 0 else n;
      BusyCountConcat(n', a[1..], b);
    }
  }

  lemma BusyCountOfNotice(n: nat, event: AgpsEvent, h: int)
    ensures BusyCount(n, Notice(true, event, h)) == if event == Deny then 0 else n
  {
    var out := Notice(true, event, h);
    if |out| >= 1 {
      BusyCountConcat(n, out[..1], out[1..]);
      assert out == out[..1] + out[1..];
      assert out[1..] == [] || out[1..] == [CloseStatus(h, true)];
    }
  }

  lemma {:induction false} BusyCountOfNotices(n: nat, event: AgpsEvent, subs: seq<Subscriber>)
    ensures BusyCount(n, Notices(true, event, subs)) == if event == Deny && subs != [] then 0 else n
  {
    if subs != [] {
      var n' := if event == Deny then 0 else n;
      BusyCountConcat(n, Notice(true, event, subs[0].handle), Notices(true, event, subs[1..]));
      BusyCountOfNotice(n, event, subs[0].handle);
      BusyCountOfNotices(n', event, subs[1..]);
    }
  }

  // The counter of the machine is the number of BUSY answers not yet followed by a fallback,
  // and the fifth one is followed by it at once.
  ghost predicate Counts(m: Machine, r: Reaction) {
    r.state.isDs && r.state.retries == BusyCount(m.retries, r.out) <= MAX_START_DATA_CALL_RETRIES
  }

  lemma ConnectCounts(m: Machine, request: bool, env: Env)
    requires m.isDs && m.retries <= MAX_START_DATA_CALL_RETRIES
    ensures Counts(m, Connect(m, request, env).reaction)
  {
    if AnyActive(m.subscribers) {
      var first := m.subscribers[FirstActive(m.subscribers)].handle;
      BusyCountOfNotice(m.retries, Deny, first);
      BusyCountConcat(m.retries, [DsStart(env.answer)], Notice(true, Deny, first));
      BusyCountConcat(m.retries, [DsStart(env.answer)], [RetryTimer]);
      BusyCountOfNotice(BusyCount(m.retries, [DsStart(env.answer)]), Deny, first);
    }
  }

  lemma AlsoConnectCounts(m: Machine, left: Reaction, state: AgpsState, request: bool, env: Env)
    requires m.isDs && Counts(m, left)
    ensures Counts(m, Also(left, Connect(left.state.(state := state), request, env).reaction))
  {
    var down := left.state.(state := state);
    ConnectCounts(down, request, env);
    BusyCountConcat(m.retries, left.out, Connect(down, request, env).reaction.out);
  }

  lemma NotifyAllCounts(m: Machine, event: AgpsEvent, delete: bool, whom: Whom)
    requires m.isDs && m.retries <= MAX_START_DATA_CALL_RETRIES
    ensures Counts(m, NotifyAll(m, event, delete, whom))
  {
    BusyCountOfNotices(m.retries, event, Chosen(m.subscribers, whom));
  }

  lemma UnsubscribeCounts(m: Machine, h: int, env: Env)
    requires m.isDs && m.retries <= MAX_START_DATA_CALL_RETRIES && Listed(m.subscribers, h)
    ensures Counts(m, OnUnsubscribe(m, h, env))
  {
    BusyCountOfNotice(m.retries, Unsubscribe, h);
    var left := Leave(m, h);
    assert Counts(m, left);
    var down := if left.state.subscribers == [] then Released else Releasing;
    AlsoConnectCounts(m, left, down, false, env);
  }

  lemma ClosedCounts(m: Machine, env: Env)
    requires m.isDs && m.retries <= MAX_START_DATA_CALL_RETRIES
    ensures Counts(m, Closed(m, env))
  {
    NotifyAllCounts(m, Release, true, Inactives);
    AlsoConnectCounts(m, NotifyAll(m, Release, true, Inactives), Pending, true, env);
  }

  lemma ReactCounts(m: Machine, i: Input)
    requires m.isDs && m.retries <= MAX_START_DATA_CALL_RETRIES
    ensures Counts(m, React(m, i))
  {
    match i
    case Request(h, wait, env) =>
      ConnectCounts(m.(subscribers := Added(m.subscribers, Subscriber(h, wait, false))), true, env);
      BusyCountOfNotice(m.retries, Grant, h);
    case Quit(h, env) =>
      if Listed(m.subscribers, h) {
        UnsubscribeCounts(m, h, env);
      }
    case Granted => NotifyAllCounts(m.(state := Acquired), Grant, false, Actives);
    case Lost(env) => ReportCounts(m, env);
    case Denied(env) => ReportCounts(m, env);
    case Retry =>
    case Drop =>
  }

  lemma ReportCounts(m: Machine, env: Env)
    requires m.isDs && m.retries <= MAX_START_DATA_CALL_RETRIES
    ensures Counts(m, OnRelease(m, env)) && Counts(m, OnDeny(m, env))
  {
    ClosedCounts(m, env);
    NotifyAllCounts(m.(state := Released), Release, true, All);
    NotifyAllCounts(m.(state := Released), Deny, true, All);
  }

  lemma {:induction false} RunCounts(m: Machine, inputs: seq<Input>)
    requires m.isDs && m.retries <= MAX_START_DATA_CALL_RETRIES
    ensures var r := Emits(React, m, inputs);
      r.state.retries == BusyCount(m.retries, r.out) <= MAX_START_DATA_CALL_RETRIES
    decreases |inputs|
  {
    if inputs != [] {
      var first := React(m, inputs[0]);
      ReactCounts(m, inputs[0]);
      RunCounts(first.state, inputs[1..]);
      BusyCountConcat(m.retries, first.out, Emits(React, first.state, inputs[1..]).out);
    }
  }

  lemma {:induction false} BusyAddsUp(n: nat, out: seq<Output>)
    requires forall o | o in out :: !o.QueueSupl?
    ensures BusyCount(n, out) >= n + One(DsStart(Busy) in out)
    decreases |out|
  {
    if out != [] {
      assert out == [out[0]] + out[1..];
      BusyAddsUp(if out[0] == DsStart(Busy) then n + 1 else n, out[1..]);
    }
  }

  // The fifth BUSY answer in a row leads to a SUPL request within the same step.
  lemma FifthBusyFallsBack(m: Machine, i: Input)
    requires m.isDs && m.retries == MAX_START_DATA_CALL_RETRIES && DsStart(Busy) in React(m, i).out
    ensures exists o :: o in React(m, i).out && o.QueueSupl?
  {
    ReactCounts(m, i);
    if forall o | o in React(m, i).out :: !o.QueueSupl? {
      BusyAddsUp(m.retries, React(m, i).out);
    }
  }

  // Over every run of the data-service machine, of all the BUSY answers at most four have
  // not yet led to a SUPL request.
  lemma RetriesAreBounded(inputs: seq<Input>)
    ensures BusyCount(0, Emits(React, NewMachine(true), inputs).out) <= MAX_START_DATA_CALL_RETRIES
  {
    RunCounts(NewMachine(true), inputs);
  }
}
