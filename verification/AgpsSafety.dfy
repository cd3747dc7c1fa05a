/** What the AGPS state machines of Agps.dfy keep, step by step and over every run. */
module AgpsSafety {

  import opened Runs
  import opened Agps

  // ---------- Facts about the list ----------

  ghost predicate Unique(subs: seq<Subscriber>) {
    forall i, j | 0 <= i < j < |subs| :: subs[i].handle != subs[j].handle
  }

  ghost predicate InactiveWait(subs: seq<Subscriber>) {
    forall s | s in subs :: s.inactive ==> s.waitForClose
  }

  ghost predicate AnyInactive(subs: seq<Subscriber>) {
    exists s :: s in subs && s.inactive
  }

  lemma ListedIsMembership(subs: seq<Subscriber>, h: int)
    ensures Listed(subs, h) <==> exists s :: s in subs && s.handle == h
  {
    if Listed(subs, h) {
      assert subs[IndexOf(subs, h)] in subs;
    }
  }

  lemma AnyActiveIsMembership(subs: seq<Subscriber>)
    ensures AnyActive(subs) <==> exists s :: s in subs && !s.inactive
  {
    if AnyActive(subs) {
      assert subs[FirstActive(subs)] in subs;
    }
  }

  lemma {:induction false} SparedFacts(subs: seq<Subscriber>, whom: Whom)
    ensures forall s :: s in Spared(subs, whom) <==> s in subs && !Meant(whom, s)
    ensures forall s :: s in Chosen(subs, whom) <==> s in subs && Meant(whom, s)
    ensures Unique(subs) ==> Unique(Spared(subs, whom)) && Unique(Chosen(subs, whom))
  {
    if subs != [] {
      SparedFacts(subs[1..], whom);
      assert subs == [subs[0]] + subs[1..];
      assert Unique(subs) ==> Unique(subs[1..]) && forall s | s in subs[1..] :: s.handle != subs[0].handle;
    }
  }

  lemma {:induction false} DeletedFacts(subs: seq<Subscriber>, h: int)
    ensures forall s :: s in Deleted(subs, h) <==> s in subs && s.handle != h
    ensures Unique(subs) ==> Unique(Deleted(subs, h))
  {
    if subs != [] {
      DeletedFacts(subs[1..], h);
      assert subs == [subs[0]] + subs[1..];
      assert Unique(subs) ==> Unique(subs[1..]) && forall s | s in subs[1..] :: s.handle != subs[0].handle;
    }
  }

  // deleteSubscriber, when the subscriber it is given is on the list itself: behind that one
  // it compares with what it reads from the freed object, at each position something else.
  function DeletedByFreed(subs: seq<Subscriber>, h: int, seen: seq<int>): seq<Subscriber>
    requires |seen| == |subs|
  {
    if subs == [] then []
    else if subs[0].handle == h then DeletedByReads(subs[1..], seen[1..])
    else [subs[0]] + DeletedByFreed(subs[1..], h, seen[1..])
  }

  function DeletedByReads(subs: seq<Subscriber>, seen: seq<int>): seq<Subscriber>
    requires |seen| == |subs|
  {
    if subs == [] then []
    else (if subs[0].handle == seen[0] then [] else [subs[0]]) + DeletedByReads(subs[1..], seen[1..])
  }

  // No subscriber behind position k has the handle that is seen at its position.
  ghost predicate NoneSeenBehind(subs: seq<Subscriber>, seen: seq<int>, k: int)
    requires |seen| == |subs|
  {
    forall j | 0 <= j < |subs| && k < j :: subs[j].handle != seen[j]
  }

  lemma BehindInTail(subs: seq<Subscriber>, seen: seq<int>, k: int)
    requires |seen| == |subs| > 0 && -1 <= k
    ensures NoneSeenBehind(subs[1..], seen[1..], k) <==> NoneSeenBehind(subs, seen, k + 1)
  {
    if NoneSeenBehind(subs[1..], seen[1..], k) {
      forall j | 0 <= j < |subs| && k + 1 < j ensures subs[j].handle != seen[j] {
        assert subs[1..][j - 1] == subs[j] && seen[1..][j - 1] == seen[j];
      }
    }
  }

  lemma {:induction false} DeletedByReadsIff(subs: seq<Subscriber>, seen: seq<int>)
    requires |seen| == |subs|
    ensures |DeletedByReads(subs, seen)| <= |subs|
    ensures DeletedByReads(subs, seen) == subs <==> NoneSeenBehind(subs, seen, -1)
  {
    if subs != [] {
      DeletedByReadsIff(subs[1..], seen[1..]);
      BehindInTail(subs, seen, -1);
      assert subs == [subs[0]] + subs[1..];
    }
  }

  lemma {:induction false} NoneDeleted(subs: seq<Subscriber>, h: int)
    requires forall s | s in subs :: s.handle != h
    ensures Deleted(subs, h) == subs
  {
    if subs != [] {
      NoneDeleted(subs[1..], h);
      assert subs[0] in subs && subs == [subs[0]] + subs[1..];
    }
  }

  // It deletes the one subscriber it should, and no other, if and only if no subscriber
  // behind that one has the handle that is read at its position.
  lemma {:induction false} DeletesRightlyIff(subs: seq<Subscriber>, h: int, seen: seq<int>)
    requires Unique(subs) && |seen| == |subs|
    ensures DeletedByFreed(subs, h, seen) == Deleted(subs, h) <==> NoneSeenBehind(subs, seen, IndexOf(subs, h))
  {
    if subs != [] {
      var rest, seen' := subs[1..], seen[1..];
      if subs[0].handle == h {
        assert forall s | s in rest :: s.handle != h;
        NoneDeleted(rest, h);
        DeletedByReadsIff(rest, seen');
        BehindInTail(subs, seen, -1);
        assert Deleted(subs, h) == rest;
      } else {
        DeletesRightlyIff(rest, h, seen');
        BehindInTail(subs, seen, IndexOf(rest, h));
        var x, y := DeletedByFreed(rest, h, seen'), Deleted(rest, h);
        assert ([subs[0]] + x)[1..] == x && ([subs[0]] + y)[1..] == y;
      }
    }
  }

  lemma DeactivatedFacts(subs: seq<Subscriber>, h: int)
    requires Listed(subs, h) && Unique(subs)
    ensures var subs' := Deactivated(subs, h);
      && Unique(subs')
      && (forall s :: s in subs' ==> s in subs || (s.handle == h && s.inactive))
      && (forall s :: s in subs && s.handle != h ==> s in subs')
      && subs[IndexOf(subs, h)].(inactive := true) in subs'
  {
    var k := IndexOf(subs, h);
    var subs' := Deactivated(subs, h);
    assert subs'[k] in subs';
    forall s | s in subs && s.handle != h ensures s in subs' {
      var i :| 0 <= i < |subs| && subs[i] == s;
      assert subs'[i] == s;
    }
  }

  lemma AddedFacts(subs: seq<Subscriber>, s: Subscriber)
    requires Unique(subs)
    ensures Unique(Added(subs, s)) && Listed(Added(subs, s), s.handle)
    ensures forall x :: x in Added(subs, s) <==> x in subs || (x == s && !Listed(subs, s.handle))
    ensures forall h :: Listed(Added(subs, s), h) <==> Listed(subs, h) || h == s.handle
  {
    var subs' := Added(subs, s);
    if !Listed(subs, s.handle) {
      assert subs'[|subs|] == s;
    }
    forall h ensures Listed(subs', h) <==> Listed(subs, h) || h == s.handle {
      ListedIsMembership(subs, h);
      ListedIsMembership(subs', h);
    }
  }

  // ---------- Either machine: no handle is listed twice ----------

  lemma LeaveKeepsUnique(m: Machine, h: int)
    requires Unique(m.subscribers) && Listed(m.subscribers, h)
    ensures Unique(Leave(m, h).state.subscribers)
  {
    DeactivatedFacts(m.subscribers, h);
    DeletedFacts(m.subscribers, h);
  }

  lemma UnsubscribeKeepsUnique(m: Machine, h: int, env: Env)
    requires Unique(m.subscribers) && Listed(m.subscribers, h)
    ensures Unique(OnUnsubscribe(m, h, env).state.subscribers)
  {
    LeaveKeepsUnique(m, h);
    var subs := OnUnsubscribe(m, h, env).state.subscribers;
    assert subs == m.subscribers || subs == Leave(m, h).state.subscribers;
  }

  lemma ClosedKeepsUnique(m: Machine, env: Env)
    requires Unique(m.subscribers)
    ensures Unique(Closed(m, env).state.subscribers)
  {
    SparedFacts(m.subscribers, Inactives);
    ClosedSubscribers(m, env);
  }

  lemma ClosedSubscribers(m: Machine, env: Env)
    ensures Closed(m, env).state.subscribers == Spared(m.subscribers, Inactives)
  {}

  // Any event, a modem restart included.
  lemma ReactKeepsUnique(m: Machine, i: Input)
    requires Unique(m.subscribers)
    ensures Unique(React(m, i).state.subscribers)
  {
    match i
    case Request(h, wait, env) =>
      AddedFacts(m.subscribers, Subscriber(h, wait, false));
      assert React(m, i).state.subscribers == Added(m.subscribers, Subscriber(h, wait, false));
    case Quit(h, env) =>
      if Listed(m.subscribers, h) {
        UnsubscribeKeepsUnique(m, h, env);
      }
    case Granted => assert React(m, i).state.subscribers == m.subscribers;
    case Lost(env) => ReportKeepsUnique(m, env);
    case Denied(env) => ReportKeepsUnique(m, env);
    case Retry => assert React(m, i).state.subscribers == m.subscribers;
    case Drop => assert React(m, i).state.subscribers == [];
  }

  lemma ReportKeepsUnique(m: Machine, env: Env)
    requires Unique(m.subscribers)
    ensures Unique(OnRelease(m, env).state.subscribers) && Unique(OnDeny(m, env).state.subscribers)
  {
    ClosedKeepsUnique(m, env);
    SparedByAll(m.subscribers);
  }

  lemma ReactKeepsKind(m: Machine, i: Input)
    ensures React(m, i).state.isDs == m.isDs
  {}

  lemma {:induction false} RunKeepsUnique(m: Machine, inputs: seq<Input>)
    requires Unique(m.subscribers)
    ensures var m' := Emits(React, m, inputs).state; Unique(m'.subscribers) && m'.isDs == m.isDs
    decreases |inputs|
  {
    if inputs != [] {
      ReactKeepsUnique(m, inputs[0]);
      ReactKeepsKind(m, inputs[0]);
      RunKeepsUnique(React(m, inputs[0]).state, inputs[1..]);
    }
  }

  // ---------- The base machine: state and list agree ----------

  // Released has no subscribers, Pending and Acquired have an active one, Releasing an
  // inactive one; whoever is inactive waits for the close; no handle is listed twice.
  ghost predicate Inv(m: Machine) {
    && !m.isDs && Unique(m.subscribers) && InactiveWait(m.subscribers)
    && match m.state
       case Released => m.subscribers == []
       case Pending => AnyActive(m.subscribers)
       case Acquired => AnyActive(m.subscribers)
       case Releasing => AnyInactive(m.subscribers)
  }

  lemma SubscribeKeepsInv(m: Machine, h: int, wait: bool, env: Env)
    requires Inv(m)
    ensures Inv(OnSubscribe(m, Subscriber(h, wait, false), env).state)
  {
    var s := Subscriber(h, wait, false);
    AddedFacts(m.subscribers, s);
    AnyActiveIsMembership(m.subscribers);
    AnyActiveIsMembership(Added(m.subscribers, s));
  }

  lemma LeaveFacts(m: Machine, h: int)
    requires Unique(m.subscribers) && InactiveWait(m.subscribers) && Listed(m.subscribers, h)
    ensures var m' := Leave(m, h).state;
      && m'.isDs == m.isDs && m'.state == m.state && m'.retries == m.retries
      && Unique(m'.subscribers) && InactiveWait(m'.subscribers)
      && (AnyInactive(m.subscribers) ==> AnyInactive(m'.subscribers))
      && (m'.subscribers != [] ==> AnyActive(m'.subscribers) || AnyInactive(m'.subscribers))
  {
    var subs' := Leave(m, h).state.subscribers;
    if m.subscribers[IndexOf(m.subscribers, h)].waitForClose {
      DeactivatedKeeps(m.subscribers, h);
    } else {
      DeletedKeeps(m.subscribers, h);
    }
    if subs' != [] {
      ActiveOrInactive(subs');
    }
  }

  lemma ActiveOrInactive(subs: seq<Subscriber>)
    requires subs != []
    ensures AnyActive(subs) || AnyInactive(subs)
  {
    AnyActiveIsMembership(subs);
    assert subs[0] in subs;
  }

  lemma DeactivatedKeeps(subs: seq<Subscriber>, h: int)
    requires Unique(subs) && InactiveWait(subs) && Listed(subs, h) && subs[IndexOf(subs, h)].waitForClose
    ensures var subs' := Deactivated(subs, h);
      Unique(subs') && InactiveWait(subs') && AnyInactive(subs')
  {
    DeactivatedFacts(subs, h);
  }

  lemma DeletedKeeps(subs: seq<Subscriber>, h: int)
    requires Unique(subs) && InactiveWait(subs) && Listed(subs, h) && !subs[IndexOf(subs, h)].waitForClose
    ensures var subs' := Deleted(subs, h);
      Unique(subs') && InactiveWait(subs') && (AnyInactive(subs) ==> AnyInactive(subs'))
  {
    DeletedFacts(subs, h);
    if AnyInactive(subs) {
      var s :| s in subs && s.inactive;
      if s.handle == h {
        SameHandle(subs, s, h);
        assert false;
      }
      assert s in Deleted(subs, h);
    }
  }

  // The one subscriber with a handle is the one found by it.
  lemma SameHandle(subs: seq<Subscriber>, s: Subscriber, h: int)
    requires Unique(subs) && s in subs && s.handle == h
    ensures Listed(subs, h) && subs[IndexOf(subs, h)] == s
  {}

  lemma UnsubscribeKeepsInv(m: Machine, h: int, env: Env)
    requires Inv(m) && Listed(m.subscribers, h)
    ensures Inv(OnUnsubscribe(m, h, env).state)
  {
    LeaveFacts(m, h);
  }

  lemma ClosedKeepsInv(m: Machine, env: Env)
    requires Inv(m)
    ensures Inv(Closed(m, env).state)
  {
    SparedFacts(m.subscribers, Inactives);
    var rest := Spared(m.subscribers, Inactives);
    AnyActiveIsMembership(rest);
    if rest != [] {
      assert rest[0] in rest;
    }
  }

  lemma SparedByAll(subs: seq<Subscriber>)
    ensures Spared(subs, All) == [] && Chosen(subs, All) == subs
  {}

  lemma ReactKeepsInv(m: Machine, i: Input)
    requires Inv(m) && i != Drop
    ensures Inv(React(m, i).state)
  {
    SparedByAll(m.subscribers);
    match i
    case Request(h, wait, env) => SubscribeKeepsInv(m, h, wait, env);
    case Quit(h, env) =>
      if Listed(m.subscribers, h) {
        UnsubscribeKeepsInv(m, h, env);
      }
    case Granted =>
    case Lost(env) => ClosedKeepsInv(m, env);
    case Denied(env) => ClosedKeepsInv(m, env);
    case Retry =>
  }

  lemma {:induction false} RunKeepsInv(m: Machine, inputs: seq<Input>)
    requires Inv(m) && Drop !in inputs
    ensures Inv(Emits(React, m, inputs).state)
    decreases |inputs|
  {
    if inputs != [] {
      ReactKeepsInv(m, inputs[0]);
      RunKeepsInv(React(m, inputs[0]).state, inputs[1..]);
    }
  }

  // Over every run without a modem restart.
  lemma StateAndListAgree(inputs: seq<Input>)
    requires Drop !in inputs
    ensures Inv(Emits(React, NewMachine(false), inputs).state)
  {
    RunKeepsInv(NewMachine(false), inputs);
  }

  // ---------- The base machine: one data connection at a time ----------

  // The connection as the framework sees it: from what it reports and what it is sent.
  datatype Conn = Down | Asked | Up | Misused

  function Told(c: Conn, i: Input): Conn {
    match i
    case Granted => if c == Asked then Up else c
    case Denied(_) => if c == Asked then Down else c
    case Lost(_) => if c == Up then Down else c
    case _ => c
  }

  // A request is legal only when no connection is outstanding, a release only when one is.
  function Sent(c: Conn, out: seq<Output>): Conn
    decreases |out|
  {
    if out == [] then c
    else
      var c' := match out[0]
        case RequestConn => if c == Down then Asked else Misused
        case ReleaseConn => if c == Asked || c == Up then Down else Misused
        case _ => c;
      Sent(c', out[1..])
  }

  function Watched(c: Conn, m: Machine, inputs: seq<Input>): Conn
    decreases |inputs|
  {
    if inputs == [] then c
    else
      var r := React(m, inputs[0]);
      Watched(Sent(Told(c, inputs[0]), r.out), r.state, inputs[1..])
  }

  // The state of a base machine tells exactly what is outstanding.
  function ConnOf(state: AgpsState): Conn {
    match state
    case Released => Down
    case Pending => Asked
    case Acquired => Up
    case Releasing => Down
  }

  lemma {:induction false} SentNotices(c: Conn, event: AgpsEvent, subs: seq<Subscriber>, rest: seq<Output>)
    ensures Sent(c, Notices(false, event, subs) + rest) == Sent(c, rest)
  {
    if subs == [] {
      assert Notices(false, event, subs) + rest == rest;
    } else {
      var n := Notice(false, event, subs[0].handle);
      var ns := Notices(false, event, subs[1..]);
      SentNotices(c, event, subs[1..], rest);
      assert n + ns + rest == n + (ns + rest);
      if n != [] {
        assert (n + (ns + rest))[1..] == ns + rest;
      } else {
        assert n + (ns + rest) == ns + rest;
      }
    }
  }

  lemma SentNotice(c: Conn, event: AgpsEvent, h: int, rest: seq<Output>)
    ensures Sent(c, Notice(false, event, h) + rest) == Sent(c, rest)
    ensures Sent(c, Notice(false, event, h)) == c
  {
    var n := Notice(false, event, h);
    if n == [] {
      assert n + rest == rest;
    } else {
      assert (n + rest)[1..] == rest;
      assert n[1..] == [];
    }
  }

  lemma ClosedWatched(m: Machine, env: Env)
    requires !m.isDs && m.state == Releasing
    ensures Sent(Down, Closed(m, env).out) == ConnOf(Closed(m, env).state.state)
  {
    var told := NotifyAll(m, Release, true, Inactives);
    SentNotices(Down, Release, Chosen(m.subscribers, Inactives), [RequestConn]);
    SentNotices(Down, Release, Chosen(m.subscribers, Inactives), []);
    assert told.out + [] == told.out;
  }

  lemma UnsubscribeWatched(m: Machine, h: int, env: Env)
    requires !m.isDs && Listed(m.subscribers, h)
    ensures Sent(ConnOf(m.state), OnUnsubscribe(m, h, env).out) == ConnOf(OnUnsubscribe(m, h, env).state.state)
  {
    SentNotice(ConnOf(m.state), Unsubscribe, h, [ReleaseConn]);
    assert [] + [ReleaseConn] == [ReleaseConn];
  }

  lemma NoticesWatched(c: Conn, event: AgpsEvent, subs: seq<Subscriber>)
    ensures Sent(c, Notices(false, event, subs)) == c
  {
    SentNotices(c, event, subs, []);
    assert Notices(false, event, subs) + [] == Notices(false, event, subs);
  }

  lemma ReactWatched(m: Machine, i: Input)
    requires !m.isDs
    ensures Sent(Told(ConnOf(m.state), i), React(m, i).out) == ConnOf(React(m, i).state.state)
    ensures !React(m, i).state.isDs
  {
    match i
    case Request(h, wait, env) => SentNotice(ConnOf(m.state), Grant, h, []);
    case Quit(h, env) =>
      if Listed(m.subscribers, h) {
        UnsubscribeWatched(m, h, env);
      }
    case Granted => NoticesWatched(Up, Grant, Chosen(m.subscribers, Actives));
    case Lost(env) => LostWatched(m, env);
    case Denied(env) => DeniedWatched(m, env);
    case Retry =>
    case Drop =>
  }

  lemma LostWatched(m: Machine, env: Env)
    requires !m.isDs
    ensures Sent(Told(ConnOf(m.state), Lost(env)), OnRelease(m, env).out) == ConnOf(OnRelease(m, env).state.state)
  {
    if m.state == Releasing {
      ClosedWatched(m, env);
    }
    NoticesWatched(Down, Release, Chosen(m.subscribers, All));
  }

  lemma DeniedWatched(m: Machine, env: Env)
    requires !m.isDs
    ensures Sent(Told(ConnOf(m.state), Denied(env)), OnDeny(m, env).out) == ConnOf(OnDeny(m, env).state.state)
  {
    if m.state == Releasing {
      ClosedWatched(m, env);
    }
    NoticesWatched(Down, Deny, Chosen(m.subscribers, All));
  }

  lemma {:induction false} RunWatched(m: Machine, inputs: seq<Input>)
    requires !m.isDs
    ensures Watched(ConnOf(m.state), m, inputs) == ConnOf(Emits(React, m, inputs).state.state)
    decreases |inputs|
  {
    if inputs != [] {
      ReactWatched(m, inputs[0]);
      RunWatched(React(m, inputs[0]).state, inputs[1..]);
    }
  }

  // Over every run, modem restarts included: a connection is never requested while one is
  // outstanding and never released when none is, and it is outstanding exactly in the
  // states Pending and Acquired.
  lemma OneConnectionAtATime(inputs: seq<Input>)
    ensures var conn := Watched(Down, NewMachine(false), inputs);
      var state := Emits(React, NewMachine(false), inputs).state.state;
      conn != Misused && (conn != Down <==> state == Pending || state == Acquired)
  {
    RunWatched(NewMachine(false), inputs);
  }
}
