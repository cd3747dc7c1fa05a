/** AgpsStateMachine and DSStateMachine of gps/gnss/Agps.cpp, with their state changed in
    place. Every method is proved equal to the function of Agps that specifies it. The
    choice of an overridden method is made by isDs. */
module AgpsStateMachine {

  import opened Runs
  import opened Agps

  class AgpsStateMachine {
    const isDs: bool
    var mState: AgpsState
    var mSubscriberList: seq<Subscriber>
    var mRetries: nat
    // The calls made so far to the framework, the modem, the data-service client, the
    // message queue and the timer.
    var out: seq<Output>

    ghost function Model(): Machine
      reads this
    {
      Machine(isDs, mState, mSubscriberList, mRetries)
    }

    ghost function Now(): Reaction
      reads this
    {
      Effect(Model(), out)
    }

    constructor (isDs: bool)
      ensures Now() == Effect(NewMachine(isDs), [])
    {
      this.isDs := isDs;
      mState, mSubscriberList, mRetries, out := Released, [], 0, [];
    }

    // ---------- The list ----------

    method GetSubscriber(connHandle: int) returns (k: nat)
      ensures k == IndexOf(mSubscriberList, connHandle)
    {
      k := 0;
      while k < |mSubscriberList| && mSubscriberList[k].handle != connHandle
        invariant k <= |mSubscriberList|
        invariant forall i | 0 <= i < k :: mSubscriberList[i].handle != connHandle
      {
        k := k + 1;
      }
    }

    method GetFirstActive() returns (k: nat)
      ensures k == FirstActive(mSubscriberList)
    {
      k := 0;
      while k < |mSubscriberList| && mSubscriberList[k].inactive
        invariant k <= |mSubscriberList|
        invariant forall i | 0 <= i < k :: mSubscriberList[i].inactive
      {
        k := k + 1;
      }
    }

    method AddSubscriber(s: Subscriber)
      modifies `mSubscriberList
      ensures mSubscriberList == Added(old(mSubscriberList), s)
    {
      var k := GetSubscriber(s.handle);
      if k == |mSubscriberList| {
        mSubscriberList := mSubscriberList + [s];
      }
    }

    method DeleteSubscriber(handle: int)
      modifies `mSubscriberList
      ensures mSubscriberList == Deleted(old(mSubscriberList), handle)
    {
      var it := 0;
      while it < |mSubscriberList|
        invariant it <= |mSubscriberList|
        invariant Deleted(old(mSubscriberList), handle)
               == mSubscriberList[..it] + Deleted(mSubscriberList[it..], handle)
        decreases |mSubscriberList| - it
      {
        var rest := mSubscriberList[it..];
        assert rest[1..] == mSubscriberList[it + 1..];
        if mSubscriberList[it].handle == handle {
          mSubscriberList := mSubscriberList[..it] + mSubscriberList[it + 1..];
          assert mSubscriberList[it..] == rest[1..];
        } else {
          assert mSubscriberList[..it] + [rest[0]] == mSubscriberList[..it + 1];
          it := it + 1;
        }
      }
    }

    method DropAllSubscribers()
      modifies `mSubscriberList
      ensures Model() == old(Model()).(subscribers := [])
    {
      while mSubscriberList != []
        decreases |mSubscriberList|
      {
        mSubscriberList := mSubscriberList[1..];
      }
    }

    // ---------- Notices ----------

    method NotifyEventToSubscriber(event: AgpsEvent, handle: int, delete: bool)
      modifies this
      ensures var r := Onto(old(out), NotifyOne(old(Model()), event, handle));
        Now() == if delete then r.(state := r.state.(subscribers := Deleted(r.state.subscribers, handle))) else r
    {
      match event {
        case Grant =>
          out := out + [OpenStatus(handle, true)];
        case Deny =>
          if isDs {
            mRetries := 0;
            out := out + [QueueSupl(handle)];
          } else {
            out := out + [OpenStatus(handle, false)];
          }
        case Unsubscribe =>
          out := out + [CloseStatus(handle, true)];
        case Release =>
          if isDs {
            out := out + [DsClose];
          }
          out := out + [CloseStatus(handle, true)];
        case Subscribe =>
      }
      assert out == old(out) + Notice(isDs, event, handle);
      if delete {
        DeleteSubscriber(handle);
      }
    }

    // What the loop over the list comes to when it has made some calls, has kept some
    // subscribers, and has the rest ahead of it.
    ghost function LoopEnd(out: seq<Output>, kept: seq<Subscriber>, rest: seq<Subscriber>, retries: nat,
                           event: AgpsEvent, delete: bool, whom: Whom): (seq<Output>, seq<Subscriber>, nat)
    {
      var chosen := Chosen(rest, whom);
      (out + Notices(isDs, event, chosen),
       kept + (if delete then Spared(rest, whom) else rest),
       if chosen != [] && isDs && event == Deny then 0 else retries)
    }

    lemma LoopEndStep(out: seq<Output>, kept: seq<Subscriber>, rest: seq<Subscriber>, retries: nat,
                      event: AgpsEvent, delete: bool, whom: Whom)
      requires rest != []
      ensures LoopEnd(out, kept, rest, retries, event, delete, whom) ==
        if Meant(whom, rest[0]) then
          LoopEnd(out + Notice(isDs, event, rest[0].handle), if delete then kept else kept + [rest[0]], rest[1..],
                  if isDs && event == Deny then 0 else retries, event, delete, whom)
        else LoopEnd(out, kept + [rest[0]], rest[1..], retries, event, delete, whom)
    {
      var x, tail := rest[0], rest[1..];
      assert rest == [x] + tail;
      Assoc(kept, [x], tail);
      Assoc(kept, [x], Spared(tail, whom));
      if Meant(whom, x) {
        assert Chosen(rest, whom)[1..] == Chosen(tail, whom);
        Assoc(out, Notice(isDs, event, x.handle), Notices(isDs, event, Chosen(tail, whom)));
        assert Spared(rest, whom) == Spared(tail, whom);
      } else {
        assert Chosen(rest, whom) == Chosen(tail, whom);
      }
    }

    lemma LoopEndDone(out: seq<Output>, kept: seq<Subscriber>, retries: nat,
                      event: AgpsEvent, delete: bool, whom: Whom)
      ensures LoopEnd(out, kept, [], retries, event, delete, whom) == (out, kept, retries)
    {
      assert out + [] == out && kept + [] == kept;
    }

    lemma LoopEndIsNotifyAll(m: Machine, out: seq<Output>, event: AgpsEvent, delete: bool, whom: Whom)
      requires m.isDs == isDs
      ensures var r := Onto(out, NotifyAll(m, event, delete, whom));
        && LoopEnd(out, [], m.subscribers, m.retries, event, delete, whom)
           == (r.out, r.state.subscribers, r.state.retries)
        && r.state.isDs == m.isDs && r.state.state == m.state
    {
      var was := m.subscribers;
      assert [] + was == was && [] + Spared(was, whom) == Spared(was, whom);
    }

    ghost function Ahead(it: nat, event: AgpsEvent, delete: bool, whom: Whom): (seq<Output>, seq<Subscriber>, nat)
      requires it <= |mSubscriberList|
      reads this
    {
      LoopEnd(out, mSubscriberList[..it], mSubscriberList[it..], mRetries, event, delete, whom)
    }

    method NotifyAllSubscribers(event: AgpsEvent, delete: bool, whom: Whom)
      modifies this
      ensures Now() == Onto(old(out), NotifyAll(old(Model()), event, delete, whom))
    {
      LoopEndIsNotifyAll(Model(), out, event, delete, whom);
      var it: nat := 0;
      assert mSubscriberList[..it] == [] && mSubscriberList[it..] == mSubscriberList;
      while it < |mSubscriberList|
        invariant it <= |mSubscriberList| && mState == old(mState)
        invariant Ahead(it, event, delete, whom) == old(Ahead(0, event, delete, whom))
        decreases |mSubscriberList| - it
      {
        it := NotifyAt(it, event, delete, whom);
      }
      assert mSubscriberList[..it] == mSubscriberList && mSubscriberList[it..] == [];
      LoopEndDone(out, mSubscriberList, mRetries, event, delete, whom);
    }

    // The body of that loop; next is the iterator afterwards.
    method NotifyAt(it: nat, event: AgpsEvent, delete: bool, whom: Whom) returns (next: nat)
      requires it < |mSubscriberList|
      modifies this
      ensures next <= |mSubscriberList| && mState == old(mState)
      ensures |mSubscriberList| - next < old(|mSubscriberList|) - it
      ensures Ahead(next, event, delete, whom) == old(Ahead(it, event, delete, whom))
    {
      ghost var was := mSubscriberList;
      var subscriber := mSubscriberList[it];
      LoopEndStep(out, was[..it], was[it..], mRetries, event, delete, whom);
      assert was[it..][1..] == was[it + 1..] && was[..it] + [subscriber] == was[..it + 1];
      next := it + 1;
      if Meant(whom, subscriber) {
        NotifyEventToSubscriber(event, subscriber.handle, false);
        if delete {
          mSubscriberList := mSubscriberList[..it] + mSubscriberList[it + 1..];
          assert mSubscriberList[..it] == was[..it] && mSubscriberList[it..] == was[it + 1..];
          next := it;
        }
      }
    }

    // ---------- The connection ----------

    method RequestOrReleaseDataConn(request: bool, env: Env) returns (ok: bool)
      modifies this
      ensures var a := Connect(old(Model()), request, env);
        ok == a.ok && Now() == Onto(old(out), a.reaction)
    {
      if !isDs {
        out := out + [if request then RequestConn else ReleaseConn];
        return true;
      }
      if !request && env.hasStop {
        out := out + [DsStop];
        return true;
      }
      var k := GetFirstActive();
      if k == |mSubscriberList| {
        return false;
      }
      var first := mSubscriberList[k].handle;
      if !env.hasStart {
        NotifyEventToSubscriber(Deny, first, false);
        return false;
      }
      out := out + [DsStart(env.answer)];
      match env.answer {
        case Busy =>
          mRetries := mRetries + 1;
          if mRetries > MAX_START_DATA_CALL_RETRIES {
            NotifyEventToSubscriber(Deny, first, false);
          } else {
            out := out + [RetryTimer];
          }
          ok := false;
        case Unsupported =>
          NotifyEventToSubscriber(Deny, first, false);
          ok := false;
        case Success =>
          ok := true;
        case OtherError =>
          ok := false;
      }
    }

    // ---------- The events ----------

    method ProcessAgpsEventSubscribe(current: Subscriber, env: Env)
      modifies this
      ensures Now() == Onto(old(out), OnSubscribe(old(Model()), current, env))
    {
      match mState {
        case Released =>
          AddSubscriber(current);
          var ok := RequestOrReleaseDataConn(true, env);
          if ok {
            mState := Pending;
          }
        case Acquired =>
          NotifyEventToSubscriber(Grant, current.handle, false);
          AddSubscriber(current);
        case Pending =>
          AddSubscriber(current);
        case Releasing =>
          AddSubscriber(current);
      }
    }

    // The part that Pending, Acquired and Releasing share.
    method LeaveList(handle: int)
      requires Listed(mSubscriberList, handle)
      modifies this
      ensures Now() == Onto(old(out), Leave(old(Model()), handle))
    {
      var k := GetSubscriber(handle);
      if mSubscriberList[k].waitForClose {
        mSubscriberList := mSubscriberList[k := mSubscriberList[k].(inactive := true)];
      } else {
        NotifyEventToSubscriber(Unsubscribe, handle, true);
      }
    }

    method ProcessAgpsEventUnsubscribe(handle: int, env: Env)
      requires Listed(mSubscriberList, handle)
      modifies this
      ensures Now() == Onto(old(out), OnUnsubscribe(old(Model()), handle, env))
    {
      match mState {
        case Released =>
          NotifyEventToSubscriber(Unsubscribe, handle, false);
        case Releasing =>
          LeaveList(handle);
          if mSubscriberList == [] {
            mState := Released;
          }
        case _ =>
          LeaveConnection(handle, env);
      }
    }

    // The part that Pending and Acquired share.
    method LeaveConnection(handle: int, env: Env)
      requires Listed(mSubscriberList, handle) && (mState == Pending || mState == Acquired)
      modifies this
      ensures Now() == Onto(old(out), OnUnsubscribe(old(Model()), handle, env))
    {
      LeaveList(handle);
      ghost var left := Leave(old(Model()), handle);
      var active := GetFirstActive();
      if mSubscriberList == [] {
        mState := Released;
        var _ := RequestOrReleaseDataConn(false, env);
        Assoc(old(out), left.out, Connect(left.state.(state := Released), false, env).reaction.out);
      } else if active == |mSubscriberList| {
        mState := Releasing;
        var _ := RequestOrReleaseDataConn(false, env);
        Assoc(old(out), left.out, Connect(left.state.(state := Releasing), false, env).reaction.out);
      }
    }

    method ProcessAgpsEventGranted()
      modifies this
      ensures Now() == Onto(old(out), OnGrant(old(Model())))
    {
      if mState == Pending {
        mState := Acquired;
        NotifyAllSubscribers(Grant, false, Actives);
      }
    }

    // What a release and a denial do alike while the connection is being released.
    method CloseConnection(env: Env)
      modifies this
      ensures Now() == Onto(old(out), Closed(old(Model()), env))
    {
      NotifyAllSubscribers(Release, true, Inactives);
      var active := GetFirstActive();
      if active < |mSubscriberList| {
        mState := Pending;
        var _ := RequestOrReleaseDataConn(true, env);
      } else {
        mState := Released;
      }
    }

    method ProcessAgpsEventReleased(env: Env)
      modifies this
      ensures Now() == Onto(old(out), OnRelease(old(Model()), env))
    {
      match mState {
        case Released =>
        case Acquired =>
          mState := Released;
          NotifyAllSubscribers(Release, true, All);
        case Releasing =>
          CloseConnection(env);
        case Pending =>
      }
    }

    method ProcessAgpsEventDenied(env: Env)
      modifies this
      ensures Now() == Onto(old(out), OnDeny(old(Model()), env))
    {
      match mState {
        case Released =>
        case Acquired =>
        case Releasing =>
          CloseConnection(env);
        case Pending =>
          mState := Released;
          NotifyAllSubscribers(Deny, true, All);
      }
    }

    method RetryCallback()
      modifies `out
      ensures Now() == Onto(old(out), React(old(Model()), Retry))
      requires isDs
    {
      var k := GetFirstActive();
      if k < |mSubscriberList| {
        out := out + [QueueEmergency(mSubscriberList[k].handle)];
      }
    }

    // What reaches a machine from the manager, the framework, the data-service client, the
    // retry timer and the modem. Only a data-service machine starts the retry timer.
    method Process(input: Input)
      requires input == Retry ==> isDs
      modifies this
      ensures Now() == Onto(old(out), React(old(Model()), input))
    {
      match input {
        case Request(handle, wait, env) =>
          ProcessAgpsEventSubscribe(Subscriber(handle, wait, false), env);
        case Quit(handle, env) =>
          var k := GetSubscriber(handle);
          if k < |mSubscriberList| {
            ProcessAgpsEventUnsubscribe(handle, env);
          }
        case Granted =>
          ProcessAgpsEventGranted();
        case Lost(env) =>
          // The data-service client reports a failed set-up as a release.
          if isDs && mState == Pending {
            ProcessAgpsEventDenied(env);
          } else {
            ProcessAgpsEventReleased(env);
          }
        case Denied(env) =>
          ProcessAgpsEventDenied(env);
        case Retry =>
          RetryCallback();
        case Drop =>
          DropAllSubscribers();
      }
    }
  }
}
