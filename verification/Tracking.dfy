/** The tracking multiplexer of gps/gnss/GnssAdapter.cpp: many client sessions share one
    engine, which runs at one interval. */
module Tracking {

  import opened Wrappers

  type Client = nat
  datatype Key = Key(client: Client, id: nat)

  // A size of zero marks options that were never filled in.
  datatype Options = Options(size: nat, minInterval: nat, mode: int)

  const NO_OPTIONS := Options(0, 0, 0)

  datatype Error = Success | GeneralFailure | CallbackMissing | InvalidParameter

  // The calls made to the engine, and its answers.
  datatype EngineCall = StartFix(options: Options, ok: bool) | StopFix(ok: bool)

  datatype Response = Response(client: Client, error: Error, id: nat)

  type Sessions = map<Key, Options>

  // ---------- What the engine owes the sessions ----------

  ghost predicate IsMinimum(interval: nat, sessions: Sessions) {
    && (exists k :: k in sessions && sessions[k].minInterval == interval)
    && (forall k | k in sessions :: interval <= sessions[k].minInterval)
  }

  // The engine runs exactly when there is a session, at the smallest interval of all.
  ghost predicate Serves(engine: Option<Options>, sessions: Sessions) {
    if engine.None? then sessions == map[] else IsMinimum(engine.value.minInterval, sessions)
  }

  ghost predicate FilledIn(sessions: Sessions) {
    forall k | k in sessions :: sessions[k].size != 0
  }

  // o is what a search for the smallest interval among some sessions may come to: on a tie
  // any of the smallest.
  ghost predicate IsSmallest(o: Options, sessions: Sessions) {
    if sessions == map[] then o == NO_OPTIONS
    else
      && (exists k :: k in sessions && sessions[k] == o)
      && (forall k | k in sessions :: o.minInterval <= sessions[k].minInterval)
  }

  // Starting: it is enough to restart the engine when the new interval is strictly smaller.
  lemma ServesAfterStart(engine: Option<Options>, sessions: Sessions, k: Key, o: Options, smallest: Options)
    requires Serves(engine, sessions) && IsSmallest(smallest, sessions) && k !in sessions
    ensures Serves(if sessions == map[] || o.minInterval < smallest.minInterval then Some(o) else engine,
                   sessions[k := o])
  {
    var sessions' := sessions[k := o];
    assert k in sessions' && sessions'[k] == o;
    if sessions != map[] && o.minInterval >= smallest.minInterval {
      var j :| j in sessions && sessions[j].minInterval == engine.value.minInterval;
      assert sessions'[j] == sessions[j];
    }
  }

  // Updating: the engine is restarted with the new options, with the smallest of the other
  // sessions, or not at all.
  function AfterUpdate(engine: Option<Options>, was: Options, o: Options, others: Options): Option<Options> {
    if o.minInterval < others.minInterval then Some(o)
    else if was.minInterval < others.minInterval then Some(others)
    else engine
  }

  lemma ServesAfterUpdate(engine: Option<Options>, sessions: Sessions, k: Key, o: Options, others: Options)
    requires Serves(engine, sessions) && k in sessions && sessions - {k} != map[]
    requires IsSmallest(others, sessions - {k})
    ensures Serves(AfterUpdate(engine, sessions[k], o, others), sessions[k := o])
  {
    var sessions' := sessions[k := o];
    var rest := sessions - {k};
    var j :| j in rest && rest[j] == others;
    assert sessions'[j] == others && sessions'[k] == o;
    forall i | i in sessions' && i != k ensures others.minInterval <= sessions'[i].minInterval {
      assert i in rest;
    }
    if !(o.minInterval < others.minInterval) && !(sessions[k].minInterval < others.minInterval) {
      assert engine.value.minInterval == others.minInterval by {
        assert sessions[j] == others;
        var i :| i in sessions && sessions[i].minInterval == engine.value.minInterval;
        assert i == k || i in rest;
      }
    }
  }

  // Of the two candidates the one that the engine is restarted with is the fastest.
  lemma SmallestAfterUpdate(sessions: Sessions, k: Key, o: Options, others: Options)
    requires k in sessions && sessions - {k} != map[] && IsSmallest(others, sessions - {k})
    ensures IsSmallest(if o.minInterval < others.minInterval then o else others, sessions[k := o])
  {
    var sessions', rest := sessions[k := o], sessions - {k};
    var j :| j in rest && rest[j] == others;
    assert sessions'[j] == others && sessions'[k] == o;
    forall i | i in sessions' && i != k ensures others.minInterval <= sessions'[i].minInterval {
      assert i in rest;
    }
  }

  function AfterStop(engine: Option<Options>, was: Options, others: Options): Option<Options> {
    if was.minInterval < others.minInterval then Some(others) else engine
  }

  lemma ServesAfterStop(engine: Option<Options>, sessions: Sessions, k: Key, others: Options)
    requires Serves(engine, sessions) && k in sessions && sessions - {k} != map[]
    requires IsSmallest(others, sessions - {k})
    ensures Serves(AfterStop(engine, sessions[k], others), sessions - {k})
  {
    var rest := sessions - {k};
    var j :| j in rest && rest[j] == others;
    assert sessions[j] == others;
    var i :| i in sessions && sessions[i].minInterval == engine.value.minInterval;
    if !(sessions[k].minInterval < others.minInterval) {
      assert i == k || i in rest;
      assert engine.value.minInterval == others.minInterval;
    }
  }

  // From some call on, the engine refused one.
  ghost predicate Refused(calls: seq<EngineCall>, start: nat) {
    exists n :: start <= n < |calls| && !calls[n].ok
  }

  lemma RefusedLater(before: seq<EngineCall>, calls: seq<EngineCall>, start: nat)
    requires before <= calls && start <= |before|
    ensures Refused(before, start) || Refused(calls, |before|) ==> Refused(calls, start)
  {
    if Refused(before, start) {
      var n :| start <= n < |before| && !before[n].ok;
      assert !calls[n].ok;
    }
  }

  ghost predicate Kept(sessions: Sessions, from: Sessions) {
    forall k | k in sessions :: k in from && sessions[k] == from[k]
  }

  lemma OnlySession(sessions: Sessions, k: Key)
    requires k in sessions
    ensures |sessions| == 1 <==> sessions - {k} == map[]
    ensures |sessions| == 1 ==> sessions == map[k := sessions[k]]
  {
    assert (sessions - {k}).Keys == sessions.Keys - {k};
    if |sessions| == 1 {
      assert |sessions.Keys - {k}| == 0;
      assert sessions.Keys == {k};
    }
    if sessions - {k} == map[] {
      assert sessions.Keys == {k};
      assert |sessions| == |sessions.Keys|;
    }
  }

  // ---------- The adapter ----------

  class GnssAdapter {
    var mTrackingSessions: Sessions
    // The engine: off, or running with some options.
    var engine: Option<Options>
    var calls: seq<EngineCall>
    var responses: seq<Response>
    // Whether the engine takes its n-th call. What it answers is not known to the adapter.
    const takes: nat -> bool

    ghost predicate Valid()
      reads this
    {
      Serves(engine, mTrackingSessions) && FilledIn(mTrackingSessions)
    }

    constructor (takes: nat -> bool)
      ensures Valid() && mTrackingSessions == map[] && calls == [] && responses == [] && this.takes == takes
    {
      this.takes := takes;
      mTrackingSessions, engine, calls, responses := map[], None, [], [];
    }

    // An engine that does not take a call goes on as it was.
    method StartTracking(options: Options) returns (err: Error)
      modifies `engine, `calls
      ensures err == if takes(old(|calls|)) then Success else GeneralFailure
      ensures engine == if err == Success then Some(options) else old(engine)
      ensures calls == old(calls) + [StartFix(options, err == Success)]
    {
      var ok := takes(|calls|);
      calls := calls + [StartFix(options, ok)];
      if ok {
        engine := Some(options);
      }
      err := if ok then Success else GeneralFailure;
    }

    method StopTracking() returns (err: Error)
      modifies `engine, `calls
      ensures err == if takes(old(|calls|)) then Success else GeneralFailure
      ensures engine == if err == Success then None else old(engine)
      ensures calls == old(calls) + [StopFix(err == Success)]
    {
      var ok := takes(|calls|);
      calls := calls + [StopFix(ok)];
      if ok {
        engine := None;
      }
      err := if ok then Success else GeneralFailure;
    }

    // The loop that four methods of the source contain: the options with the smallest
    // interval of all sessions but one. Sessions are visited in any order.
    method FindSmallest(skip: Option<Key>) returns (smallest: Options)
      requires FilledIn(mTrackingSessions)
      ensures IsSmallest(smallest, if skip.Some? then mTrackingSessions - {skip.value} else mTrackingSessions)
    {
      smallest := NO_OPTIONS;
      var left := mTrackingSessions.Keys;
      ghost var seen: Sessions := map[];
      ghost var all := if skip.Some? then mTrackingSessions - {skip.value} else mTrackingSessions;
      while left != {}
        invariant left <= mTrackingSessions.Keys
        invariant seen.Keys == all.Keys - left
        invariant forall k | k in seen :: seen[k] == all[k]
        invariant IsSmallest(smallest, seen)
        decreases left
      {
        var k :| k in left;
        var o := mTrackingSessions[k];
        left := left - {k};
        if Some(k) != skip {
          assert seen == map[] <==> smallest.size == 0;
          seen := seen[k := o];
          assert seen[k] == o;
          if smallest.size == 0 || o.minInterval < smallest.minInterval {
            smallest := o;
          }
        }
      }
      assert seen == all;
    }

    method StartTrackingMultiplex(key: Key, options: Options) returns (err: Error)
      requires Valid() && key !in mTrackingSessions
      modifies `engine, `calls
      ensures err == Success ==> Serves(engine, mTrackingSessions[key := options])
      ensures err != Success ==>
        err == GeneralFailure && engine == old(engine) && |calls| > |old(calls)| && !takes(|old(calls)|)
      ensures |calls| > |old(calls)| ==> calls[|old(calls)|].ok == (err == Success)
      // The engine is bothered at most once, only with the new options, and only for a
      // smaller interval than all before.
      ensures calls == old(calls) + (if NeedsFaster(options) then [StartFix(options, err == Success)] else [])
      ensures !NeedsFaster(options) ==> err == Success && engine == old(engine)
    {
      err := Success;
      if mTrackingSessions == map[] {
        ServesAfterStart(engine, mTrackingSessions, key, options, NO_OPTIONS);
        err := StartTracking(options);
      } else {
        var smallest := FindSmallest(None);
        ServesAfterStart(engine, mTrackingSessions, key, options, smallest);
        if options.minInterval < smallest.minInterval {
          err := StartTracking(options);
        }
      }
    }

    ghost predicate NeedsFaster(options: Options)
      reads this
    {
      forall k | k in mTrackingSessions :: options.minInterval < mTrackingSessions[k].minInterval
    }

    // The engine is started with options of one of the sessions, and with the fastest.
    static ghost predicate StartsSmallest(call: EngineCall, sessions: Sessions) {
      call.StartFix? && IsSmallest(call.options, sessions)
    }

    ghost predicate OtherAsFast(key: Key, o: Options)
      reads this
    {
      exists k :: k in mTrackingSessions - {key} && mTrackingSessions[k].minInterval <= o.minInterval
    }

    method UpdateTrackingMultiplex(key: Key, options: Options) returns (err: Error)
      requires Valid() && key in mTrackingSessions
      modifies `engine, `calls
      ensures err == Success ==> Serves(engine, mTrackingSessions[key := options])
      ensures err != Success ==>
        err == GeneralFailure && engine == old(engine) && |calls| > |old(calls)| && !takes(|old(calls)|)
      ensures |calls| > |old(calls)| ==> calls[|old(calls)|].ok == (err == Success)
      ensures old(calls) <= calls && |calls| <= |old(calls)| + 1
      ensures |calls| > |old(calls)| ==> StartsSmallest(calls[|old(calls)|], mTrackingSessions[key := options])
      // The engine is left alone when another session is as fast as this one was and will be.
      ensures OtherAsFast(key, mTrackingSessions[key]) && OtherAsFast(key, options) ==> calls == old(calls)
    {
      err := Success;
      OnlySession(mTrackingSessions, key);
      if |mTrackingSessions| == 1 {
        err := StartTracking(options);
        var sessions' := mTrackingSessions[key := options];
        assert sessions' == map[key := options] && sessions'[key] == options;
      } else {
        var others := FindSmallest(Some(key));
        ServesAfterUpdate(engine, mTrackingSessions, key, options, others);
        SmallestAfterUpdate(mTrackingSessions, key, options, others);
        if options.minInterval < others.minInterval {
          err := StartTracking(options);
        } else if mTrackingSessions[key].minInterval < others.minInterval {
          err := StartTracking(others);
        }
      }
    }

    method StopTrackingMultiplex(key: Key) returns (err: Error)
      requires Valid() && key in mTrackingSessions
      modifies `engine, `calls
      ensures err == Success ==> Serves(engine, mTrackingSessions - {key})
      ensures err != Success ==>
        err == GeneralFailure && engine == old(engine) && |calls| > |old(calls)| && !takes(|old(calls)|)
      ensures |calls| > |old(calls)| ==> calls[|old(calls)|].ok == (err == Success)
      ensures old(calls) <= calls && |calls| <= |old(calls)| + 1
      ensures |calls| > |old(calls)| ==>
        if mTrackingSessions - {key} == map[] then calls[|old(calls)|].StopFix?
        else StartsSmallest(calls[|old(calls)|], mTrackingSessions - {key})
      ensures OtherAsFast(key, mTrackingSessions[key]) ==> calls == old(calls)
    {
      err := Success;
      OnlySession(mTrackingSessions, key);
      if |mTrackingSessions| == 1 {
        err := StopTracking();
      } else {
        var others := FindSmallest(Some(key));
        ServesAfterStop(engine, mTrackingSessions, key, others);
        if mTrackingSessions[key].minInterval < others.minInterval {
          err := StartTracking(others);
        }
      }
    }

    // ---------- The commands ----------

    // Session ids come from a counter of the adapter, so a starting session is new.
    method StartTrackingCommand(key: Key, options: Options, hasCallback: bool) returns (err: Error)
      requires Valid() && key !in mTrackingSessions
      modifies this
      ensures Valid()
      ensures mTrackingSessions == if err == Success then old(mTrackingSessions)[key := options]
                                   else old(mTrackingSessions)
      ensures err == CallbackMissing <==> !hasCallback
      ensures err == InvalidParameter <==> hasCallback && options.size == 0
      ensures responses == old(responses) + [Response(key.client, err, key.id)]
      ensures err == CallbackMissing || err == InvalidParameter ==> calls == old(calls)
      ensures err == GeneralFailure ==> Refused(calls, |old(calls)|)
    {
      if !hasCallback {
        err := CallbackMissing;
      } else if options.size == 0 {
        err := InvalidParameter;
      } else {
        err := StartTrackingMultiplex(key, options);
        if err == Success {
          mTrackingSessions := mTrackingSessions[key := options];
        }
      }
      responses := responses + [Response(key.client, err, key.id)];
    }

    // Another adapter may be meant when there is no such session: then nothing is answered.
    method UpdateTrackingCommand(key: Key, options: Options)
      requires Valid()
      modifies this
      ensures Valid()
      ensures key !in old(mTrackingSessions) ==> Untouched(old(mTrackingSessions), old(calls), old(responses))
      ensures key in old(mTrackingSessions) ==>
        && |responses| == |old(responses)| + 1
        && var last := responses[|old(responses)|];
           && responses == old(responses) + [last] && last.client == key.client && last.id == key.id
           && mTrackingSessions == (if last.error == Success then old(mTrackingSessions)[key := options]
                                    else old(mTrackingSessions))
           && (last.error == InvalidParameter <==> options.size == 0)
           && (last.error != Success && last.error != InvalidParameter ==>
                 last.error == GeneralFailure && Refused(calls, |old(calls)|))
    {
      if key in mTrackingSessions {
        var err := InvalidParameter;
        if options.size != 0 {
          err := UpdateTrackingMultiplex(key, options);
          if err == Success {
            mTrackingSessions := mTrackingSessions[key := options];
          }
        }
        responses := responses + [Response(key.client, err, key.id)];
      }
    }

    method StopTrackingCommand(key: Key)
      requires Valid()
      modifies this
      ensures Valid()
      ensures key !in old(mTrackingSessions) ==> Untouched(old(mTrackingSessions), old(calls), old(responses))
      ensures key in old(mTrackingSessions) ==>
        && |responses| == |old(responses)| + 1
        && var last := responses[|old(responses)|];
           && responses == old(responses) + [last] && last.client == key.client && last.id == key.id
           && mTrackingSessions == (if last.error == Success then old(mTrackingSessions) - {key}
                                    else old(mTrackingSessions))
           && (last.error != Success ==> last.error == GeneralFailure && Refused(calls, |old(calls)|))
    {
      if key in mTrackingSessions {
        var err := StopTrackingMultiplex(key);
        if err == Success {
          mTrackingSessions := mTrackingSessions - {key};
        }
        responses := responses + [Response(key.client, err, key.id)];
      }
    }

    ghost predicate Untouched(sessions: Sessions, calls0: seq<EngineCall>, responses0: seq<Response>)
      reads this
    {
      mTrackingSessions == sessions && calls == calls0 && responses == responses0
    }

    // Every turn of the loop leaves the engine at the minimum of the sessions still stored.
    method StopClientSessions(client: Client)
      requires Valid()
      modifies this
      ensures Valid()
      ensures Kept(mTrackingSessions, old(mTrackingSessions))
      ensures forall k | k in old(mTrackingSessions) && k.client != client :: k in mTrackingSessions
      // The client's sessions are gone, unless the engine refused a call on the way.
      ensures old(calls) <= calls
      ensures (exists k :: k in mTrackingSessions && k.client == client) ==> Refused(calls, |old(calls)|)
      ensures responses == old(responses)
    {
      var left := mTrackingSessions.Keys;
      while left != {}
        invariant Valid() && left <= mTrackingSessions.Keys && responses == old(responses)
        invariant Kept(mTrackingSessions, old(mTrackingSessions)) && old(calls) <= calls
        invariant forall k | k in old(mTrackingSessions) && k.client != client :: k in mTrackingSessions
        invariant Refused(calls, |old(calls)|) || forall k | k in mTrackingSessions :: k.client != client || k in left
        decreases left
      {
        var it :| it in left;
        left := left - {it};
        if it.client == client {
          ghost var before := calls;
          var err := StopTrackingMultiplex(it);
          if err != Success {
            assert Refused(calls, |before|);
          }
          RefusedLater(before, calls, |old(calls)|);
          if err == Success {
            mTrackingSessions := mTrackingSessions - {it};
          }
        }
      }
    }

    // After a restart the engine is stopped. The call that starts it again is not checked.
    method RestartSessions()
      requires FilledIn(mTrackingSessions)
      modifies `engine, `calls
      ensures mTrackingSessions == map[] ==> engine == old(engine) && calls == old(calls)
      ensures mTrackingSessions != map[] ==>
        exists o :: IsSmallest(o, mTrackingSessions) && calls == old(calls) + [StartFix(o, takes(old(|calls|)))]
      ensures old(engine) == None && (mTrackingSessions != map[] ==> takes(old(|calls|))) ==> Valid()
    {
      if mTrackingSessions == map[] {
        return;
      }
      var smallest := FindSmallest(None);
      var _ := StartTracking(smallest);
    }
  }
}
