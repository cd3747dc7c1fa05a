/** The AGPS connection state machines of gps/gnss/Agps.cpp as functions from a machine
    and an event to the new machine and the calls it makes. AgpsStateMachine.dfy has the
    class that works on its list in place. A machine is either a base machine or the
    data-service machine that overrides two of its methods. */
module Agps {

  import opened Runs

  datatype AgpsState = Released | Pending | Acquired | Releasing

  datatype AgpsEvent = Subscribe | Unsubscribe | Grant | Release | Deny

  datatype Subscriber = Subscriber(handle: int, waitForClose: bool, inactive: bool)

  // What the data-service client answers to a call set-up.
  datatype Answer = Success | Busy | Unsupported | OtherError

  datatype Output =
    | RequestConn | ReleaseConn                    // to the framework
    | OpenStatus(handle: int, success: bool)       // to the modem, about one subscriber
    | CloseStatus(handle: int, success: bool)
    | QueueSupl(handle: int)                       // a request for a SUPL connection, by message
    | QueueEmergency(handle: int)                  // a repeated request for this machine, by message
    | DsStart(answer: Answer) | DsStop | DsClose   // to the data-service client
    | RetryTimer

  // Which of the data-service client's functions are registered, and its next answer.
  datatype Env = Env(hasStart: bool, hasStop: bool, answer: Answer)

  datatype Machine = Machine(
    isDs: bool,
    state: AgpsState,
    subscribers: seq<Subscriber>,
    retries: nat)

  type Reaction = Effect<Machine, Output>

  const MAX_START_DATA_CALL_RETRIES := 4

  function NewMachine(isDs: bool): Machine {
    Machine(isDs, Released, [], 0)
  }

  // ---------- The subscriber list ----------

  datatype Whom = All | Inactives | Actives

  predicate Meant(whom: Whom, s: Subscriber) {
    whom == All || (whom == Inactives <==> s.inactive)
  }

  function Chosen(subs: seq<Subscriber>, whom: Whom): seq<Subscriber> {
    if subs == [] then []
    else (if Meant(whom, subs[0]) then [subs[0]] else []) + Chosen(subs[1..], whom)
  }

  function Spared(subs: seq<Subscriber>, whom: Whom): seq<Subscriber> {
    if subs == [] then []
    else (if Meant(whom, subs[0]) then [] else [subs[0]]) + Spared(subs[1..], whom)
  }

  function Deleted(subs: seq<Subscriber>, handle: int): seq<Subscriber> {
    if subs == [] then []
    else (if subs[0].handle == handle then [] else [subs[0]]) + Deleted(subs[1..], handle)
  }

  // The position of the first subscriber with a handle, or the length of the list.
  function IndexOf(subs: seq<Subscriber>, handle: int): (k: nat)
    ensures k <= |subs|
    ensures k < |subs| ==> subs[k].handle == handle
    ensures forall i | 0 <= i < k :: subs[i].handle != handle
  {
    if subs == [] || subs[0].handle == handle then 0 else 1 + IndexOf(subs[1..], handle)
  }

  predicate Listed(subs: seq<Subscriber>, handle: int) {
    IndexOf(subs, handle) < |subs|
  }

  // The position of the first active subscriber, or the length of the list.
  function FirstActive(subs: seq<Subscriber>): (k: nat)
    ensures k <= |subs|
    ensures k < |subs| ==> !subs[k].inactive
    ensures forall i | 0 <= i < k :: subs[i].inactive
  {
    if subs == [] || !subs[0].inactive then 0 else 1 + FirstActive(subs[1..])
  }

  predicate AnyActive(subs: seq<Subscriber>) {
    FirstActive(subs) < |subs|
  }

  function Added(subs: seq<Subscriber>, s: Subscriber): seq<Subscriber> {
    if Listed(subs, s.handle) then subs else subs + [s]
  }

  function Deactivated(subs: seq<Subscriber>, handle: int): seq<Subscriber>
    requires Listed(subs, handle)
  {
    var k := IndexOf(subs, handle);
    subs[k := subs[k].(inactive := true)]
  }

  // ---------- The methods a subclass overrides ----------

  function Notice(isDs: bool, event: AgpsEvent, handle: int): seq<Output> {
    match event
    case Grant => [OpenStatus(handle, true)]
    case Deny => if isDs then [QueueSupl(handle)] else [OpenStatus(handle, false)]
    case Release => (if isDs then [DsClose] else []) + [CloseStatus(handle, true)]
    case Unsubscribe => [CloseStatus(handle, true)]
    case Subscribe => []
  }

  // The data-service machine starts counting its retries anew when it gives up.
  function RetriesAfter(m: Machine, event: AgpsEvent): nat {
    if m.isDs && event == Deny then 0 else m.retries
  }

  function NotifyOne(m: Machine, event: AgpsEvent, handle: int): Reaction {
    Effect(m.(retries := RetriesAfter(m, event)), Notice(m.isDs, event, handle))
  }

  // requestOrReleaseDataConn: ok tells whether it returned 0.
  datatype Attempt = Attempt(reaction: Reaction, ok: bool)

  function Connect(m: Machine, request: bool, env: Env): Attempt {
    if !m.isDs then Attempt(Effect(m, [if request then RequestConn else ReleaseConn]), true)
    else if !request && env.hasStop then Attempt(Effect(m, [DsStop]), true)
    else if !AnyActive(m.subscribers) then Attempt(Effect(m, []), false)
    else
      var first := m.subscribers[FirstActive(m.subscribers)].handle;
      if !env.hasStart then Attempt(NotifyOne(m, Deny, first), false)
      else SetUp(m, first, env.answer)
  }

  // The retry timer counts as a failure whether or not it could be started.
  function SetUp(m: Machine, first: int, answer: Answer): Attempt {
    var started := [DsStart(answer)];
    var givenUp := Effect(m.(retries := RetriesAfter(m, Deny)), started + Notice(m.isDs, Deny, first));
    match answer
    case Busy =>
      if m.retries + 1 > MAX_START_DATA_CALL_RETRIES then Attempt(givenUp, false)
      else Attempt(Effect(m.(retries := m.retries + 1), started + [RetryTimer]), false)
    case Unsupported => Attempt(givenUp, false)
    case Success => Attempt(Effect(m, started), true)
    case OtherError => Attempt(Effect(m, started), false)
  }

  // ---------- The events ----------

  function Notices(isDs: bool, event: AgpsEvent, subs: seq<Subscriber>): seq<Output> {
    if subs == [] then [] else Notice(isDs, event, subs[0].handle) + Notices(isDs, event, subs[1..])
  }

  function NotifyAll(m: Machine, event: AgpsEvent, delete: bool, whom: Whom): Reaction {
    var chosen := Chosen(m.subscribers, whom);
    Effect(m.(subscribers := if delete then Spared(m.subscribers, whom) else m.subscribers,
              retries := if chosen == [] then m.retries else RetriesAfter(m, event)),
           Notices(m.isDs, event, chosen))
  }

  // One reaction after another.
  function Also(first: Reaction, second: Reaction): Reaction {
    Effect(second.state, first.out + second.out)
  }

  function OnSubscribe(m: Machine, s: Subscriber, env: Env): Reaction {
    var joined := m.(subscribers := Added(m.subscribers, s));
    match m.state
    case Released =>
      var a := Connect(joined, true, env);
      if a.ok then Effect(a.reaction.state.(state := Pending), a.reaction.out) else a.reaction
    case Acquired => Effect(joined, Notice(m.isDs, Grant, s.handle))
    case _ => Effect(joined, [])
  }

  // A subscriber that waits for the close is kept, inactive; another one is told and deleted.
  function Leave(m: Machine, handle: int): Reaction
    requires Listed(m.subscribers, handle)
  {
    if m.subscribers[IndexOf(m.subscribers, handle)].waitForClose then
      Effect(m.(subscribers := Deactivated(m.subscribers, handle)), [])
    else
      Effect(m.(subscribers := Deleted(m.subscribers, handle)), Notice(m.isDs, Unsubscribe, handle))
  }

  function OnUnsubscribe(m: Machine, handle: int, env: Env): Reaction
    requires Listed(m.subscribers, handle)
  {
    if m.state == Released then NotifyOne(m, Unsubscribe, handle)
    else
      var left := Leave(m, handle);
      var subs := left.state.subscribers;
      if m.state == Releasing then
        if subs == [] then Effect(left.state.(state := Released), left.out) else left
      else if AnyActive(subs) then left
      else
        var down := left.state.(state := if subs == [] then Released else Releasing);
        Also(left, Connect(down, false, env).reaction)
  }

  // The end of a release: whoever subscribed meanwhile is waiting for a new connection.
  function Closed(m: Machine, env: Env): Reaction {
    var told := NotifyAll(m, Release, true, Inactives);
    if AnyActive(told.state.subscribers) then
      Also(told, Connect(told.state.(state := Pending), true, env).reaction)
    else Effect(told.state.(state := Released), told.out)
  }

  function OnGrant(m: Machine): Reaction {
    if m.state == Pending then NotifyAll(m.(state := Acquired), Grant, false, Actives) else Effect(m, [])
  }

  function OnRelease(m: Machine, env: Env): Reaction {
    match m.state
    case Acquired => NotifyAll(m.(state := Released), Release, true, All)
    case Releasing => Closed(m, env)
    case _ => Effect(m, [])
  }

  function OnDeny(m: Machine, env: Env): Reaction {
    match m.state
    case Pending => NotifyAll(m.(state := Released), Deny, true, All)
    case Releasing => Closed(m, env)
    case _ => Effect(m, [])
  }

  // ---------- What a machine is asked to do ----------

  datatype Input =
    | Request(handle: int, waitForClose: bool, env: Env)  // requestATL
    | Quit(handle: int, env: Env)                         // releaseATL, for a handle of this machine
    | Granted
    | Lost(env: Env)                                      // the connection is reported closed
    | Denied(env: Env)
    | Retry                                               // the retry timer
    | Drop                                                // dropAllSubscribers, on a modem restart

  function React(m: Machine, i: Input): Reaction {
    match i
    case Request(h, wait, env) => OnSubscribe(m, Subscriber(h, wait, false), env)
    case Quit(h, env) => if Listed(m.subscribers, h) then OnUnsubscribe(m, h, env) else Effect(m, [])
    case Granted => OnGrant(m)
    case Lost(env) => if m.isDs && m.state == Pending then OnDeny(m, env) else OnRelease(m, env)
    case Denied(env) => OnDeny(m, env)
    case Retry =>
      if m.isDs && AnyActive(m.subscribers) then
        Effect(m, [QueueEmergency(m.subscribers[FirstActive(m.subscribers)].handle)])
      else Effect(m, [])
    case Drop => Effect(m.(subscribers := []), [])
  }
}
