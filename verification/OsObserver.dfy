/** The subscription index of gps/core/SystemStatusOsObserver.cpp: which client wants which
    data items, kept in two maps that must stay each other's inverse, and what the
    framework is told about it. */
module OsObserver {

  import opened Runs
  import opened Wrappers
  import opened SetMap

  type Client = nat
  type Item = nat
  type Data = int

  // What the subscription object of the framework is told.
  datatype Call = SubscribeTo(items: set<Item>) | RequestData(items: set<Item>) | UnsubscribeFrom(items: set<Item>)

  datatype Index = Index(
    clientToItems: map<Client, set<Item>>,
    itemToClients: map<Item, set<Client>>,
    hasSubscriptionObj: bool)

  datatype Command =
    | Subscribe(items: set<Item>, client: Client, toRequestData: bool)
    | Unsubscribe(items: set<Item>, client: Client)
    | UnsubscribeAll(client: Client)
    | SetSubscriptionObj

  // ---------- The message procedures ----------

  // The framework only hears of a set of items that is not empty, once it is there.
  function Tell(i: Index, c: Call): seq<Call> {
    if i.hasSubscriptionObj && c.items != {} then [c] else []
  }

  function OnSubscribe(i: Index, items: set<Item>, client: Client, toRequestData: bool): Effect<Index, Call> {
    var first := NewKeys(i.itemToClients, items, {client});
    Effect(i.(itemToClients := Extended(i.itemToClients, items, {client}),
              clientToItems := Extended(i.clientToItems, {client}, items)),
           Tell(i, if toRequestData then RequestData(first) else SubscribeTo(first)))
  }

  function OnUnsubscribe(i: Index, items: set<Item>, client: Client): Effect<Index, Call> {
    var unused := GoneVals(i.clientToItems, {client}, items);
    Effect(i.(clientToItems := Trimmed(i.clientToItems, {client}, items),
              itemToClients := Trimmed(i.itemToClients, unused, {client})),
           Tell(i, UnsubscribeFrom(GoneKeys(i.itemToClients, unused, {client}))))
  }

  function OnUnsubscribeAll(i: Index, client: Client): Effect<Index, Call> {
    var items := Vals(i.clientToItems, client);
    if items == {} then Effect(i, [])
    else Effect(i.(clientToItems := i.clientToItems - {client},
                   itemToClients := Trimmed(i.itemToClients, items, {client})),
                Tell(i, UnsubscribeFrom(GoneKeys(i.itemToClients, items, {client}))))
  }

  function OnSetSubscriptionObj(i: Index): Effect<Index, Call> {
    var items := i.itemToClients.Keys;
    Effect(i.(hasSubscriptionObj := true),
           if items == {} then [] else [SubscribeTo(items), RequestData(items)])
  }

  // Requests that name no items are dropped before they become messages.
  function React(i: Index, c: Command): Effect<Index, Call> {
    match c
    case Subscribe(items, client, toRequestData) =>
      if items == {} then Effect(i, []) else OnSubscribe(i, items, client, toRequestData)
    case Unsubscribe(items, client) =>
      if items == {} then Effect(i, []) else OnUnsubscribe(i, items, client)
    case UnsubscribeAll(client) => OnUnsubscribeAll(i, client)
    case SetSubscriptionObj => OnSetSubscriptionObj(i)
  }

  // ---------- The two maps are inverse ----------

  ghost predicate NoEmptySets<K, V>(m: map<K, set<V>>) {
    forall k | k in m :: m[k] != {}
  }

  ghost predicate Inverse(i: Index) {
    && NoEmptySets(i.clientToItems) && NoEmptySets(i.itemToClients)
    && forall c: Client, d: Item :: In(i.clientToItems, c, d) <==> In(i.itemToClients, d, c)
  }

  lemma InExtended<K, V>(m: map<K, set<V>>, keys: set<K>, vals: set<V>, k: K, v: V)
    ensures In(Extended(m, keys, vals), k, v) <==> In(m, k, v) || (k in keys && v in vals)
  {}

  lemma InTrimmed<K, V>(m: map<K, set<V>>, keys: set<K>, vals: set<V>, k: K, v: V)
    ensures In(Trimmed(m, keys, vals), k, v) <==> In(m, k, v) && !(k in keys && v in vals)
  {
    if In(m, k, v) && v !in vals {
      assert v in m[k] - vals;
    }
  }

  lemma SubscribeKeepsInverse(i: Index, items: set<Item>, client: Client, toRequestData: bool)
    requires Inverse(i)
    ensures var i' := OnSubscribe(i, items, client, toRequestData).state;
      && Inverse(i')
      && forall c: Client, d: Item :: In(i'.clientToItems, c, d) <==>
           In(i.clientToItems, c, d) || (c == client && d in items)
  {
    var i' := OnSubscribe(i, items, client, toRequestData).state;
    forall c: Client, d: Item
      ensures In(i'.clientToItems, c, d) <==> In(i.clientToItems, c, d) || (c == client && d in items)
      ensures In(i'.itemToClients, d, c) <==> In(i.itemToClients, d, c) || (c == client && d in items)
    {
      InExtended(i.clientToItems, {client}, items, c, d);
      InExtended(i.itemToClients, items, {client}, d, c);
    }
  }

  lemma UnsubscribeKeepsInverse(i: Index, items: set<Item>, client: Client)
    requires Inverse(i)
    ensures var i' := OnUnsubscribe(i, items, client).state;
      && Inverse(i')
      && forall c: Client, d: Item :: In(i'.clientToItems, c, d) <==>
           In(i.clientToItems, c, d) && !(c == client && d in items)
  {
    var i' := OnUnsubscribe(i, items, client).state;
    var unused := GoneVals(i.clientToItems, {client}, items);
    forall c: Client, d: Item
      ensures In(i'.clientToItems, c, d) <==> In(i.clientToItems, c, d) && !(c == client && d in items)
      ensures In(i'.itemToClients, d, c) <==> In(i.itemToClients, d, c) && !(c == client && d in items)
    {
      InTrimmed(i.clientToItems, {client}, items, c, d);
      InTrimmed(i.itemToClients, unused, {client}, d, c);
    }
  }

  lemma UnsubscribeAllKeepsInverse(i: Index, client: Client)
    requires Inverse(i)
    ensures var i' := OnUnsubscribeAll(i, client).state;
      && Inverse(i')
      && forall c: Client, d: Item :: In(i'.clientToItems, c, d) <==> In(i.clientToItems, c, d) && c != client
  {
    var i' := OnUnsubscribeAll(i, client).state;
    var items := Vals(i.clientToItems, client);
    forall c: Client, d: Item
      ensures In(i'.clientToItems, c, d) <==> In(i.clientToItems, c, d) && c != client
      ensures In(i'.itemToClients, d, c) <==> In(i.itemToClients, d, c) && c != client
    {
      InTrimmed(i.itemToClients, items, {client}, d, c);
    }
  }

  // ---------- The framework is told of first-ins and last-outs ----------

  // The items registered with the framework's current object, by what it has been told; None
  // if it was ever told to take an item it had or to give up one it did not have.
  function Registered(was: Option<set<Item>>, calls: seq<Call>): Option<set<Item>>
    decreases |calls|
  {
    if calls == [] || was.None? then was
    else
      var now := match calls[0]
        case SubscribeTo(items) => if items !! was.value then Some(was.value + items) else None
        case RequestData(items) => if items !! was.value then Some(was.value + items) else None
        case UnsubscribeFrom(items) => if items <= was.value then Some(was.value - items) else None;
      Registered(now, calls[1..])
  }

  // A new object starts with nothing, and is told everything by two calls for the same
  // items: to subscribe to them, and to send their data.
  function RegisteredAfter(was: Option<set<Item>>, c: Command, calls: seq<Call>): Option<set<Item>> {
    if !c.SetSubscriptionObj? then Registered(was, calls)
    else if calls == [] then Some({})
    else if |calls| == 2 && calls[0].SubscribeTo? && calls[1] == RequestData(calls[0].items) then Some(calls[0].items)
    else None
  }

  // Once there is a subscription object, exactly the items that somebody wants are
  // registered with it.
  ghost predicate InStep(i: Index, registered: Option<set<Item>>) {
    registered == Some(if i.hasSubscriptionObj then i.itemToClients.Keys else {})
  }

  lemma RegisteredOne(was: set<Item>, c: Call)
    ensures Registered(Some(was), [c]) ==
      match c
      case SubscribeTo(items) => (if items !! was then Some(was + items) else None)
      case RequestData(items) => (if items !! was then Some(was + items) else None)
      case UnsubscribeFrom(items) => (if items <= was then Some(was - items) else None)
  {
    assert [c][1..] == [];
  }

  lemma TellRegisters(i: Index, was: set<Item>, c: Call, after: set<Item>)
    requires i.hasSubscriptionObj
    requires if c.UnsubscribeFrom? then c.items <= was && after == was - c.items
             else c.items !! was && after == was + c.items
    ensures Registered(Some(was), Tell(i, c)) == Some(after)
  {
    RegisteredOne(was, c);
    assert c.items == {} ==> was == after;
  }

  lemma ReactKeepsInStep(i: Index, registered: Option<set<Item>>, c: Command)
    requires Inverse(i) && InStep(i, registered)
    ensures InStep(React(i, c).state, RegisteredAfter(registered, c, React(i, c).out))
  {
    match c
    case Subscribe(items, client, toRequestData) =>
      if items != {} && i.hasSubscriptionObj {
        var first := NewKeys(i.itemToClients, items, {client});
        TellRegisters(i, i.itemToClients.Keys, if toRequestData then RequestData(first) else SubscribeTo(first),
                      Extended(i.itemToClients, items, {client}).Keys);
      }
    case Unsubscribe(items, client) =>
      if items != {} && i.hasSubscriptionObj {
        var unused := GoneVals(i.clientToItems, {client}, items);
        TellRegisters(i, i.itemToClients.Keys, UnsubscribeFrom(GoneKeys(i.itemToClients, unused, {client})),
                      Trimmed(i.itemToClients, unused, {client}).Keys);
      }
    case UnsubscribeAll(client) =>
      if i.hasSubscriptionObj {
        var items := Vals(i.clientToItems, client);
        TellRegisters(i, i.itemToClients.Keys, UnsubscribeFrom(GoneKeys(i.itemToClients, items, {client})),
                      Trimmed(i.itemToClients, items, {client}).Keys);
      }
    case SetSubscriptionObj =>
  }

  lemma ReactKeepsInverse(i: Index, c: Command)
    requires Inverse(i)
    ensures Inverse(React(i, c).state)
  {
    match c
    case Subscribe(items, client, toRequestData) => SubscribeKeepsInverse(i, items, client, toRequestData);
    case Unsubscribe(items, client) => UnsubscribeKeepsInverse(i, items, client);
    case UnsubscribeAll(client) => UnsubscribeAllKeepsInverse(i, client);
    case SetSubscriptionObj =>
  }

  // ---------- Updating a subscription ----------

  // updateSubscription: the items the client keeps are trimmed where the items it drops
  // should be.
  function OnUpdateSubscription(i: Index, items: set<Item>, client: Client): Effect<Index, Call> {
    var held := Vals(i.clientToItems, client);
    var kept, added := held * items, items - held;
    var trimmed := Trimmed(i.itemToClients, kept, {client});
    Effect(i.(clientToItems := Updated(i.clientToItems, client, items),
              itemToClients := Extended(trimmed, added, {client})),
           Tell(i, SubscribeTo(NewKeys(trimmed, added, {client})))
           + Tell(i, UnsubscribeFrom(GoneKeys(i.itemToClients, kept, {client}))))
  }

  // For a client that holds nothing it is a subscription.
  lemma UpdateOfNewClientIsSubscription(i: Index, items: set<Item>, client: Client)
    requires items != {} && client !in i.clientToItems
    ensures OnUpdateSubscription(i, items, client) == OnSubscribe(i, items, client, false)
  {
    assert Vals(i.clientToItems, client) * items == {} && items - Vals(i.clientToItems, client) == items;
    assert Trimmed(i.itemToClients, {}, {client}) == i.itemToClients;
    assert Vals(i.clientToItems, client) + items == items;
    assert Extended(i.clientToItems, {client}, items).Keys == i.clientToItems.Keys + {client};
    assert Extended(i.clientToItems, {client}, items) == Updated(i.clientToItems, client, items);
    assert GoneKeys(i.itemToClients, {}, {client}) == {};
    var told := Tell(i, SubscribeTo(NewKeys(i.itemToClients, items, {client})));
    assert told + [] == told;
  }

  lemma {:induction false} RegisteredBoth(was: Option<set<Item>>, a: seq<Call>, b: seq<Call>)
    ensures Registered(was, a + b) == Registered(Registered(was, a), b)
    decreases |a|
  {
    if a == [] {
      assert a + b == b;
    } else {
      assert (a + b)[0] == a[0] && (a + b)[1..] == a[1..] + b;
      if was.Some? {
        RegisteredOne(was.value, a[0]);
        assert Registered(was, [a[0]]) == Registered(Registered(was, [a[0]]), []);
        RegisteredBoth(Registered(was, [a[0]]), a[1..], b);
      } else {
        assert Registered(None, b) == None;
      }
    }
  }

  // Whatever it does to the maps, an update tells the framework of the items that come into
  // the index and of those that leave it.
  lemma UpdateKeepsInStep(i: Index, registered: Option<set<Item>>, items: set<Item>, client: Client)
    requires InStep(i, registered) && items != {}
    ensures var e := OnUpdateSubscription(i, items, client); InStep(e.state, Registered(registered, e.out))
  {
    var held := Vals(i.clientToItems, client);
    var kept, added := held * items, items - held;
    var trimmed := Trimmed(i.itemToClients, kept, {client});
    var first, gone := NewKeys(trimmed, added, {client}), GoneKeys(i.itemToClients, kept, {client});
    var e := OnUpdateSubscription(i, items, client);
    RegisteredBoth(registered, Tell(i, SubscribeTo(first)), Tell(i, UnsubscribeFrom(gone)));
    if i.hasSubscriptionObj {
      var keys := i.itemToClients.Keys;
      assert trimmed.Keys == keys - gone;
      assert e.state.itemToClients.Keys == trimmed.Keys + added;
      TellRegisters(i, keys, SubscribeTo(first), keys + first);
      TellRegisters(i, keys + first, UnsubscribeFrom(gone), keys + first - gone);
      assert keys + first - gone == e.state.itemToClients.Keys;
    }
  }

  // For any other client the maps are no longer inverse: an item it keeps is lost, or else
  // an item it drops stays behind.
  lemma UpdateKeepsInverseIff(i: Index, items: set<Item>, client: Client)
    requires Inverse(i) && items != {}
    ensures Inverse(OnUpdateSubscription(i, items, client).state) <==> client !in i.clientToItems
  {
    var i' := OnUpdateSubscription(i, items, client).state;
    if client !in i.clientToItems {
      UpdateOfNewClientIsSubscription(i, items, client);
      SubscribeKeepsInverse(i, items, client, false);
    } else {
      var held := i.clientToItems[client];
      var d :| d in held;
      assert In(i.clientToItems, client, d) && In(i.itemToClients, d, client);
      InTrimmed(i.itemToClients, held * items, {client}, d, client);
      InExtended(Trimmed(i.itemToClients, held * items, {client}), items - held, {client}, d, client);
      assert In(i'.clientToItems, client, d) <==> d in items;
      assert In(i'.itemToClients, d, client) <==> d !in items;
    }
  }

  // ---------- Every run ----------

  const EMPTY := Index(map[], map[], false)

  function RegisteredByRun(i: Index, was: Option<set<Item>>, commands: seq<Command>): Option<set<Item>>
    decreases |commands|
  {
    if commands == [] then was
    else
      var e := React(i, commands[0]);
      RegisteredByRun(e.state, RegisteredAfter(was, commands[0], e.out), commands[1..])
  }

  // Who wants what, read off the commands alone.
  predicate Wants(commands: seq<Command>, c: Client, d: Item)
    decreases |commands|
  {
    commands != [] &&
    var before := commands[..|commands| - 1];
    match commands[|commands| - 1]
    case Subscribe(items, client, _) => (client == c && d in items) || Wants(before, c, d)
    case Unsubscribe(items, client) => !(client == c && d in items) && Wants(before, c, d)
    case UnsubscribeAll(client) => client != c && Wants(before, c, d)
    case SetSubscriptionObj => Wants(before, c, d)
  }

  lemma ReactFollowsCommand(i: Index, commands: seq<Command>, c: Client, d: Item)
    requires commands != [] && Inverse(i)
    requires In(i.clientToItems, c, d) <==> Wants(commands[..|commands| - 1], c, d)
    ensures In(React(i, commands[|commands| - 1]).state.clientToItems, c, d) <==> Wants(commands, c, d)
  {
    match commands[|commands| - 1]
    case Subscribe(items, client, toRequestData) => SubscribeKeepsInverse(i, items, client, toRequestData);
    case Unsubscribe(items, client) => UnsubscribeKeepsInverse(i, items, client);
    case UnsubscribeAll(client) => UnsubscribeAllKeepsInverse(i, client);
    case SetSubscriptionObj =>
  }

  lemma {:induction false} RunKeepsInverse(commands: seq<Command>)
    ensures var i := Emits(React, EMPTY, commands).state;
      && Inverse(i)
      && forall c: Client, d: Item :: In(i.clientToItems, c, d) <==> Wants(commands, c, d)
    decreases |commands|
  {
    if commands != [] {
      var before, last := commands[..|commands| - 1], commands[|commands| - 1];
      RunKeepsInverse(before);
      var i := Emits(React, EMPTY, before).state;
      assert commands == before + [last];
      EmitsAppend(React, EMPTY, before, [last]);
      EmitsOne(React, i, last);
      ReactKeepsInverse(i, last);
      forall c: Client, d: Item
        ensures In(React(i, last).state.clientToItems, c, d) <==> Wants(commands, c, d)
      {
        ReactFollowsCommand(i, commands, c, d);
      }
    }
  }

  lemma {:induction false} RunKeepsInStep(i: Index, was: Option<set<Item>>, commands: seq<Command>)
    requires Inverse(i) && InStep(i, was)
    ensures InStep(Emits(React, i, commands).state, RegisteredByRun(i, was, commands))
    decreases |commands|
  {
    if commands != [] {
      var e := React(i, commands[0]);
      ReactKeepsInverse(i, commands[0]);
      ReactKeepsInStep(i, was, commands[0]);
      RunKeepsInStep(e.state, RegisteredAfter(was, commands[0], e.out), commands[1..]);
    }
  }

  // Over every run: the maps are inverse without empty sets and say what the commands ask
  // for; and once a subscription object is set, the framework has been told of every item
  // when its first client came and when its last one went, and of nothing else.
  lemma IndexAndFrameworkAgree(commands: seq<Command>)
    ensures var i := Emits(React, EMPTY, commands).state;
      && Inverse(i)
      && (forall c: Client, d: Item :: In(i.clientToItems, c, d) <==> Wants(commands, c, d))
      && RegisteredByRun(EMPTY, Some({}), commands)
         == Some(if i.hasSubscriptionObj then i.itemToClients.Keys else {})
  {
    RunKeepsInverse(commands);
    RunKeepsInStep(EMPTY, Some({}), commands);
  }

  // ---------- Runs with updates ----------

  datatype Request = Other(command: Command) | UpdateSubscription(items: set<Item>, client: Client)

  function Serve(i: Index, r: Request): Index {
    match r
    case Other(command) => React(i, command).state
    case UpdateSubscription(items, client) =>
      if items == {} then i else OnUpdateSubscription(i, items, client).state
  }

  predicate UpdatesHolder(i: Index, r: Request) {
    r.UpdateSubscription? && r.items != {} && r.client in i.clientToItems
  }

  ghost predicate AlwaysInverse(i: Index, requests: seq<Request>)
    decreases |requests|
  {
    Inverse(i) && (requests != [] ==> AlwaysInverse(Serve(i, requests[0]), requests[1..]))
  }

  predicate NeverUpdatesHolder(i: Index, requests: seq<Request>)
    decreases |requests|
  {
    requests != [] ==> !UpdatesHolder(i, requests[0]) && NeverUpdatesHolder(Serve(i, requests[0]), requests[1..])
  }

  lemma ServeKeepsInverseIff(i: Index, r: Request)
    requires Inverse(i)
    ensures Inverse(Serve(i, r)) <==> !UpdatesHolder(i, r)
  {
    match r
    case Other(command) => ReactKeepsInverse(i, command);
    case UpdateSubscription(items, client) =>
      if items != {} {
        UpdateKeepsInverseIff(i, items, client);
      }
  }

  lemma {:induction false} RunWithUpdatesKeepsInverseIff(i: Index, requests: seq<Request>)
    requires Inverse(i)
    ensures AlwaysInverse(i, requests) <==> NeverUpdatesHolder(i, requests)
    decreases |requests|
  {
    if requests != [] {
      ServeKeepsInverseIff(i, requests[0]);
      if !UpdatesHolder(i, requests[0]) {
        RunWithUpdatesKeepsInverseIff(Serve(i, requests[0]), requests[1..]);
      }
    }
  }

  // Over every run: the maps are inverse after each message if and only if no client that
  // wants anything has its subscription updated.
  lemma InverseIffNoHolderIsUpdated(requests: seq<Request>)
    ensures AlwaysInverse(EMPTY, requests) <==> NeverUpdatesHolder(EMPTY, requests)
  {
    RunWithUpdatesKeepsInverseIff(EMPTY, requests);
  }

  // ---------- Subscriptions proper ----------

  // A request for data is taken above to register its items, as the observer does: it
  // unsubscribes from them later, and asks for nothing else. The interface promises a
  // subscription list for subscribe only. These are the items on that list.
  function Listed(was: set<Item>, calls: seq<Call>): set<Item>
    decreases |calls|
  {
    if calls == [] then was else Listed(ListedOne(was, calls[0]), calls[1..])
  }

  function ListedOne(was: set<Item>, c: Call): set<Item> {
    match c
    case SubscribeTo(items) => was + items
    case RequestData(_) => was
    case UnsubscribeFrom(items) => was - items
  }

  // And these are the wanted items that are not: their first client came with a request for
  // data, while there was a subscription object, and no new object has been set since.
  function RequestedOnly(i: Index, was: set<Item>, c: Command): set<Item> {
    match c
    case Subscribe(items, client, toRequestData) =>
      if i.hasSubscriptionObj && toRequestData then was + NewKeys(i.itemToClients, items, {client}) else was
    case Unsubscribe(_, _) => was * React(i, c).state.itemToClients.Keys
    case UnsubscribeAll(_) => was * React(i, c).state.itemToClients.Keys
    case SetSubscriptionObj => {}
  }

  ghost predicate ListInStep(i: Index, listed: set<Item>, requested: set<Item>) {
    if i.hasSubscriptionObj then requested <= i.itemToClients.Keys && listed == i.itemToClients.Keys - requested
    else requested == {} && listed == {}
  }

  // A new object starts with an empty list.
  function ListedAfter(was: set<Item>, c: Command, calls: seq<Call>): set<Item> {
    Listed(if c.SetSubscriptionObj? then {} else was, calls)
  }

  lemma TellLists(i: Index, was: set<Item>, c: Call)
    requires i.hasSubscriptionObj
    ensures Listed(was, Tell(i, c)) == ListedOne(was, c)
  {
    if c.items != {} {
      assert [c][1..] == [];
    } else {
      assert was + {} == was && was - {} == was;
    }
  }

  lemma ReactKeepsListInStep(i: Index, listed: set<Item>, requested: set<Item>, c: Command)
    requires ListInStep(i, listed, requested)
    ensures ListInStep(React(i, c).state, ListedAfter(listed, c, React(i, c).out), RequestedOnly(i, requested, c))
  {
    match c
    case Subscribe(items, client, toRequestData) =>
      if items != {} && i.hasSubscriptionObj {
        var first := NewKeys(i.itemToClients, items, {client});
        TellLists(i, listed, if toRequestData then RequestData(first) else SubscribeTo(first));
        assert React(i, c).state.itemToClients.Keys == i.itemToClients.Keys + first;
      }
    case Unsubscribe(items, client) =>
      if items != {} && i.hasSubscriptionObj {
        var unused := GoneVals(i.clientToItems, {client}, items);
        TellLists(i, listed, UnsubscribeFrom(GoneKeys(i.itemToClients, unused, {client})));
      }
    case UnsubscribeAll(client) =>
      if i.hasSubscriptionObj {
        var items := Vals(i.clientToItems, client);
        TellLists(i, listed, UnsubscribeFrom(GoneKeys(i.itemToClients, items, {client})));
      }
    case SetSubscriptionObj =>
      var items := i.itemToClients.Keys;
      if items != {} {
        assert [SubscribeTo(items), RequestData(items)][1..] == [RequestData(items)];
        assert [RequestData(items)][1..] == [];
        assert Listed(items, [RequestData(items)]) == Listed(items, []);
        assert ListedOne({}, SubscribeTo(items)) == items;
      }
      assert items - {} == items;
  }

  function ListedByRun(i: Index, was: set<Item>, commands: seq<Command>): set<Item>
    decreases |commands|
  {
    if commands == [] then was
    else
      var e := React(i, commands[0]);
      ListedByRun(e.state, ListedAfter(was, commands[0], e.out), commands[1..])
  }

  function RequestedByRun(i: Index, was: set<Item>, commands: seq<Command>): set<Item>
    decreases |commands|
  {
    if commands == [] then was
    else RequestedByRun(React(i, commands[0]).state, RequestedOnly(i, was, commands[0]), commands[1..])
  }

  lemma {:induction false} RunKeepsListInStep(i: Index, listed: set<Item>, requested: set<Item>, commands: seq<Command>)
    requires ListInStep(i, listed, requested)
    ensures ListInStep(Emits(React, i, commands).state,
                       ListedByRun(i, listed, commands), RequestedByRun(i, requested, commands))
    decreases |commands|
  {
    if commands != [] {
      var c := commands[0];
      ReactKeepsListInStep(i, listed, requested, c);
      RunKeepsListInStep(React(i, c).state, ListedAfter(listed, c, React(i, c).out),
                         RequestedOnly(i, requested, c), commands[1..]);
    }
  }

  // Over every run, once there is a subscription object: the items on its subscription list
  // are exactly the wanted ones, if and only if no wanted item came by a request alone.
  lemma SubscriptionListIsWantedIff(commands: seq<Command>)
    ensures var i := Emits(React, EMPTY, commands).state;
      var listed, requested := ListedByRun(EMPTY, {}, commands), RequestedByRun(EMPTY, {}, commands);
      i.hasSubscriptionObj ==>
        && listed == i.itemToClients.Keys - requested
        && (listed == i.itemToClients.Keys <==> requested == {})
  {
    RunKeepsListInStep(EMPTY, {}, {}, commands);
    var i := Emits(React, EMPTY, commands).state;
    var requested := RequestedByRun(EMPTY, {}, commands);
    if i.hasSubscriptionObj && requested != {} {
      var d :| d in requested;
      assert d in i.itemToClients.Keys && d !in i.itemToClients.Keys - requested;
    }
  }

  // ---------- Notifications ----------

  // A data item as the framework sends it; handled tells whether SystemStatus takes it.
  datatype DataItem = DataItem(id: Item, data: Data, handled: bool)

  type Cache = map<Item, Data>

  // updateCache: an item changes when it is new, or when its data is.
  predicate Changes(cache: Cache, d: DataItem) {
    d.handled && (d.id !in cache || cache[d.id] != d.data)
  }

  function CacheAfter(cache: Cache, items: seq<Option<DataItem>>): Cache
    decreases |items|
  {
    if items == [] then cache
    else if items[0].Some? && Changes(cache, items[0].value) then
      CacheAfter(cache[items[0].value.id := items[0].value.data], items[1..])
    else CacheAfter(cache, items[1..])
  }

  function Changed(cache: Cache, items: seq<Option<DataItem>>): set<Item>
    decreases |items|
  {
    if items == [] then {}
    else if items[0].Some? && Changes(cache, items[0].value) then
      var d := items[0].value;
      {d.id} + Changed(cache[d.id := d.data], items[1..])
    else Changed(cache, items[1..])
  }

  // Only changed items differ in the cache afterwards, and each of them is in it.
  lemma {:induction false} UnchangedItemsKeepTheirData(cache: Cache, items: seq<Option<DataItem>>, d: Item)
    ensures d !in Changed(cache, items) ==>
              (d in CacheAfter(cache, items) <==> d in cache)
              && (d in cache ==> CacheAfter(cache, items)[d] == cache[d])
    ensures d in Changed(cache, items) || d in cache ==> d in CacheAfter(cache, items)
    decreases |items|
  {
    if items != [] {
      if items[0].Some? && Changes(cache, items[0].value) {
        UnchangedItemsKeepTheirData(cache[items[0].value.id := items[0].value.data], items[1..], d);
      } else {
        UnchangedItemsKeepTheirData(cache, items[1..], d);
      }
    }
  }

  // The data of the last entry for an item that SystemStatus takes, if there is one.
  function LastTaken(items: seq<Option<DataItem>>, d: Item): Option<Data>
    decreases |items|
  {
    if items == [] then None
    else
      var rest, last := items[..|items| - 1], items[|items| - 1];
      if last.Some? && last.value.handled && last.value.id == d then Some(last.value.data) else LastTaken(rest, d)
  }

  function Cached(cache: Cache, d: Item): Option<Data> {
    if d in cache then Some(cache[d]) else None
  }

  // What the cache has for an item when some entries have been taken.
  function DataAfter(cache: Cache, items: seq<Option<DataItem>>, d: Item): Option<Data> {
    if LastTaken(items, d).Some? then LastTaken(items, d) else Cached(cache, d)
  }

  // Some entry brings the item data that differs from what was there just before.
  ghost predicate BringsNew(cache: Cache, items: seq<Option<DataItem>>, d: Item) {
    exists n :: 0 <= n < |items| && EntryBringsNew(cache, items, n, d)
  }

  predicate EntryBringsNew(cache: Cache, items: seq<Option<DataItem>>, n: nat, d: Item)
    requires n < |items|
  {
    && items[n].Some? && items[n].value.handled && items[n].value.id == d
    && DataAfter(cache, items[..n], d) != Some(items[n].value.data)
  }

  lemma {:induction false} CacheAfterAppend(cache: Cache, items: seq<Option<DataItem>>, last: Option<DataItem>)
    ensures CacheAfter(cache, items + [last]) == CacheAfter(CacheAfter(cache, items), [last])
    ensures Changed(cache, items + [last]) == Changed(cache, items) + Changed(CacheAfter(cache, items), [last])
    decreases |items|
  {
    if items == [] {
      assert items + [last] == [last];
    } else {
      assert (items + [last])[0] == items[0] && (items + [last])[1..] == items[1..] + [last];
      var next := if items[0].Some? && Changes(cache, items[0].value)
                  then cache[items[0].value.id := items[0].value.data] else cache;
      CacheAfterAppend(next, items[1..], last);
    }
  }

  lemma OneEntry(cache: Cache, last: Option<DataItem>, d: Item)
    ensures Cached(CacheAfter(cache, [last]), d) == DataAfter(cache, [last], d)
    ensures d in Changed(cache, [last]) <==>
              last.Some? && last.value.handled && last.value.id == d && Cached(cache, d) != Some(last.value.data)
  {
    assert [last][1..] == [] && [last][..0] == [];
    assert LastTaken([], d) == None;
  }

  // After a notification the cache has for each item the data of the last entry for it, or
  // what it had before if there is none.
  lemma {:induction false} CacheHasTheLast(cache: Cache, items: seq<Option<DataItem>>, d: Item)
    ensures Cached(CacheAfter(cache, items), d) == DataAfter(cache, items, d)
    decreases |items|
  {
    if items != [] {
      var rest, last := items[..|items| - 1], items[|items| - 1];
      assert items == rest + [last];
      CacheHasTheLast(cache, rest, d);
      CacheAfterAppend(cache, rest, last);
      OneEntry(CacheAfter(cache, rest), last, d);
      assert [last][..0] == [] && LastTaken([], d) == None;
    }
  }

  // And the items to be sent are those to which some entry brought new data.
  lemma {:induction false} ChangedIsBringsNew(cache: Cache, items: seq<Option<DataItem>>, d: Item)
    ensures d in Changed(cache, items) <==> BringsNew(cache, items, d)
    decreases |items|
  {
    if items != [] {
      var m := |items| - 1;
      var rest, last := items[..m], items[m];
      assert items == rest + [last];
      ChangedIsBringsNew(cache, rest, d);
      CacheAfterAppend(cache, rest, last);
      CacheHasTheLast(cache, rest, d);
      OneEntry(CacheAfter(cache, rest), last, d);
      assert EntryBringsNew(cache, items, m, d) <==> d in Changed(CacheAfter(cache, rest), [last]);
      forall n | 0 <= n < m ensures EntryBringsNew(cache, items, n, d) <==> EntryBringsNew(cache, rest, n, d) {
        assert items[..n] == rest[..n];
      }
    }
  }

  // An item that ends up with other data than before has been brought something new.
  lemma OtherDataIsNew(cache: Cache, items: seq<Option<DataItem>>, d: Item)
    requires DataAfter(cache, items, d) != Cached(cache, d)
    ensures BringsNew(cache, items, d)
  {
    CacheHasTheLast(cache, items, d);
    UnchangedItemsKeepTheirData(cache, items, d);
    ChangedIsBringsNew(cache, items, d);
  }

  // What one client is offered after a change of some items.
  function Offer(i: Index, cache: Cache, changed: set<Item>, client: Client): map<Item, Data> {
    map d | d in Vals(i.clientToItems, client) * changed && d in cache :: cache[d]
  }

  // ---------- The class ----------

  class SystemStatusOsObserver {
    const mClientToDataItems: LocUnorderedSetMap<Client, Item>
    const mDataItemToClients: LocUnorderedSetMap<Item, Client>
    var mSubscriptionObj: bool
    var mDataItemCache: Cache
    // What the subscription object has been told so far.
    var calls: seq<Call>

    ghost predicate Apart()
      reads this
    {
      mClientToDataItems as object != mDataItemToClients
    }

    ghost function State(): Index
      reads this, mClientToDataItems, mDataItemToClients
    {
      Index(mClientToDataItems.mMap, mDataItemToClients.mMap, mSubscriptionObj)
    }

    constructor ()
      ensures Apart() && State() == EMPTY && calls == [] && mDataItemCache == map[]
      ensures fresh(mClientToDataItems) && fresh(mDataItemToClients)
    {
      mClientToDataItems := new LocUnorderedSetMap();
      mDataItemToClients := new LocUnorderedSetMap();
      mSubscriptionObj, mDataItemCache, calls := false, map[], [];
    }

    method TellFramework(c: Call)
      modifies `calls
      ensures calls == old(calls) + Tell(State(), c)
    {
      if mSubscriptionObj && c.items != {} {
        calls := calls + [c];
      }
    }

    // sendCachedDataItems: those of the items that are in the cache.
    method CachedDataItems(items: set<Item>) returns (offer: map<Item, Data>)
      ensures offer == map d | d in items && d in mDataItemCache :: mDataItemCache[d]
    {
      offer := map[];
      var todo := items;
      while todo != {}
        invariant todo <= items
        invariant offer == map d | d in items - todo && d in mDataItemCache :: mDataItemCache[d]
        decreases todo
      {
        var each :| each in todo;
        todo := todo - {each};
        if each in mDataItemCache {
          offer := offer[each := mDataItemCache[each]];
        }
      }
      assert items - todo == items;
    }

    // subscribe and requestData. The client is offered what the cache has of its items.
    method SubscribeCommand(items: set<Item>, client: Client, toRequestData: bool) returns (offer: map<Item, Data>)
      requires Apart() && items != {}
      modifies this, mClientToDataItems, mDataItemToClients
      ensures mDataItemCache == old(mDataItemCache)
      ensures var e := OnSubscribe(old(State()), items, client, toRequestData);
        State() == e.state && calls == old(calls) + e.out
      ensures offer == map d | d in items && d in mDataItemCache :: mDataItemCache[d]
    {
      var dataItemsToSubscribe := mDataItemToClients.Add(items, {client});
      var _ := mClientToDataItems.AddTo(client, items);
      offer := CachedDataItems(items);
      TellFramework(if toRequestData then RequestData(dataItemsToSubscribe) else SubscribeTo(dataItemsToSubscribe));
    }

    method UnsubscribeCommand(items: set<Item>, client: Client)
      requires Apart() && items != {}
      modifies this, mClientToDataItems, mDataItemToClients
      ensures mDataItemCache == old(mDataItemCache)
      ensures var e := OnUnsubscribe(old(State()), items, client);
        State() == e.state && calls == old(calls) + e.out
    {
      var _, unusedByClient := mClientToDataItems.TrimOrRemove({client}, items);
      var dataItemsToUnsubscribe, _ := mDataItemToClients.TrimOrRemove(unusedByClient, {client});
      TellFramework(UnsubscribeFrom(dataItemsToUnsubscribe));
    }

    method UnsubscribeAllCommand(client: Client)
      requires Apart()
      modifies this, mClientToDataItems, mDataItemToClients
      ensures mDataItemCache == old(mDataItemCache)
      ensures var e := OnUnsubscribeAll(old(State()), client);
        State() == e.state && calls == old(calls) + e.out
    {
      var diByClient := Vals(mClientToDataItems.mMap, client);
      if diByClient != {} {
        var _ := mClientToDataItems.Remove(client);
        var dataItemsToUnsubscribe, _ := mDataItemToClients.TrimOrRemove(diByClient, {client});
        TellFramework(UnsubscribeFrom(dataItemsToUnsubscribe));
      }
    }

    method UpdateSubscriptionCommand(items: set<Item>, client: Client) returns (offer: map<Item, Data>)
      requires Apart() && items != {}
      modifies this, mClientToDataItems, mDataItemToClients
      ensures mDataItemCache == old(mDataItemCache)
      ensures var e := OnUpdateSubscription(old(State()), items, client);
        State() == e.state && calls == old(calls) + e.out
      // Only of the items that are new to it is the client offered what there is.
      ensures var added := items - Vals(old(mClientToDataItems.mMap), client);
        offer == map d | d in added && d in mDataItemCache :: mDataItemCache[d]
    {
      ghost var was := State();
      var kept, added := mClientToDataItems.Update(client, items);
      var dataItemsToUnsubscribe, _ := mDataItemToClients.TrimOrRemove(kept, {client});
      var dataItemsToSubscribe := mDataItemToClients.Add(added, {client});
      offer := CachedDataItems(added);
      TellFramework(SubscribeTo(dataItemsToSubscribe));
      TellFramework(UnsubscribeFrom(dataItemsToUnsubscribe));
      Assoc(old(calls), Tell(was, SubscribeTo(dataItemsToSubscribe)),
            Tell(was, UnsubscribeFrom(dataItemsToUnsubscribe)));
    }

    method SetSubscriptionObjCommand()
      requires Apart()
      modifies this
      ensures mDataItemCache == old(mDataItemCache)
      ensures var e := OnSetSubscriptionObj(old(State()));
        State() == e.state && calls == old(calls) + e.out
    {
      mSubscriptionObj := true;
      var dis := mDataItemToClients.GetKeys();
      if dis != {} {
        calls := calls + [SubscribeTo(dis)];
        calls := calls + [RequestData(dis)];
      }
    }

    method UpdateCache(d: DataItem) returns (updated: bool)
      modifies `mDataItemCache
      ensures updated == Changes(old(mDataItemCache), d)
      ensures mDataItemCache == if updated then old(mDataItemCache)[d.id := d.data] else old(mDataItemCache)
    {
      updated := false;
      if d.handled {
        if d.id !in mDataItemCache || mDataItemCache[d.id] != d.data {
          mDataItemCache := mDataItemCache[d.id := d.data];
          updated := true;
        }
      }
    }

    // The procedure of a notification, in terms of the entries alone: what the cache holds
    // afterwards, and who is offered what.
    method Notify(items: seq<Option<DataItem>>) returns (offers: map<Client, map<Item, Data>>)
      requires Apart() && Inverse(State())
      modifies `mDataItemCache
      ensures State() == old(State()) && calls == old(calls)
      ensures forall d :: Cached(mDataItemCache, d) == DataAfter(old(mDataItemCache), items, d)
      ensures forall c, d :: c in offers && d in offers[c] <==>
                In(mClientToDataItems.mMap, c, d) && BringsNew(old(mDataItemCache), items, d)
      ensures forall c | c in offers :: offers[c] != map[]
      ensures forall c, d | c in offers && d in offers[c] :: Cached(mDataItemCache, d) == Some(offers[c][d])
    {
      ghost var was := mDataItemCache;
      offers := NotifyCommand(items);
      forall d ensures Cached(mDataItemCache, d) == DataAfter(was, items, d)
      {
        CacheHasTheLast(was, items, d);
      }
      forall c, d ensures c in offers && d in offers[c] <==>
                            In(mClientToDataItems.mMap, c, d) && BringsNew(was, items, d)
      {
        ChangedIsBringsNew(was, items, d);
        var wanted := Vals(mClientToDataItems.mMap, c) * Changed(was, items);
        assert d in wanted <==> In(mClientToDataItems.mMap, c, d) && BringsNew(was, items, d);
      }
    }

    // The procedure of a notification. Each client that wants a changed item is offered, in
    // one call, its changed items and nothing else; the others are not called.
    method NotifyCommand(items: seq<Option<DataItem>>) returns (offers: map<Client, map<Item, Data>>)
      requires Apart() && Inverse(State())
      modifies `mDataItemCache
      ensures State() == old(State()) && calls == old(calls)
      ensures mDataItemCache == CacheAfter(old(mDataItemCache), items)
      ensures var changed := Changed(old(mDataItemCache), items);
        && (forall c :: c in offers <==> Vals(mClientToDataItems.mMap, c) * changed != {})
        && (forall c | c in offers :: offers[c].Keys == Vals(mClientToDataItems.mMap, c) * changed)
        && (forall c, d | c in offers && d in offers[c] :: d in mDataItemCache && offers[c][d] == mDataItemCache[d])
    {
      ghost var changed := Changed(mDataItemCache, items);
      var toBeSent := ApplyItems(items);
      var clientSet := ClientsOf(toBeSent);
      offers := OffersTo(clientSet, toBeSent);
      forall c ensures c in offers <==> Vals(mClientToDataItems.mMap, c) * changed != {} {
        ClientIsMeant(State(), changed, c);
      }
    }

    method OffersTo(clientSet: set<Client>, toBeSent: set<Item>) returns (offers: map<Client, map<Item, Data>>)
      ensures offers.Keys == clientSet
      ensures forall c | c in offers :: offers[c] == Offer(State(), mDataItemCache, toBeSent, c)
    {
      offers := map[];
      var todo := clientSet;
      while todo != {}
        invariant todo <= clientSet && offers.Keys == clientSet - todo
        invariant forall c | c in offers :: offers[c] == Offer(State(), mDataItemCache, toBeSent, c)
        decreases todo
      {
        var client :| client in todo;
        todo := todo - {client};
        var forThisClient := Vals(mClientToDataItems.mMap, client) * toBeSent;
        var offer := CachedDataItems(forThisClient);
        offers := offers[client := offer];
      }
    }

    // A client is reached through some changed item exactly when it wants one.
    static lemma ClientIsMeant(i: Index, changed: set<Item>, c: Client)
      requires Inverse(i)
      ensures (exists d :: d in changed && In(i.itemToClients, d, c)) <==> Vals(i.clientToItems, c) * changed != {}
    {
      if d :| d in changed && In(i.itemToClients, d, c) {
        assert In(i.clientToItems, c, d);
        assert d in Vals(i.clientToItems, c) * changed;
      }
      if Vals(i.clientToItems, c) * changed != {} {
        var d :| d in Vals(i.clientToItems, c) * changed;
        assert In(i.clientToItems, c, d);
      }
    }

    method ApplyItems(items: seq<Option<DataItem>>) returns (toBeSent: set<Item>)
      modifies `mDataItemCache
      ensures mDataItemCache == CacheAfter(old(mDataItemCache), items)
      ensures toBeSent == Changed(old(mDataItemCache), items)
      ensures toBeSent <= mDataItemCache.Keys
    {
      toBeSent := {};
      var n := 0;
      while n < |items|
        invariant n <= |items|
        invariant CacheAfter(old(mDataItemCache), items) == CacheAfter(mDataItemCache, items[n..])
        invariant Changed(old(mDataItemCache), items) == toBeSent + Changed(mDataItemCache, items[n..])
      {
        var item := items[n];
        assert items[n..][0] == item && items[n..][1..] == items[n + 1..];
        if item.Some? {
          var updated := UpdateCache(item.value);
          if updated {
            toBeSent := toBeSent + {item.value.id};
          }
        }
        n := n + 1;
      }
      forall d | d in toBeSent ensures d in mDataItemCache {
        UnchangedItemsKeepTheirData(old(mDataItemCache), items, d);
      }
    }

    method ClientsOf(items: set<Item>) returns (clients: set<Client>)
      ensures forall c :: c in clients <==> exists d :: d in items && In(mDataItemToClients.mMap, d, c)
    {
      clients := {};
      var todo := items;
      while todo != {}
        invariant todo <= items
        invariant forall c | c in clients :: exists d :: d in items && In(mDataItemToClients.mMap, d, c)
        invariant forall d | d in items - todo :: Vals(mDataItemToClients.mMap, d) <= clients
        decreases todo
      {
        var each :| each in todo;
        todo := todo - {each};
        if each in mDataItemToClients.mMap {
          assert forall c | c in mDataItemToClients.mMap[each] :: In(mDataItemToClients.mMap, each, c);
          clients := clients + mDataItemToClients.mMap[each];
        }
      }
      forall c, d | d in items && In(mDataItemToClients.mMap, d, c) ensures c in clients {
        assert d in items - todo && c in Vals(mDataItemToClients.mMap, d);
      }
    }
  }
}
