# Verified models of the GPS library's engines

The repository is a GNSS stack for a device. Most of it forwards calls; what has to be right
on its own are several small stateful engines: the timer service with its pointer heap and its
two threads, the AGPS connection state machines, the tracking multiplexer, the network-initiated
(NI) sessions, the subscription index, a doubly linked list, the session dictionary of a client,
and the framing of messages over datagrams. This project models these engines in Dafny and proves
what they promise, over every input, every run and, where threads are involved, every interleaving.

Each engine is modelled twice where the source works in place: once as functions on values, about
which the properties are proved, and once as a class or a method with the fields, loops and links
of the source, whose methods are proved equal to those functions. Threads become state machines
whose steps are sections under a lock, single system calls and single accesses to a message queue.

| file | models |
|---|---|
| HeapTree.dfy, LocHeap.dfy | the heap of `LocHeap.cpp`: what its operations promise; the nodes and links |
| LocTimerRank.dfy | the order of timers and the deadline computation of `LocTimer.cpp` |
| LocTimerContainer.dfy | re-arming and expiry in the message task, one procedure at a time |
| LocTimerProtocol.dfy | clients, message task and poll thread interleaved; no timer is forgotten |
| LocTimerLifecycle.dfy | delegates are deleted once; callbacks match starts |
| LocTimerProgress.dfy | the two threads come to rest, and then no due timer is waiting |
| LocTimerEarly.dfy | exactly when a timer calls back ahead of its deadline |
| LocTimerStale.dfy | the time that stays armed on an empty heap |
| LocTimerWindow.dfy | why the int arithmetic of the order is good enough for a running service |
| Agps.dfy, AgpsStateMachine.dfy | the base and the data-service connection machine; the class on its list |
| AgpsSafety.dfy, AgpsNotices.dfy | what every run of a machine keeps; who is told what, and how often |
| AgpsTable.dfy | a second account of both machines, per subscriber and per kind of output |
| Tracking.dfy | the tracking multiplexer of `GnssAdapter.cpp` |
| NiSessions.dfy, NiProgress.dfy, NiAnswers.dfy | NI requests, responses and session threads interleaved; every payload comes to its end; what becomes of an answer |
| SetMap.dfy, OsObserver.dfy | `LocUnorderedSetMap` and the subscription index built on it |
| LinkedList.dfy | `linked_list.c` with its links |
| SessionDict.dfy, ClientSessions.dfy | `BiDict`, and the sessions of `LocationAPIClientBase` |
| ClientRaces.dfy, EndedSessions.dfy | calls of the client and callbacks of the engine interleaved on the dictionary; exactly when an ended session comes back |
| LocIpc.dfy | sending and reassembling messages over datagrams |
| Runs.dfy, Wrappers.dfy | runs of a machine, with and without output; small shared notions |

## Where the code differs from what it says or seems to promise

- The comment at gps/utils/LocHeap.cpp:34 says that `mSize` excludes the node itself. The code
  counts the node, and so does the model.
- The header of the heap describes `remove` by rank. The code compares addresses
  (gps/utils/LocHeap.cpp:170-193), and prunes by rank.
- `ranks` subtracts seconds in an `int`. It is an order as long as differences fit
  (`RanksRightIffSecondsFit`); beyond that `remove` can miss a timer that is present
  (`RemoveMissesWhenSecondsDoNotFit`). A time-out is an unsigned count of milliseconds, less than 50
  days, so a running service gets there only if a timer stays overdue for 68 years: until then its
  run is, step by step, the run by deadlines (`RunByRanksIsByDeadline`).
- `MsgTimerExpire` pops its first timer without looking at it. The timers popped are exactly the due
  ones if and only if the heap is empty or its top is due (`ExpirePopsExactlyTheDue`).
- A timer may call back ahead of its deadline, for one of two reasons. The first is such a pop: by
  the time a wake-up has become an expire message, the timer that was meant is gone, and the top is a
  later one. A stop and a start of another client in between are enough (`TimerMayFireEarly`); or the
  wake-up was for nothing from the beginning (see the next point). The second reason needs
  no undue pop: `LocTimerDelegate::expire` reads its client and stops it without a lock in between
  (gps/utils/LocTimer.cpp:530-536), so if that client stops and starts anew in between, the new
  delegate is stopped and called back for (`RestartedTimerFiresEarly`). `EarlyIffTooSoon` and
  `CallbacksDueIffNeverTooSoon` give the exact condition, and `UndisturbedCallbacksAreDue` shows that
  there is no third reason.
- `updateSoonestTime` has a branch that takes the kernel timer off the poll and disarms it when the
  heap is empty (gps/utils/LocTimer.cpp:290-296). No run reaches it: whoever may find the heap emptied
  passes NULL, which equals the top of an empty heap (`MessageTaskNeverDisarms`). Only the poll
  thread disarms (`PollThreadAloneDisarms`), so a time armed for a timer that was removed stays armed
  on the empty heap. A wake-up is for nothing if and only if the heap is empty
  (`WakeUpIsStaleIffHeapIsEmpty`), and it does harm: a timer that is started before its expire
  message is taken is called back for at once (`StaleTimeFiresLaterTimerEarly`). No timer is
  forgotten for it (`NoTimerForgotten`).
- The receive buffer of `LocIpc` keeps the bytes of the message before. They may complete a reserved
  text, or continue the digits of a length, so a message that is well-formed by itself can be lost
  even when all messages before it were short. `Clean` is the exact condition, a test on the bytes
  of the message and its predecessor; `StaleDigitLosesLongMessage` and `StaleTailFakesHead` are
  concrete cases outside of it.
- `BiDict` locks each call on its own and reads by `operator[]`, which inserts, and responses and
  trip reports remove sessions without the client's lock. Interleaved with them, the dictionary stays
  whole if and only if no client asks for the entity of an id that was removed meanwhile, and no
  session that has gone is removed again while id 0 is in use
  (`DictionaryStaysWholeIffNothingIsMissed`). A removal between `hasId` and `getExtById` leaves an
  id behind that cannot be started and that no response removes (`RemovalInsideStopLeavesTheId`),
  until an option update stores it again: under a new session, with id 0 in its entity, if the update
  is to fixes (`UpdateOfStrandedIdStoresIdZero`), and else under session 0, with no session started
  (`OtherUpdateOfStrandedIdStoresSessionZero`).
- An option update copies the entity of a session, removes the entry and stores the copy. A session
  that ends in between comes back (`EndedSessionComesBack`). That is the only way: ended sessions
  stay out if and only if no update stores a copy whose session has ended since it was made
  (`EndedSessionsStayOutIff`).
- `updateSubscription` trims the client from the items that it keeps, because
  `LocUnorderedSetMap::update` returns the values that stay, not those that go
  (gps/utils/LocUnorderedSetMap.h:173-186). The maps stay inverse if and only if the client wanted
  nothing before (`UpdateKeepsInverseIff`, `InverseIffNoHolderIsUpdated`), when it is a plain
  subscription. On top of that, the loop that intersects two sets goes on from an iterator that it has
  erased (gps/utils/LocUnorderedSetMap.h:59-66) whenever the client keeps an item; the model goes on to
  the next element.
- The interface of the framework promises a subscription list for `subscribe` only, and a first client
  that asks by `requestData` gets its items requested and not subscribed to. The items subscribed to
  are the wanted ones if and only if none came in that way (`SubscriptionListIsWantedIff`).
- `deleteSubscriber` goes on comparing with the subscriber that it has just deleted, whenever that one
  is itself on the list and more elements follow (gps/gnss/Agps.cpp:419-436, reached from 136 and
  830). What it then reads is undefined. It deletes the right subscriber only, if and only if no
  subscriber behind that one has the handle it happens to read (`DeletesRightlyIff`). The machines
  read the handle that was there.
- `requestNiNotify` frees a payload that it turns away, but not one that comes while no client has
  an NI callback (gps/gnss/GnssAdapter.cpp:2423-2426). Such a payload is never accepted, and the
  statements below are about accepted ones.

## Model

| member | source | states |
|---|---|---|
| HeapTree.CheckNodesDecidesGood | gps/utils/LocHeap.cpp:197-220 | the neighbour-by-neighbour check accepts a tree if and only if no element of any subtree outranks its root and every size counter is exact |
| HeapTree.PushKeepsGood | gps/utils/LocHeap.cpp:107-124 | push keeps order and sizes and adds exactly the pushed object |
| HeapTree.PopKeepsGood | gps/utils/LocHeap.cpp:134-165 | pop keeps order and sizes, takes away exactly the top, and nothing outranks what it takes |
| HeapTree.RemoveKeepsGood | gps/utils/LocHeap.cpp:170-193 | remove keeps order and sizes; it finds the object if and only if it is in the tree, takes away exactly that one, and otherwise changes nothing |
| HeapTree.PrunedSubtreeLacksIt | gps/utils/LocHeap.cpp:179-190 | for every total preorder, a subtree whose top the target outranks does not hold the target |
| HeapTree.RemoveFindsIt | gps/utils/LocHeap.cpp:170-193 | found if and only if present |
| HeapTree.PushTop | gps/utils/LocHeap.cpp:107-124 | the top changes exactly when the pushed object outranks it |
| HeapTree.RemoveTop | gps/utils/LocHeap.cpp:170-193 | removing an object below the top leaves the top alone |
| HeapTree.PushKeepsBalanced | gps/utils/LocHeap.cpp:107-124 | left size minus right size stays 0 or 1 at every node |
| HeapTree.PushAllIsShallow | gps/utils/LocHeap.cpp:101-124 | a heap built by n pushes is balanced, has exact sizes, and its height h satisfies 2^(h-1) <= n |
| LocHeap.LocHeapNode.PushNode | gps/utils/LocHeap.cpp:107-124 | the push on links and swapped data gives exactly the tree that the value-level push gives |
| LocHeap.LocHeapNode.PopNode | gps/utils/LocHeap.cpp:134-165 | the pop on links likewise; it returns a detached node that holds the former top, which is no longer in the tree |
| LocHeap.LocHeapNode.RemoveNode | gps/utils/LocHeap.cpp:170-193 | the removal on links likewise; the node it cuts out is detached and holds the given object |
| LocHeap.LocHeapNode.CheckNodes | gps/utils/LocHeap.cpp:197-220 | the check on nodes decides what the value-level check decides |
| LocHeap.LocHeap.Push | gps/utils/LocHeap.cpp:228-235 | a heap with a tree or without one comes to hold the pushed object |
| LocHeap.LocHeap.Peek | gps/utils/LocHeap.cpp:237-243 | the top, or nothing for an empty heap |
| LocHeap.LocHeap.Pop | gps/utils/LocHeap.cpp:245-254 | returns the former top and drops it, or nothing for an empty heap |
| LocHeap.LocHeap.Remove | gps/utils/LocHeap.cpp:256-268 | returns the given object exactly when the value-level removal finds it |
| LocTimerRank.RanksRightIffSecondsFit | gps/utils/LocTimer.cpp:509-523 | within 2^32 seconds, the rank orders two deadlines rightly if and only if the difference of their seconds fits in an int |
| LocTimerRank.HeapIsByDeadline | gps/utils/LocTimer.cpp:509-523 | for deadlines in any window of 2^31 seconds, every heap operation does what it would do with exact comparison of deadlines |
| LocTimerRank.RemoveMissesWhenSecondsDoNotFit | gps/utils/LocTimer.cpp:509-523 | four deadlines too far apart: a timer in the heap that remove does not find |
| LocTimerRank.FutureTimeIsExact | gps/utils/LocTimer.cpp:558-564 | the deadline is now plus the time-out to the nanosecond, and normalized |
| LocTimerContainer.ExpirePopsExactlyTheDue | gps/utils/LocTimer.cpp:363-376 | popped and remaining timers make up the heap, popped in order of their deadlines, none that remains is due; none is popped early if and only if the heap is empty or its top is due |
| LocTimerContainer.PushKeepsSound | gps/utils/LocTimer.cpp:320-324 | setting the kernel timer only for a sooner top keeps it at the top's deadline |
| LocTimerContainer.RemoveKeepsSound | gps/utils/LocTimer.cpp:337-350 | re-arming only when the removed timer was the top keeps the kernel timer at the top's deadline |
| LocTimerContainer.ExpireMakesSound | gps/utils/LocTimer.cpp:363-377 | after an expiry the kernel timer is at the top's deadline, whatever it was |
| LocTimerContainer.AfterPushPushes | gps/utils/LocTimer.cpp:320-324 | a push adds exactly its timer to the heap, sets the kernel timer to its deadline if it is sooner than all before, and else leaves the kernel timer alone |
| LocTimerContainer.AfterRemoveRemoves | gps/utils/LocTimer.cpp:337-347 | a removal takes exactly its timer out of the heap, and leaves the kernel timer alone unless that was the top |
| LocTimerContainer.AfterExpireExpires | gps/utils/LocTimer.cpp:363-377 | the timers before an expiry are those expired, in order and the top first, and those left, none of which is due |
| LocTimerContainer.LocTimerContainer.UpdateSoonestTime | gps/utils/LocTimer.cpp:283-309 | polls, sets or disarms the kernel timer as prior and current top require, and leaves it alone otherwise |
| LocTimerContainer.LocTimerContainer.ProcPush | gps/utils/LocTimer.cpp:320-324 | heap and kernel timer after a push message: the timer is in the heap with all the others, and the kernel timer is at the top's deadline |
| LocTimerContainer.LocTimerContainer.ProcRemove | gps/utils/LocTimer.cpp:337-347 | heap and kernel timer after a remove message: all timers but this one, and the kernel timer at the top's deadline |
| LocTimerContainer.LocTimerContainer.PopIfOutRanks | gps/utils/LocTimer.cpp:387-394 | pops the top unless the given time comes before it |
| LocTimerContainer.LocTimerContainer.ProcExpire | gps/utils/LocTimer.cpp:363-377 | the loop over due timers yields exactly the expiry of the specification: those expired in order, those left not due, none lost |
| LocTimerProtocol.NoTimerForgotten | gps/utils/LocTimer.cpp:283-385 | in every interleaving, between two messages: if timers wait, the kernel timer is polled and set to the soonest of all deadlines, or an expire message is queued or about to be sent |
| LocTimerProtocol.RunKeepsKernelInv | gps/utils/LocTimer.cpp:283-385 | the invariant behind it, at every step of message task and poll thread |
| LocTimerEarly.EarlyIffTooSoon | gps/utils/LocTimer.cpp:363-376 | in every interleaving, the delegate that an expiry stops and calls back for has its deadline ahead if and only if it was popped unseen by an expire message whose top was not due and time has not caught up with it, or its client was started anew between the look at the client and the stop and the new time-out has not passed |
| LocTimerEarly.CallbacksDueIffNeverTooSoon | gps/utils/LocTimer.cpp:525-538 | every callback of a run is due if and only if neither holds at any callback |
| LocTimerEarly.UndisturbedCallbacksAreDue | gps/utils/LocTimer.cpp:363-376 | every callback of a run is due if no expire message meets a top that is not due and no client is started anew while an expiry is about to stop it |
| LocTimerEarly.TimerMayFireEarly | gps/utils/LocTimer.cpp:370-384 | a run of the first kind: a client is called back a minute early |
| LocTimerEarly.RestartedTimerFiresEarly | gps/utils/LocTimer.cpp:525-538 | a run of the second kind, in which the top was due |
| LocTimerWindow.RunByRanksIsByDeadline | gps/utils/LocTimer.cpp:509-523 | every interleaving in which no live timer is ever overdue by 68 years, nor an expiry under way for that long: the service that compares by its int arithmetic, in the heap, in re-arming and in expiring, goes through exactly the states of the service that compares deadlines, about which the other statements are |
| LocTimerWindow.HeapIsExactUnlessOverdue | gps/utils/LocTimer.cpp:509-523 | the same for one state: each heap operation and each comparison with the top, for a live timer or the time of an expiry |
| LocTimerStale.MessageTaskNeverDisarms | gps/utils/LocTimer.cpp:287-296 | in every interleaving, the branch for an emptied heap is not reached |
| LocTimerStale.PollThreadAloneDisarms | gps/utils/LocTimer.cpp:380-383 | in every interleaving, the kernel timer is disarmed and taken off the poll by the poll thread's own calls only |
| LocTimerStale.WakeUpTakesEffect | gps/utils/LocTimer.cpp:380-384 | a wake-up seen through turns the kernel timer off and queues one expire message |
| LocTimerStale.EmptiedHeapLeavesKernelAlone | gps/utils/LocTimer.cpp:337-350 | a message that leaves the heap empty leaves the kernel timer as it was |
| LocTimerStale.WakeUpIsStaleIffHeapIsEmpty | gps/utils/LocTimer.cpp:450-474 | in every interleaving, between two messages with no expire message on its way: the poll thread is about to wake up with no timer due if and only if the heap is empty |
| LocTimerStale.StaleTimeFiresLaterTimerEarly | gps/utils/LocTimer.cpp:337-350 | a run in which the time of a timer that was deleted fires a later timer a minute early |
| LocTimerLifecycle.DeletedOnceAndForgotten | gps/utils/LocTimer.cpp:331-353 | in every interleaving a delegate is deleted at most once, and no heap, queue, expiry or client refers to a deleted one |
| LocTimerLifecycle.RunKeepsLife | gps/utils/LocTimer.cpp:479-591 | the invariant behind it: each live delegate is in one place and has at most one removal under way |
| LocTimerLifecycle.CallbacksNeverExceedStarts | gps/utils/LocTimer.cpp:525-591 | per client, callbacks and stops never exceed starts and trail them by at most one |
| LocTimerLifecycle.StartTakesEffect | gps/utils/LocTimer.cpp:553-576 | a start of a client that is not running puts a timer with the deadline asked for on its way to the heap; any other changes nothing |
| LocTimerLifecycle.StopTakesEffect | gps/utils/LocTimer.cpp:578-591 | a stop of a running client detaches its timer and asks for the removal; any other changes nothing |
| LocTimerProgress.StepsMakeUpTheProcedure | gps/utils/LocTimer.cpp:313-394 | the single steps of a message, with nothing in between, do to heap and kernel timer what its procedure does |
| LocTimerProgress.QuiescentMeansNoStep | gps/utils/LocTimer.cpp:450-474 | the state called quiescent is the one in which neither thread can do a step |
| LocTimerProgress.ScheduleIsBounded | gps/utils/LocTimer.cpp:358-394 | every schedule of the two threads ends within a number of steps read off the state |
| LocTimerProgress.ScheduleToTheEnd | gps/utils/LocTimer.cpp:358-394 | every schedule can be continued until there is nothing left to do |
| LocTimerProgress.EveryDueTimerFires | gps/utils/LocTimer.cpp:283-538 | after every history, once the two threads have come to rest: no waiting timer is due, each client whose timer was due runs no more, and each client has been called back once for a timer that stopped running meanwhile and once more if it was being called already |
| LocTimerProgress.EveryDueTimerIsGone | gps/utils/LocTimer.cpp:283-538 | the same with the bound on the steps: no waiting timer is due, each running client has its timer in the heap with its deadline ahead, and every abandoned delegate has been deleted |
| Agps.IndexOf | gps/gnss/Agps.cpp:472-485 | the first subscriber with a handle |
| Agps.FirstActive | gps/gnss/Agps.cpp:487-500 | the first active subscriber |
| AgpsSafety.StateAndListAgree | gps/gnss/Agps.cpp:72-290 | base machine, every run without a modem restart: no subscribers in RELEASED, an active one in PENDING and ACQUIRED, an inactive one in RELEASING, every inactive one waits for the close, handles are unique |
| AgpsSafety.OneConnectionAtATime | gps/gnss/Agps.cpp:72-314 | base machine, every run with modem restarts: a connection is requested only when none is outstanding, released only when one is, and outstanding exactly in PENDING and ACQUIRED |
| AgpsSafety.UnsubscribeKeepsInv | gps/gnss/Agps.cpp:116-178 | leaving, from each state, keeps the agreement of state and list |
| AgpsSafety.ClosedKeepsInv | gps/gnss/Agps.cpp:223-239 | the end of a release, with or without subscribers that came meanwhile, keeps it |
| AgpsSafety.RunKeepsUnique | gps/gnss/Agps.cpp:398-436 | either machine, every run with modem restarts: no handle is listed twice |
| AgpsSafety.ReactKeepsUnique | gps/gnss/Agps.cpp:72-290 | the same for each event |
| AgpsNotices.EveryGrantTellsEachActiveOnce | gps/gnss/Agps.cpp:180-201 | after every run of either machine: a grant in PENDING tells each active subscriber once that the connection is open, no other one, and keeps the list |
| AgpsNotices.GrantTellsEachActiveOnce | gps/gnss/Agps.cpp:180-201 | the same for one step, from any list without repeated handles |
| AgpsNotices.NoticesReachEachOnce | gps/gnss/Agps.cpp:316-386 | a notice to a list reaches each of its handles once and nobody else |
| AgpsNotices.EveryLeaverIsToldOnce | gps/gnss/Agps.cpp:116-386 | after every run of either machine, modem restarts included: who leaves the list in the next step, unless that is a restart, is told so exactly once in that step (for the data-service machine's denial, by one queued SUPL request) |
| AgpsNotices.WhoLeavesIsToldOnce | gps/gnss/Agps.cpp:116-290 | the same for one step, from any list without repeated handles |
| AgpsNotices.EverySubscriptionIsAnsweredOnce | gps/gnss/Agps.cpp:72-290 | base machine, every run without a modem restart: the subscriptions taken for a handle are those that had their one final notice, and the one still listed |
| AgpsNotices.RetriesAreBounded | gps/gnss/Agps.cpp:583-700 | data-service machine, every run: at most four BUSY answers have not yet led to a SUPL request |
| AgpsNotices.RunCounts | gps/gnss/Agps.cpp:583-700 | the retry counter is the number of BUSY answers since the last fallback, and between 0 and 4 |
| AgpsNotices.FifthBusyFallsBack | gps/gnss/Agps.cpp:613-627 | the fifth BUSY answer queues a SUPL request in the same step |
| AgpsTable.EveryStepIsAsTabled | gps/gnss/Agps.cpp:72-700 | after every run of either machine, modem restarts included, every event: the list is the survivors in their order and a newcomer behind them, the state is the tabled one, and each possible output, to the modem, the framework, the data-service client, the queue and the timer, is made exactly as often as the table says |
| AgpsTable.ListIsAsTabled | gps/gnss/Agps.cpp:72-436 | the list after an event, subscriber by subscriber |
| AgpsTable.StateIsAsTabled | gps/gnss/Agps.cpp:72-290 | the state after an event, by who else is active, left or waiting |
| AgpsTable.OutputsAreAsTabled | gps/gnss/Agps.cpp:72-700 | how often an event makes each output |
| AgpsTable.OpenSuccessesAreCounted | gps/gnss/Agps.cpp:72-201 | after every run of either machine: a handle is told once that the connection is open if it joins an open one, or is active when one is granted, and else not |
| AgpsStateMachine.AgpsStateMachine.ProcessAgpsEventSubscribe | gps/gnss/Agps.cpp:72-114 | in place, what the specification does on a subscription, in each state |
| AgpsStateMachine.AgpsStateMachine.ProcessAgpsEventUnsubscribe | gps/gnss/Agps.cpp:116-178 | the same for leaving |
| AgpsStateMachine.AgpsStateMachine.ProcessAgpsEventGranted | gps/gnss/Agps.cpp:180-201 | the same for a grant |
| AgpsStateMachine.AgpsStateMachine.ProcessAgpsEventReleased | gps/gnss/Agps.cpp:203-248 | the same for a release |
| AgpsStateMachine.AgpsStateMachine.ProcessAgpsEventDenied | gps/gnss/Agps.cpp:250-290 | the same for a denial |
| AgpsStateMachine.AgpsStateMachine.NotifyAllSubscribers | gps/gnss/Agps.cpp:316-349 | the loop that erases while it iterates notifies the chosen subscribers in order and keeps the others in order |
| AgpsStateMachine.AgpsStateMachine.NotifyEventToSubscriber | gps/gnss/Agps.cpp:351-386 | the notice of the machine's kind, the retry counter, and the deletion |
| AgpsStateMachine.AgpsStateMachine.RequestOrReleaseDataConn | gps/gnss/Agps.cpp:583-650 | every way in which a data call is set up, retried, refused or stopped |
| AgpsStateMachine.AgpsStateMachine.AddSubscriber | gps/gnss/Agps.cpp:398-417 | appended unless its handle is listed |
| AgpsStateMachine.AgpsStateMachine.DeleteSubscriber | gps/gnss/Agps.cpp:419-436 | every subscriber with its handle is dropped, if the handle stays readable |
| AgpsSafety.DeletesRightlyIff | gps/gnss/Agps.cpp:424-435 | when the subscriber to delete is on the list itself, whatever is read from it after its deletion: the right one and no other is deleted if and only if no later subscriber has the handle read at its position |
| AgpsStateMachine.AgpsStateMachine.Process | gps/gnss/Agps.cpp:770-901 | each request, report and timer does in place what the specification does |
| Tracking.ServesAfterStart | gps/gnss/GnssAdapter.cpp:1498-1521 | restarting the engine only for a strictly smaller interval keeps it at the minimum of all sessions |
| Tracking.ServesAfterUpdate | gps/gnss/GnssAdapter.cpp:1646-1682 | the three-way choice of an update keeps it at the minimum |
| Tracking.ServesAfterStop | gps/gnss/GnssAdapter.cpp:1724-1755 | the choice of a stop keeps it at the minimum |
| Tracking.GnssAdapter.FindSmallest | gps/gnss/GnssAdapter.cpp:1505-1512 | the search loop, in any order of visiting, finds options with the smallest interval among the sessions it does not skip |
| Tracking.GnssAdapter.StartTrackingMultiplex | gps/gnss/GnssAdapter.cpp:1498-1521 | on success the engine serves the sessions with the new one; on failure it is as before; it is called only for a smaller interval |
| Tracking.GnssAdapter.UpdateTrackingMultiplex | gps/gnss/GnssAdapter.cpp:1646-1682 | the same for new options, with at most one call of the engine |
| Tracking.GnssAdapter.StopTrackingMultiplex | gps/gnss/GnssAdapter.cpp:1724-1755 | the same without the session; the engine is left alone when another one is as fast |
| Tracking.GnssAdapter.StartTrackingCommand | gps/gnss/GnssAdapter.cpp:1451-1495 | the session is stored if and only if the start succeeded; one response with the right error |
| Tracking.GnssAdapter.UpdateTrackingCommand | gps/gnss/GnssAdapter.cpp:1599-1643 | the options are stored if and only if the update succeeded; nothing happens for an unknown session |
| Tracking.GnssAdapter.StopTrackingCommand | gps/gnss/GnssAdapter.cpp:1685-1721 | the session is dropped if and only if the stop succeeded; nothing happens for an unknown session |
| Tracking.GnssAdapter.StopClientSessions | gps/gnss/GnssAdapter.cpp:1143-1157 | other clients keep their sessions; if this one keeps any, the engine refused a call on the way; every turn of the loop leaves the engine at the minimum |
| Tracking.GnssAdapter.RestartSessions | gps/gnss/GnssAdapter.cpp:1222-1245 | a stopped engine serves all sessions again, after one call, if that succeeds |
| NiSessions.AcceptedPayloadsAreConsumedOnce | gps/gnss/GnssAdapter.cpp:1862-1931 | in every interleaving: no payload is freed or passed on twice, one that is passed on is freed, one that is not freed is in a session, a thread or a message |
| NiProgress.EveryPayloadIsConsumed | gps/gnss/GnssAdapter.cpp:2350-2409 | after every history, every schedule of session threads and message task ends within a number of steps read off the state, without any answer of a user; at rest each payload accepted so far has been freed, once |
| NiProgress.ScheduleIsBounded | gps/gnss/GnssAdapter.cpp:2350-2409 | each step of a thread or of the message task brings the end closer |
| NiProgress.ScheduleToTheEnd | gps/gnss/GnssAdapter.cpp:2350-2409 | every schedule can be continued until nothing is left to do |
| NiProgress.AtRestMeansNoStep | gps/gnss/GnssAdapter.cpp:2350-2409 | the state called at rest is the one in which neither a thread nor the message task can do a step |
| NiSessions.InProgressIsNotOverwritten | gps/gnss/GnssAdapter.cpp:2428-2466 | a payload leaves its session only into the hands of the thread started for it |
| NiSessions.PlainStartsAlone | gps/gnss/GnssAdapter.cpp:2438-2450 | a plain request never starts while an emergency one is in progress |
| NiSessions.FreedByItsAnswer | gps/gnss/GnssAdapter.cpp:1924-1931 | a payload is freed only by the message that passes it on, or by its own thread when the answer is to ignore it |
| NiSessions.CarriedWithItsAnswer | gps/gnss/GnssAdapter.cpp:2389-2406 | with any other answer its thread carries off that answer together with its own payload |
| NiSessions.SentWithItsAnswer | gps/gnss/GnssAdapter.cpp:2404-2406 | what a thread carries it sends as it is |
| NiAnswers.EveryReplyIsAnAnswer | gps/gnss/GnssAdapter.cpp:1862-1931 | in every interleaving: what informNiResponse is told about a payload is an answer that was taken before, with a client to give it, for the kind of request the payload was for; or it is no response, after the payload's thread has stopped waiting |
| NiAnswers.AnswerReachesItsSession | gps/gnss/GnssAdapter.cpp:1869-1893 | in every interleaving: an answer whose id is that of a session with a payload is stored in that session, and only there; an accepted emergency makes a stored plain request be ignored first |
| NiAnswers.UndisturbedAnswerIsPassedOn | gps/gnss/GnssAdapter.cpp:1862-2406 | with nothing in between, the answer given for a request is sent on together with its payload |
| NiAnswers.NotifyTakesEffect | gps/gnss/GnssAdapter.cpp:2412-2466 | a request is stored with a new id and a thread of its own if and only if a client can be asked and its kind may start; one that is turned away is freed |
| NiAnswers.RespondTakesEffect | gps/gnss/GnssAdapter.cpp:1864-1896 | which session an answer is for, and that any other is dropped |
| NiAnswers.GoOnTakesEffect | gps/gnss/GnssAdapter.cpp:1876-1893 | each section under a lock stores its answer in its session alone |
| NiAnswers.WaitEnds | gps/gnss/GnssAdapter.cpp:2366-2399 | a thread that ends its wait leaves its session without a payload and without an answer |
| NiAnswers.ThreadEnds | gps/gnss/GnssAdapter.cpp:2401-2408 | it clears the id, sends its reply if it has one, and is gone |
| NiAnswers.InformTakesEffect | gps/gnss/GnssAdapter.cpp:1924-1931 | replies are passed on in the order sent, and their payloads freed |
| NiSessions.RunKeepsInv | gps/gnss/GnssAdapter.cpp:2350-2466 | the invariant behind these: each payload has one holder at every step |
| SetMap.TrimSet | gps/utils/LocUnorderedSetMap.h:41-51 | what is left and what is gone, for any order of visiting |
| SetMap.LocUnorderedSetMap.TrimOrRemove | gps/utils/LocUnorderedSetMap.h:123-139 | every named entry trimmed, emptied entries dropped; the keys dropped and the values that went |
| SetMap.LocUnorderedSetMap.Add | gps/utils/LocUnorderedSetMap.h:157-171 | every named entry extended; the keys that are new |
| SetMap.RemoveAndReturnInterset | gps/utils/LocUnorderedSetMap.h:56-70 | the intersection, and both sets without it, for any order of visiting |
| SetMap.LocUnorderedSetMap.Update | gps/utils/LocUnorderedSetMap.h:173-188 | the new values are stored; the common ones are returned, the others handed back |
| SetMap.LocUnorderedSetMap.GetKeys | gps/utils/LocUnorderedSetMap.h:110-117 | all keys |
| OsObserver.IndexAndFrameworkAgree | gps/core/SystemStatusOsObserver.cpp:63-282 | over every run: the two maps are inverse, hold no empty set and say who wants what; with a subscription object, the items it has been told to take and not to give up are exactly the wanted ones; it is told to take none it has and to give up none it has not, except that a newly set object is told all of them by one subscription and one request for data. A request for data counts as taking its items |
| OsObserver.SubscriptionListIsWantedIff | gps/core/SystemStatusOsObserver.cpp:69-133 | over every run, once there is a subscription object: the items it was told to subscribe to, and not to give up, are the wanted ones less those whose first client came with a request for data, so they are all the wanted ones if and only if there are none of these |
| OsObserver.InverseIffNoHolderIsUpdated | gps/core/SystemStatusOsObserver.cpp:150-175 | over every run with subscription updates: the maps are inverse after each message if and only if no client that wants anything is updated |
| OsObserver.UpdateKeepsInverseIff | gps/core/SystemStatusOsObserver.cpp:150-175 | an update keeps the maps inverse if and only if its client wants nothing before |
| OsObserver.UpdateOfNewClientIsSubscription | gps/core/SystemStatusOsObserver.cpp:150-199 | and then it does what a subscription does |
| OsObserver.SystemStatusOsObserver.UpdateSubscriptionCommand | gps/core/SystemStatusOsObserver.cpp:150-199 | both maps and the framework after an update, and what the client is offered |
| OsObserver.SubscribeKeepsInverse | gps/core/SystemStatusOsObserver.cpp:111-133 | a subscription adds exactly its pairs to both maps |
| OsObserver.UnsubscribeKeepsInverse | gps/core/SystemStatusOsObserver.cpp:222-241 | an unsubscription takes exactly its pairs out of both maps |
| OsObserver.UnsubscribeAllKeepsInverse | gps/core/SystemStatusOsObserver.cpp:261-282 | it takes exactly the pairs of its client out of both maps |
| OsObserver.ReactKeepsInStep | gps/core/SystemStatusOsObserver.cpp:69-282 | each message tells the framework exactly the first-ins and last-outs |
| OsObserver.UnchangedItemsKeepTheirData | gps/core/SystemStatusOsObserver.cpp:309-320 | a notification changes the cache only at the items it reports as changed |
| OsObserver.CacheHasTheLast | gps/core/SystemStatusOsObserver.cpp:309-316 | after a notification the cache has for each item the data of the last entry for it that is taken, and its old data if there is none |
| OsObserver.ChangedIsBringsNew | gps/core/SystemStatusOsObserver.cpp:309-316 | the items to be sent are those to which some entry brings data other than was there just before |
| OsObserver.OtherDataIsNew | gps/core/SystemStatusOsObserver.cpp:309-316 | each item whose data ends up new or different is among them |
| OsObserver.SystemStatusOsObserver.Notify | gps/core/SystemStatusOsObserver.cpp:309-342 | the cache after a notification, and for each client and item, in terms of the entries alone: it is offered if and only if the client wants it and some entry brings it new data, and with the data the cache then has |
| OsObserver.UpdateKeepsInStep | gps/core/SystemStatusOsObserver.cpp:150-199 | an update tells the framework of exactly the items that come into the index and of those that leave it |
| OsObserver.SystemStatusOsObserver.NotifyCommand | gps/core/SystemStatusOsObserver.cpp:309-342 | the clients called are those that want a changed item; each is offered exactly its changed items, with the new data |
| OsObserver.SystemStatusOsObserver.ClientsOf | gps/core/SystemStatusOsObserver.cpp:319-325 | the clients of some items |
| OsObserver.SystemStatusOsObserver.SubscribeCommand | gps/core/SystemStatusOsObserver.cpp:111-133 | both maps and the framework after a subscription; the client is offered what the cache has |
| OsObserver.SystemStatusOsObserver.UnsubscribeCommand | gps/core/SystemStatusOsObserver.cpp:222-241 | both maps and the framework after an unsubscription |
| OsObserver.SystemStatusOsObserver.UnsubscribeAllCommand | gps/core/SystemStatusOsObserver.cpp:261-282 | both maps and the framework after all is unsubscribed |
| OsObserver.SystemStatusOsObserver.SetSubscriptionObjCommand | gps/core/SystemStatusOsObserver.cpp:69-79 | a new subscription object is told every wanted item |
| LinkedList.FirstInFirstOut | gps/utils/linked_list.c:110-203 | for every mix of adds and removes, what came out is the beginning of what went in, and the list holds the rest |
| LinkedList.AddAndRemove | gps/utils/linked_list.c:110-203 | every mix of calls of add and remove on the linked list itself hands out and keeps what the queue does |
| LinkedList.Add | gps/utils/linked_list.c:110-155 | prepends, or fails for a null list or null data; links stay consistent |
| LinkedList.Remove | gps/utils/linked_list.c:161-203 | drops and returns the last, with every error case |
| LinkedList.Flush | gps/utils/linked_list.c:228-259 | empties the list and disposes of each element's data once, in order |
| LinkedList.Search | gps/utils/linked_list.c:265-324 | finds the first match; cuts out exactly that one if asked, and disposes of its data when the caller does not take it |
| LinkedList.DisposedOfOnce | gps/utils/linked_list.c:240-256 | each element with a dealloc function is disposed of by exactly one call of it, on its data |
| LinkedList.ListState.Unlink | gps/utils/linked_list.c:294-318 | cutting out one element keeps head, tail, next and prev consistent |
| SessionDict.SetKeepsInverseIff | gps/location/LocationAPIClientBase.h:291-297 | the maps stay inverse if and only if the pair replaces itself or two absent keys |
| SessionDict.RmByIdKeepsInverseIff | gps/location/LocationAPIClientBase.h:305-311 | if and only if the id is present or session 0 is absent |
| SessionDict.RmBySessionKeepsInverseIff | gps/location/LocationAPIClientBase.h:312-318 | if and only if the session is present or id 0 is absent |
| SessionDict.GetExtByIdKeepsInverseIff | gps/location/LocationAPIClientBase.h:339-353 | if and only if the id is present |
| SessionDict.RemovalTakesOnePair | gps/location/LocationAPIClientBase.h:305-318 | removal by either side is the same and takes one pair with its data |
| SessionDict.BiDict.RemoveById | gps/location/LocationAPIClientBase.h:305-311 | the three maps after a removal by id, insertion by `operator[]` included |
| SessionDict.BiDict.RemoveBySession | gps/location/LocationAPIClientBase.h:312-318 | the three maps after a removal by session |
| SessionDict.BiDict.GetExtById | gps/location/LocationAPIClientBase.h:339-353 | the data of an id or zeros, and what the look-up leaves behind |
| ClientSessions.ThreeMapsActAsOneTable | gps/location/LocationAPIClientBase.cpp:377-555 | over every run with fresh sessions, calls of the client and callbacks one at a time: forward and backward map are inverse, the data map has the same sessions, each entry names its id and its own session with the other session zero; and the three maps act as one table from ids to entities |
| ClientSessions.StepRefinesTable | gps/location/LocationAPIClientBase.cpp:377-912 | start, stop, option update with and without a change of family, fetch, response and trip report each do to the maps what they do to the table |
| ClientSessions.UpdateOnTable | gps/location/LocationAPIClientBase.cpp:468-555 | an option update gives its id one entry under the session it then has, and no other entry changes |
| ClientSessions.ResponseRefinesTable | gps/location/LocationAPIClientBase.h:383-438 | a failed start or a successful stop ends exactly the session of the response |
| ClientSessions.TripOnTable | gps/location/LocationAPIClientBase.cpp:828-849 | a trip report ends exactly the listed sessions that are on a trip, and reports each of their ids once |
| ClientSessions.CallsFollowTheirStart | gps/location/LocationAPIClientBase.cpp:377-580 | over every run, each stop, update and fetch is called on a session that was started before, by the family of calls that started it |
| ClientSessions.EveryStepIsAsTabled | gps/location/LocationAPIClientBase.cpp:377-912 | after every run with fresh sessions, every event: the table and the queue of requests, and what is called and reported, read off the table; a stop calls the stop of the session's own family, an update to the other family stops the old session and then starts the new one |
| ClientSessions.StepPutsOut | gps/location/LocationAPIClientBase.cpp:377-912 | what an event calls and reports |
| ClientSessions.ResponseEndsIff | gps/location/LocationAPIClientBase.h:383-438 | a response ends its session if and only if it answers a start that failed or a stop that succeeded |
| ClientSessions.NoSessionIsLost | gps/location/LocationAPIClientBase.cpp:377-912 | over every run with fresh sessions: every session ever started is in the table, was stopped by a call, or was ended by a response or a trip report |
| ClientSessions.RemovalInsideStopLeavesTheId | gps/location/LocationAPIClientBase.cpp:436-443 | a removal between the two calls on the dictionary breaks it, and neither a start nor a response mends it |
| ClientRaces.DictionaryStaysWholeIffNothingIsMissed | gps/location/LocationAPIClientBase.cpp:377-555 | in every interleaving of the single dictionary calls of the client with those of responses and trip reports: the dictionary is whole after each call if and only if no entity is asked for an id that was removed meanwhile and no session that has gone is removed again while id 0 is in use |
| ClientRaces.StepsMakeUpStart | gps/location/LocationAPIClientBase.cpp:384-425 | the single dictionary calls of a start, with nothing in between, do what the start does |
| ClientRaces.StepsMakeUpLookUp | gps/location/LocationAPIClientBase.cpp:442-443 | the same for a stop and for a fetch |
| ClientRaces.StepsMakeUpUpdate | gps/location/LocationAPIClientBase.cpp:475-545 | the same for an option update |
| ClientRaces.StepsMakeUpRemoval | gps/location/LocationAPIClientBase.cpp:887-891 | the same for a removal |
| ClientRaces.StepKeepsWholeIff | gps/location/LocationAPIClientBase.h:291-353 | the same for each single call |
| ClientRaces.UpdateOfStrandedIdStoresIdZero | gps/location/LocationAPIClientBase.cpp:468-555 | an option update to fixes stops batching session 0 and gives a stranded id a new session, under an entity that says id 0 |
| ClientRaces.OtherUpdateOfStrandedIdStoresSessionZero | gps/location/LocationAPIClientBase.cpp:468-555 | an option update to any other mode starts nothing, and stores a stranded id under session 0 |
| ClientRaces.RemovalInsideUpdateIsUndone | gps/location/LocationAPIClientBase.cpp:475-545 | a removal of the id's session between getExtById and rmById makes no difference to the dictionary that the update leaves |
| EndedSessions.EndedSessionsStayOutIff | gps/location/LocationAPIClientBase.cpp:475-545 | every interleaving with sessions issued once and nothing missed: no session that a callback has ended is in the dictionary after any call on it, if and only if no option update stores a copy whose session has ended since the copy was made |
| EndedSessions.StepKeepsEndedOutIff | gps/location/LocationAPIClientBase.cpp:475-545 | the same for each single call |
| EndedSessions.EndedSessionComesBack | gps/location/LocationAPIClientBase.cpp:475-545 | a run in which a session ends, and is in the dictionary again after an update |
| ClientSessions.GeneratedIsFresh | gps/core/LocAdapterBase.cpp:53-61 | generated sessions are never 0 or 0xFFFFFFFF and do not repeat within 0xFFFFFFFE draws |
| ClientSessions.LocationAPIClientBase.StartSession | gps/location/LocationAPIClientBase.cpp:377-434 | maps, queue, calls and return code of a start |
| ClientSessions.LocationAPIClientBase.StopSession | gps/location/LocationAPIClientBase.cpp:436-466 | the same for a stop |
| ClientSessions.LocationAPIClientBase.UpdateSessionOptions | gps/location/LocationAPIClientBase.cpp:468-555 | the same for an option update |
| ClientSessions.LocationAPIClientBase.GetBatchedLocations | gps/location/LocationAPIClientBase.cpp:557-582 | the same for a fetch |
| ClientSessions.LocationAPIClientBase.OnResponseCb | gps/location/LocationAPIClientBase.cpp:851-912 | the request that answers, its callback and the removal |
| ClientSessions.LocationAPIClientBase.BeforeBatchingStatusCb | gps/location/LocationAPIClientBase.cpp:828-849 | the loop over the ended trips |
| LocIpc.SendData | gps/utils/LocIpc.cpp:199-235 | the datagrams sent for a message: itself, or a head and chunks of at most 8192 bytes |
| LocIpc.ChunksAreFull | gps/utils/LocIpc.cpp:217-231 | the chunks of a long message are of 8192 bytes but the last, which is not empty, and make up the message |
| LocIpc.EmptyDatagram | gps/utils/LocIpc.cpp:109-136 | an empty datagram is ignored between messages and ends the listening within one |
| LocIpc.AbortEndsListening | gps/utils/LocIpc.cpp:112-115 | after the abort text nothing is delivered |
| LocIpc.HeadWithoutLength | gps/utils/LocIpc.cpp:122-133 | a head without a length makes an empty message |
| LocIpc.Listen | gps/utils/LocIpc.cpp:100-138 | the listening loop delivers exactly what the receiver, as a machine over datagrams, delivers |
| LocIpc.ReceiveLong | gps/utils/LocIpc.cpp:122-136 | the reassembly loop likewise |
| LocIpc.DecimalIsRead | gps/utils/LocIpc.cpp:211 | a printed length consists of digits and has its value |
| LocIpc.ParseLenIffNoDigitFollows | gps/utils/LocIpc.cpp:123-124 | a printed length is read back if and only if no digit follows it |
| LocIpc.MessageArrivesIffClean | gps/utils/LocIpc.cpp:103-235 | a message of any length below 2^32 arrives once, byte-identical and at once, if and only if it is clean after its predecessor |
| LocIpc.ConversationArrivesIffClean | gps/utils/LocIpc.cpp:103-235 | the same for a sequence of messages |
| LocIpc.CleanConversationRoundTrip | gps/utils/LocIpc.cpp:103-235 | from the stream of all datagrams of a clean sequence the receiver gets the messages back |
| LocIpc.CleanWhenPredecessorIsCovered | gps/utils/LocIpc.cpp:103-138 | a non-empty message whose first datagram is at least as long as the message before is clean if and only if it is not a short one starting with a reserved text |
| LocIpc.StaleDigitLosesLongMessage | gps/utils/LocIpc.cpp:104-131 | a long message lost to a digit that a short one left behind |
| LocIpc.StaleTailFakesHead | gps/utils/LocIpc.cpp:104-124 | one byte that becomes a head with what the message before left behind |

## Left out

- Two timer containers share the message task and the poll thread (gps/utils/LocTimer.cpp:237-255); one is modelled. The other one can only delay its steps.
- The delete of a delegate is one step with its removal from the heap; in between the source only re-arms the kernel timer. A section under a client's lock is one step.
- A timer's client is taken to outlive an expiry that is about to call it, as the source assumes (gps/utils/LocTimer.cpp:526-537).
- HeapIsByDeadline: needs a window of 2^31 seconds, as do the procedures of `LocTimerContainer`, which compare by `ranks`; `RunByRanksIsByDeadline` shows when a running service stays in one.
- DeleteSubscriber: compares with the handle of the given subscriber, also after that one is deleted; `DeletesRightlyIff` shows when the code does the same.
- The creation of the two tasks, failed allocations and failed thread creation.
- Overflow of the 32-bit counters `mSize` of the heap, `reqIDCounter` of the NI sessions and `mRetries`.
- `AgpsManager` choosing among its three machines, creating them, and the APN and bearer stored in a machine; a machine is modelled with the events it gets.
- The subscriber objects of the AGPS machines are values: aliasing through `mCurrentSubscriber` is not captured. The choice of an overridden method is made by a flag.
- Agreement of state and list for the data-service machine: a failed set-up leaves its subscriber listed in RELEASED (gps/gnss/Agps.cpp:86-89), so it is claimed for the base machine only.
- `mDSClientInitFn` and the other calls of `handleModemSSR` that concern the data-service client, not a machine.
- ULP proxy, tracking modes and power: the engine is modelled by its interval. On a tie another session's mode may run. A failed call leaves the engine as it was.
- Which NI request a response reaches when an old response meets a new request, and an NI payload that comes without a client to ask. A session's timer counts seconds in the source; here a timeout may come at any time, and that it comes at last is why `NiProgress` counts it as a step of the thread.
- `updateSubscription` is not among the commands of `IndexAndFrameworkAgree`, whose maps it may break.
- The iterator that `removeAndReturnInterset` erases under itself: the model visits every element.
- In `trimOrRemove` the key of an erased entry is read through its iterator (gps/utils/LocUnorderedSetMap.h:85, 136); the model takes it to be the key of the loop.
- `turnOn` and `turnOff`, whose message goes to the observer itself (gps/core/SystemStatusOsObserver.cpp:408).
- Order inside `unordered_map` and `unordered_set`: loops visit elements in any order.
- Geofences of a client; they share `BiDict`, but remove-all passes sessions for ids (gps/location/LocationAPIClientBase.cpp:759-763).
- `locAPIStartTracking` and the other queues of requests; a response may be taken by one of them.
- ThreeMapsActAsOneTable: takes each call of the client and each callback as one step; their single dictionary calls are interleaved in ClientRaces.dfy, without the queue of requests.
- GeneratedIsFresh: freshness is a requirement on the runs of a client; the counter is not part of the client's state, because other clients draw from it.
- Sockets: datagrams arrive in order and unlost, `sendto` takes whole datagrams, errors of `recvfrom` end the stream. `sscanf` reads plain digits here; its leading blanks and signs are not modelled, nor is a length beyond 64 bits.
- HIDL wrappers, enum conversions, reports and configuration: they forward and copy.
