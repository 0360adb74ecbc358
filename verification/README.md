# klibmsg, a verified model

klibmsg is a message library over TCP: user threads hand messages to a device, a few
worker threads move the bytes, and small state machines per socket tie the two
together.  This project models that engine in Dafny 4.11 and proves what its parts
promise each other, for every interleaving of user threads, worker threads and kernel.
`dafny verify dfyconfig.toml` checks everything.

The pattern is the same throughout.  A component's behaviour is a set of pure functions,
often a step system; where the source changes objects in place, a class does the same in
place and its methods are proved to follow those functions; and the promises are lemmas
about the functions, stated for all inputs and all runs.

| files | source | subject |
|---|---|---|
| `NetQueue.dfy` | utils.cpp | intrusive queues over one universe of items |
| `Worker.dfy` | worker.cpp, utils.cpp | tasks, eventfd, batch stealing |
| `Poller.dfy`, `PollerSockets.dfy` | poller.cpp, worker.cpp | interest masks, the event buffer, one socket's share of both |
| `Framing.dfy`, `Stream.dfy`, `SocketIo.dfy` | socket.cpp | frames, resumable transfer, a connection end to end |
| `SocketFsm.dfy`, `NetSocket.dfy` | socket.cpp | the nested switch with its fall-through, the handler in place |
| `Sockets.dfy`, `SocketLaws.dfy`, `SocketInv.dfy` | socket.cpp, device.cpp | what every action does to one socket, the transition table, and what one socket keeps |
| `Engine.dfy`, `EngineInv.dfy`, `EngineRuns.dfy`, `EngineSockets.dfy`, `EngineTheorems.dfy`, `EngineLedger.dfy`, `EngineStreams.dfy`, `EngineRaces.dfy`, `EngineDelivery.dfy`, `EngineLive.dfy`, `EngineLinks.dfy` | socket.cpp, device.cpp, ctx.cpp | all sockets and threads together |
| `Context.dfy` | ctx.cpp, fsm.cpp | the critical section and its events |
| `Channel.dfy`, `Callbacks.dfy`, `Device.dfy` | channel.h, device.cpp | completion queue, callbacks, connection sharing |
| `Locks.dfy` | all of them | lock order |
| `Sequences.dfy` | | options and facts about sequences |

Assumptions about the environment, stated in the models: the bytes of a connection form
a FIFO; a read or write moves any number of the bytes asked for, or fails; epoll reports
at most 32 entries per wait, IN and OUT only where they are armed, errors only on
connected descriptors, and a descriptor that is handed out is not open; `Token2Dptr`,
`Token2DptrSize` and `Token2Ip` are arbitrary functions.  A handler run, a queue
operation under its lock and one access to shared state outside any lock are atomic.

## What does not hold of the code as one might expect

- An unexpected event is only reported (utils.h:105-126) and then runs the code of the next
  state.  In device runs up to a takeover in the poller (next item) this happens exactly
  when the device ignores a failure: `Start` in `SendMsg` (device.cpp:193) or `Listen` in
  `Init` (device.cpp:105).  See `EngineTheorems.NoBadDispatch` and
  `SocketFsm.ConnectWithoutStart`.
- `NetSocket::Init` leaves the poller handle uninitialised, and task_send does not wait for
  the task that registers it.  Served too soon (before the creator has posted that task,
  with it still behind, or after `connect()` has failed at once) it calls epoll through the
  unregistered handle, and if that happens to name a descriptor the same worker watches,
  the call takes that descriptor over.  All theorems about runs stop in front of such a
  call.  See `EngineRaces.RacesIff`, `EngineRaces.HijackIff` and `EngineRaces.TakeoverRun`.
- A second thread that sends on a socket whose `connect()` has just succeeded can strand
  messages for good: its task_send is queued ahead of task_connected, and later ones merge
  into it.  See `EngineDelivery.DoomedIffLost` for the exact moment of loss and
  `EngineRaces.StrandedRun` for a run.
- After a failed `socket()` in `SendMsg`, the next message to the same machine ends the
  process at socket.cpp:97 if `socket()` works again.  See `Devices.ConnectionSharing`.
  That is if it comes in time: the failed Connect has raised an Error event, and the
  task_send of the same `SendMsg` makes a worker hand it to the device, which ends the
  process as well (device.cpp:43-46).
- A `data_len` that is negative, or within 32 of 2^63 so that the total wraps, cuts the
  frame off inside its header and reports it as sent; `SendData` (device.cpp:122) lets the
  -1 of `Token2DptrSize` through.  Any other frame beyond the range of `int` is never
  reported complete.  See `Framing.ExactIffSound`.
- `Cancel` has no effect on a task whose batch has been stolen.  See
  `Workers.CancelEffective`.
- A second `ReadData` for a token whose data has not arrived loses its callback
  (device.cpp:141).  See `Callbacks.AnsweredOnce`, where only a registration that finds no
  open callback counts.
- An event that is raised while it is queued is delivered once, with the later type.  See
  `Contexts.DeliveredIffNoClash`; by `EngineTheorems.AllWellKept` sockets never do it.

## Model

| member | source | states |
|---|---|---|
| NetQueues.NetQueue.Push | utils.cpp:76-84 | appends an item that is in no queue; leaves an item that is in some queue, and every list, as they were |
| NetQueues.NetQueue.Pop | utils.cpp:102-109 | hands out the first item and marks it as in no queue; null exactly for an empty queue |
| NetQueues.NetQueue.Remove | utils.cpp:86-100 | deletes exactly that item, and changes nothing when the item is elsewhere or nowhere |
| NetQueues.NetQueue.Steal | worker.cpp:92-94 | copying the two pointers and resetting the original moves the whole sequence |
| NetQueues.PushIn | utils.cpp:76-84 | among all queues over the same items, membership, ownership and the sentinel stay consistent and no other queue changes |
| NetQueues.PopIn | utils.cpp:102-109 | the same for Pop |
| NetQueues.RemoveIn | utils.cpp:86-100 | the same for Remove |
| NetQueues.StealIn | ctx.cpp:38-39 | the same for the copy, with the copy as a further queue |
| NetQueues.UniverseKept | utils.cpp:64-117 | whatever an operation does to one queue and its argument, every list stays acyclic, disjoint from the others and marked by the sentinel |
| NetQueues.WithoutKeeps | utils.cpp:86-100 | a removal keeps all other items and their distinctness |
| Workers.WorkerNeverStuck | worker.cpp:64-113 | while a task is pending the worker has something to do or will be woken, and a dispatched eventfd never reads zero |
| Workers.Delivery | worker.cpp:64-113 | a requested task runs after its request, behind at most the tasks ahead of it, however requests are merged |
| Workers.RunsBounded | worker.cpp:64-113 | a task runs at most as often as it was requested |
| Workers.CancelEffective | worker.cpp:70-73 | Cancel takes a pending task away if and only if its batch has not been stolen |
| Workers.Projection | worker.cpp:64-113 | the tasks of one owner form a queue of their own under everybody's requests, steals and runs |
| Workers.WokenForRequests | worker.cpp:64-95 | the eventfd counts the requests since the last steal, so that the worker is woken only while there is one, and takes at most as many batches as there were requests |
| Workers.RunsDry | worker.cpp:80-113 | left alone, the worker runs everything that is pending, in order, to the end or up to the stop item |
| Workers.NetEventFd.Signal | utils.cpp:45-52 | adds one to the counter |
| Workers.NetEventFd.Unsignal | utils.cpp:54-62 | reads a positive counter and leaves zero |
| Workers.NetWorker.Execute | worker.cpp:64-68 | over real queues: the specification's request step |
| Workers.NetWorker.Cancel | worker.cpp:70-73 | over real queues: the specification's cancel step |
| Workers.NetWorker.TakeBatch | worker.cpp:90-95 | over real queues: the specification's steal step, which clears the eventfd and moves the whole queue |
| Workers.NetWorker.Next | worker.cpp:98-104 | over real queues: one task of the batch, or the stop item, which ends the routine |
| Workers.NetWorker.RunBatch | worker.cpp:97-113 | runs the stolen batch in order up to the stop item; what the tasks post meanwhile is in the shared queue afterwards, behind what was there, unless it was still ahead in the batch |
| Pollers.NextIsHead | poller.cpp:122-144 | Event returns the next reported bit, In before Out before one Err per entry, and nothing exactly when none is left |
| Pollers.StepKeeps | poller.cpp:27-144 | cached masks, kernel masks and buffered bits agree after every legal operation |
| Pollers.InterestAgrees | poller.cpp:27-144 | after every legal sequence a handle is registered, with the mask its own operations asked for and no other's, the kernel polls with that mask, and the bits still buffered are armed in it |
| Pollers.TakesAwayIff | poller.cpp:38-103 | a call through a handle takes another handle's registration away if and only if the handle is not registered and names that one's descriptor |
| Pollers.StepDrops | poller.cpp:38-103 | invalidating multi-bit entries removes exactly the handle's events, or its IN or OUT ones, also when the cached mask lets Reset return early |
| Pollers.DrainRefinement | poller.cpp:38-144 | over any mix of operations between two waits, the events returned are the reported bits in order without those invalidated before they were reached |
| Pollers.PlayIsSurvivors | poller.cpp:38-144 | the drain told operation by operation is the drain told bit by bit |
| Pollers.WaitReturns | poller.cpp:105-120 | after a wait the bits to be returned are those reported, all of them and no others |
| Pollers.BatchReturned | poller.cpp:105-144 | a wait and a drain return exactly the reported bits that survive the operations in between |
| Pollers.ReturnedIsRounds | poller.cpp:27-144 | the events of a whole run, with any number of waits, told from its steps alone |
| Pollers.Silenced | poller.cpp:38-103 | after a removal or a reset nothing of the kind is returned before the next wait, and a drain has at most three events per entry |
| Pollers.NetPoller.Add | poller.cpp:27-36 | in place: registration, which zeroes the cached mask also when the kernel refuses |
| Pollers.NetPoller.Rm | poller.cpp:38-45 | in place: removal with invalidation of what is buffered |
| Pollers.NetPoller.SetIn | poller.cpp:47-57 | in place: arming IN |
| Pollers.NetPoller.ResetIn | poller.cpp:59-73 | in place: disarming IN with invalidation |
| Pollers.NetPoller.SetOut | poller.cpp:75-86 | in place: arming OUT |
| Pollers.NetPoller.ResetOut | poller.cpp:88-103 | in place: disarming OUT with invalidation |
| Pollers.NetPoller.Wait | poller.cpp:105-120 | in place: the array holds what was reported, from its start, and that is what Event will return |
| Pollers.NetPoller.Event | poller.cpp:122-144 | in place: one bit and the rest |
| Pollers.NetPoller.Drain | worker.cpp:80-125 | the worker's loop ends with nothing buffered, hands out the surviving events, at most three per entry, and keeps the masks in agreement, whatever sequence of operations each handler run performs, on its own descriptor and on others |
| PollerSockets.OwnStep | worker.cpp:13-23 | a socket's operation on its handle is the engine's operation on its record, also while the handle is not registered, as long as it names no watched descriptor |
| PollerSockets.OtherStep | worker.cpp:13-23 | and leaves every other socket's record alone |
| PollerSockets.HitsAreIllegal | worker.cpp:13-23 | the call a task makes through an unregistered handle is an illegal one exactly if the descriptor it names is watched |
| PollerSockets.EventStep | poller.cpp:122-144 | Event takes from one socket the bit that the engine's fetch takes |
| PollerSockets.WaitStep | poller.cpp:105-120 | a wait gives each socket the bits reported for it, none if it is not reported, as the engine's wait requires |
| Framing.DecodeEncode | utils.h:217-244 | a message header survives the trip through bytes |
| Framing.Layout | utils.h:217-244 | the type is in the lowest bits and the three words follow at their offsets, little-endian |
| Framing.SendRawStep | socket.cpp:651-689 | one call writes the bytes of the frame from the old offset to the new one, stays inside the frame, and completes exactly at its end |
| Framing.SendRawCount | socket.cpp:651-689 | how far one call gets: what the first write takes of the header and, once that is out, what the second takes of the payload |
| Framing.SendAllExact | socket.cpp:651-689 | repeated calls under any schedule write a prefix of the frame |
| Framing.ExactIffSound | socket.cpp:651-689 | all schedules frame a message exactly if and only if its length is not negative and the frame fits an int |
| Framing.Dribbles | socket.cpp:651-689 | a frame longer than an int, whose total does not wrap, is never reported complete, however many bytes have been written |
| Framing.TruncatedHeader | socket.cpp:654-655 | a negative length, or one so large that the 64-bit total wraps, ends the frame inside its header |
| Framing.AskedIsMissing | socket.cpp:714-718 | the unsigned sum given to read is the number of missing bytes also after the inner difference has wrapped |
| Framing.RecvRawStep | socket.cpp:691-734 | one call takes only bytes of the current frame, puts header and payload where they belong, and completes exactly at its end |
| Framing.RecvRawCount | socket.cpp:691-734 | how far one call gets: what the first read returns of the header and, once that is complete, what the second returns of the payload |
| Framing.RecvTouchesMissing | socket.cpp:691-734 | one call changes nothing but the missing bytes of the header in the buffer and of the payload at its destination |
| Streams.StepKeeps | socket.cpp:425-461 | bytes consumed and in flight are the complete frames and the first out_offset bytes of the current one, after every step |
| Streams.EndToEnd | socket.cpp:639-763 | the completed messages, headers and payloads, are a prefix of the messages queued, each as its source region was at that moment, and all of them once nothing is left in between |
| Streams.RunPuts | socket.cpp:639-645 | what the stream has taken is the sequence of messages queued along the run |
| Streams.OutCompletes | socket.cpp:440-461 | an OUT event whose writes are whole puts the rest of a frame on the wire |
| Streams.InCompletes | socket.cpp:426-438 | an IN event whose reads are whole, with the rest of the frame on the wire, completes the frame |
| Streams.CanDeliver | socket.cpp:425-461 | from every state, one OUT event per unsent frame and one IN event per incomplete one deliver everything |
| SocketIo.NetSocketIo.PushMsg | socket.cpp:639-645 | the message is at the end of the queue, which is one Enqueue step of the stream |
| SocketIo.NetSocketIo.DequeueNetMsgToBuf | socket.cpp:751-763 | in place: the first message is in out_buf at offset zero, or nothing has changed |
| SocketIo.NetSocketIo.SendRaw | socket.cpp:651-689 | in place: the specified bytes, offset and outcome |
| SocketIo.NetSocketIo.RecvRaw | socket.cpp:691-734 | in place: the specified buffers, memory, offset and outcome |
| SocketIo.NetSocketIo.OnFdOut | socket.cpp:440-461 | the OUT event is one step of the stream |
| SocketIo.NetSocketIo.OnFdIn | socket.cpp:426-438 | the IN event is one step of the stream and hands on the completed message |
| SocketFsm.BadIffUnexpected | socket.cpp:296-636 | the switch complains exactly about the events outside the transition table |
| SocketFsm.IdleCase | socket.cpp:298-515 | whatever event falls through from the states of a connection, it never reaches the accepting or cancelling code of a listener |
| SocketFsm.DispatchIsSwitch | socket.cpp:296-636 | for any event in any state, the arm that runs and the number of complaints are what the rules for nested switches without break make of the text |
| SocketFsm.OutOfOrder | socket.cpp:634-635 | a state without a case only complains |
| SocketFsm.ConnectWithoutStart | socket.cpp:298-321 | a connect on an idle socket complains twice and then connects |
| SocketFsm.CollidingCodes | socket.cpp:366-418 | an unexpected action can run the code of a descriptor event that has the same number |
| SocketLaws.HandlerTable | socket.cpp:296-636 | whatever else is the matter with a socket, every expected event has the next state, the event raised, the descriptor, the polling, the message in hand and the task of the transition table |
| SocketLaws.TaskTable | socket.cpp:197-225 | a task changes nothing but the poller's entry: what it wants polled is polled, from scratch for a registering one |
| NetSockets.NetSocket.NetSocketHandler | socket.cpp:286-637 | in place, for any source and type in any state: the switch with its fall-through does what the dispatch function says, with as many complaints, also where it reaches into the partner, and ends the process exactly at the source's checks |
| NetSockets.NetSocket.InternalTasks | socket.cpp:197-225 | in place: tasks are served before the state is looked at, and a task of another type ends the process |
| NetSockets.NetSocket.Raise | fsm.cpp:113-124 | in place: the event's fields are overwritten, and it is queued once |
| NetSockets.NetSocket.OnOut | socket.cpp:440-461 | in place: dequeue, disarm or send |
| NetSockets.NetSocket.OnConnectReady | socket.cpp:389-406 | in place: the end of an asynchronous connect; active with its descriptor and OUT disarmed if SO_ERROR is clear, otherwise done, closed and out of the poller |
| NetSockets.NetSocket.Start | socket.cpp:79-96 | a started socket owns the descriptor; a failed socket() changes nothing; a second start, or one in a state other than Idle and BeingAccepted, ends the process |
| NetSockets.NetSocket.Accept | socket.cpp:159-174 | listener and accepted socket point at each other, and registration is requested, or the process ends because one of them is paired with a third; for a listener that is accepting already, the action runs accept4 first, on this socket or on the one it was paired with |
| NetSockets.NetSocket.Activate | socket.cpp:176 | an accepted socket registers its descriptor and becomes active |
| NetSockets.NetSocket.Accept4 | socket.cpp:572-590 | the partner owns the new descriptor and has its Accepted event queued once in the listener's context, both links are cut, the listener is out of the poller |
| NetSockets.NetSocket.AcceptConnection | socket.cpp:549-591 | every result of accept4, and exactly which ones the process survives |
| NetSockets.NetSocket.StopAccept | socket.cpp:614-622 | the end of a cancelled accept runs the partner's own action |
| SocketInv.RaiseNew | fsm.cpp:113-124 | raising an event that is not queued appends it and disturbs no other |
| SocketInv.OutboundTaskOk | socket.cpp:197-216 | tasks keep an outbound socket's invariant, among it that somebody cares for its queue |
| SocketInv.OutboundIoOk | socket.cpp:368-470 | descriptor events keep it, dispatch without complaint and come with the mask armed |
| SocketInv.ConnectReadyOk | socket.cpp:388-406 | the disarming of OUT on connection is covered by the Connected event |
| SocketInv.SendArmOk | socket.cpp:440-461 | OUT is disarmed only with nothing left to send |
| SocketInv.InboundIoOk | socket.cpp:422-470 | descriptor events keep an accepted socket's invariant |
| SocketInv.CallerNextOk | socket.cpp:178-195 | every piece of SendMsg on a new socket keeps the invariant, with the worker in between |
| SocketInv.SenderPostOk | socket.cpp:639-649 | so does the posting of task_send by any thread |
| SocketInv.DrainOk | device.cpp:25-41 | so does the device's handling of a queued event |
| SocketInv.AcceptArmOk | socket.cpp:572-591 | accepting keeps the invariants of listener and partner |
| SocketInv.UnregisteredIffTooSoon | socket.cpp:197-216 | task_send finds the handle unregistered exactly if its creator has not posted the registering task, that task is still behind, or connect() failed at once |
| EngineSockets.EnabledIffReady | socket.cpp:286-637 | which steps an outbound socket can take depends on its own record only |
| EngineSockets.SeenFrom | socket.cpp:286-637 | and so does what they make of it; nobody else's step changes it |
| EngineInv.StepKeeps | socket.cpp:286-637 | every step of the engine keeps the invariant of the whole, unless it ignores a failed socket() or listen() |
| EngineInv.PairIs | device.cpp:232-242 | pairing makes a listening socket accept for a new socket, with mutual links and without complaints |
| EngineInv.AcceptorReady | socket.cpp:548-573 | when the listener's IN event arrives, it is registered and its partner has no descriptor, so no check fails |
| EngineInv.AcceptIs | socket.cpp:548-591 | the accepted descriptor goes to the partner, one Accepted event is raised, nothing else changes |
| EngineInv.AcceptKeeps | socket.cpp:548-591 | and the invariant is kept |
| EngineInv.LeaveKeeps | ctx.cpp:34-41 | unlocking takes the external events along and keeps the invariant |
| EngineInv.DeliverEnterKeeps | ctx.cpp:43-49 | so does entering the target's context with one of them |
| EngineInv.DeliverActivateKeeps | device.cpp:53-56 | so does the activation of the accepted socket |
| EngineInv.ConnectKeeps | socket.cpp:178-195 | so does every result of connect() |
| EngineRuns.EndOk | socket.cpp:286-637 | the invariant holds at the end of every run of the device that ignores no failed socket() or listen() |
| EngineTheorems.BadSince | socket.cpp:296-636 | in every run from the invariant, a state follows a complaint if and only if it follows an ignored failure |
| EngineTheorems.NoBadDispatch | socket.cpp:296-636 | a run of the device from its start has a bad dispatch if and only if it ignores a failed socket() or listen() |
| EngineTheorems.NoLostWakeup | socket.cpp:440-450 | in every reachable state, an active socket with something to send is polled for OUT, or a task_send that no registering task follows, a sender, its creator or a Connected event whose task_send will not be merged away is under way, if and only if it is not doomed |
| EngineTheorems.RestIsPolled | socket.cpp:440-461 | when all threads are at rest the kernel polls such a socket for OUT, and its next OUT event moves the message on |
| EngineTheorems.NoLostInput | socket.cpp:197-216 | in every reachable state an active accepted socket is polled for IN or about to be, and so is an accepting listener |
| EngineTheorems.AcceptPairing | socket.cpp:159-174 | in every reachable state the pairing is mutual and exclusive, a listening socket has none, and accepted sockets are announced once each, in order |
| EngineTheorems.AllWellKept | socket.cpp:79-103 | in every reachable state: one owner per open descriptor, closed once and after leaving the poller, masks in agreement, dispatched bits armed, no event raised while queued, no check failed, no teardown state |
| EngineTheorems.ExactDelivery | fsm.cpp:113-124 | in every run the events handled and those still queued are exactly the events raised, in order and with their types; at rest all have been handled |
| EngineTheorems.FatalIff | device.cpp:43-51 | a run ends the process if and only if its last step hands an Error or AcceptError event to the device or meets an unexpected failure of accept4 |
| EngineLedger.ConnectEnds | socket.cpp:389-406 | at the OUT event of any connecting socket in any state of the engine: active, same descriptor, polled but not for OUT, Connected raised; or done, descriptor closed once and open no more, out of the poller, Error raised; as SO_ERROR says |
| EngineLedger.Ledger | socket.cpp:178-470 | over every run, what a socket has raised, the state an outbound one is in and the messages it still holds are determined by what connect(), SO_ERROR, the writes, the reads and EPOLLERR answered and by who sent on it |
| EngineStreams.ReceivedPerMessage | socket.cpp:426-438 | over every run a socket raises Received once per message that the byte stream completes at it |
| EngineStreams.SentPerFrame | socket.cpp:440-461 | and Sent once per frame whose last byte the stream has taken from it |
| EngineStreams.Conversation | socket.cpp:425-461 | the receiving device is told of at most as many messages as the sending one, of as many once the wire is empty, and of all once nothing is left to send |
| EngineRaces.RacesIff | socket.cpp:639-649 | a wakeup is missed if and only if another thread's task_send was queued when task_connected was posted and every later task_send was merged; an unregistered handle is used if and only if task_send is served too soon |
| EngineRaces.HijackIff | poller.cpp:75-86 | a run comes to a call that would take over another handle's place in the poller if and only if its last step serves task_send too soon through a handle that names a descriptor its worker watches |
| EngineRaces.LostForGood | socket.cpp:639-649 | along every run a doomed socket stays doomed and keeps all its messages until another thread sends on it |
| EngineRaces.StrandedRun | device.cpp:192-197 | once the device listens, a run strands three messages with all threads at rest |
| EngineRaces.TakeoverRun | socket.cpp:187-191 | a run in which a refused connection is about to take over the place of its worker's eventfd, whichever worker that is |
| EngineDelivery.CanEmpty | socket.cpp:440-461 | an active socket that is not doomed and not reported broken has a continuation of its own steps, without a new send, that sends all its messages and ends at rest |
| EngineDelivery.DoomedIffLost | socket.cpp:440-461 | messages are beyond every continuation without a new send if and only if their socket is doomed |
| EngineLive.SetUp | device.cpp:102-106 | Init leads to a listener that waits for its first partner |
| EngineLive.AcceptCycle | socket.cpp:548-591 | a waiting listener can take any connection: the partner becomes active and is announced, and the listener waits for the next one |
| EngineLive.AcceptsAny | device.cpp:53-59 | any number of connections can be accepted from the start |
| EngineLinks.ConnectSplit | socket.cpp:178-191 | the pieces the engine cuts Connect into are, uninterrupted, the handler's answers |
| EngineLinks.SendCounts | socket.cpp:440-461 | the engine's counts follow the byte stream, and Sent is raised exactly at a frame's last byte |
| EngineLinks.ReceiveCounts | socket.cpp:426-438 | Received is raised exactly at an IN event that makes the messages completed on the stream one more |
| EngineLinks.RaiseShown | fsm.cpp:113-124 | a socket's Raise is its context's, and the engine's clash history is what NoClash excludes |
| EngineLinks.TakenShown | ctx.cpp:25-30 | the event the device gets is the one the context delivers, with its type |
| Contexts.RaiseAppends | fsm.cpp:113-133 | a raise without clash appends one delivery and disturbs no other |
| Contexts.DrainExact | ctx.cpp:25-30 | the drain ends, empties the queue, and balances deliveries, raises and clashes |
| Contexts.DrainBlank | fsm.cpp:20-30 | a drain leaves no fields behind: an event that is not queued is blank |
| Contexts.DeliveredIffNoClash | ctx.cpp:18-52 | from any context, a section delivers what was waiting and then what is raised, each once, in order, with its own fields, if and only if nothing is raised while queued |
| Contexts.NetCtx.Raise | ctx.cpp:58-59 | in place: the raise |
| Contexts.NetCtx.ExecuteCriticalSection | ctx.cpp:18-52 | in place: drains before the unlock, hands over the external events after it, leaves the context empty and unlocked |
| Channels.StepKeeps | channel.h:34-67 | while somebody sleeps the channel is open and has a woken thread per item |
| Channels.NeverAllAsleep | channel.h:34-67 | the threads that were told to wait are asleep or woken, and no others are; at least one per item, or all of them, are woken, and all once an end has been closed |
| Channels.Fifo | channel.h:34-53 | what Receive has handed out, followed by what is queued, is what Send was given while its end was open |
| Channels.LookSeen | channel.h:45-52 | one attempt waits, fails or takes the first item, by the predicate of the wait, and the thread is a waiter afterwards exactly if it was told to wait |
| Channels.NoneAfterClose | channel.h:48-50 | nothing is handed out once the receiving end is closed |
| Channels.WokenDrain | channel.h:34-53 | the woken threads alone can empty the channel |
| Channels.Channel.Send | channel.h:34-41 | in place: refuses after CloseSendEnd, otherwise appends and wakes one |
| Channels.Channel.Receive | channel.h:43-53 | in place: waits, fails or takes, by the predicate of the wait |
| Channels.Channel.Resume | channel.h:46-52 | in place: the same after a wake-up |
| Channels.Channel.CloseSendEnd | channel.h:55-60 | in place: closes and wakes all |
| Channels.Channel.CloseReceiveEnd | channel.h:62-67 | in place: closes and wakes all |
| Devices.ChosenIsShared | device.cpp:162-190 | whatever the scanning order, the socket for a token is the one with its address, made only if there is none |
| Devices.ConnectionSharing | device.cpp:162-200 | two tokens share a socket exactly if their addresses agree; each socket has its address's messages in order; it was started if and only if socket() succeeded at the first of them, then connected once and active, connecting or done as connect() said, otherwise connected at every one; the process ends at socket.cpp:97 if and only if socket() succeeds for an address whose first call failed |
| Devices.FirstForIs | device.cpp:192-195 | the first call for an address, which decides, is the earliest one whose address agrees |
| Devices.StatesOfSending | socket.cpp:178-195 | after a failed Start the socket falls through to Connecting and is in Done, with an idle state machine, however often it is connected; after a successful one it is where connect() sends it |
| Devices.NetDevice.Find | device.cpp:171-178 | in place: the scanning loop |
| Devices.NetDevice.SendMsg | device.cpp:162-200 | in place: the step that ConnectionSharing is about, with the abort |
| Callbacks.CallbackAccounting | device.cpp:134-155 | what ran and what is queued are the due callbacks, in order of arrival, and the table holds the open ones |
| Callbacks.AnsweredOnce | device.cpp:219-225 | a registration that takes effect is queued at the first message for its token, next in line |
| Callbacks.DueIsAnswered | device.cpp:219-225 | nothing else is ever queued |
| Callbacks.AtMostOnce | device.cpp:134-141 | registrations and the messages that answer them correspond one to one |
| Callbacks.ReadRoundTrip | device.cpp:202-225 | a read request comes back as the data message its callback waits for, with the peer's region |
| Callbacks.PolledRuns | device.cpp:146-155 | polling runs the queued callbacks in order, all of them unless one closes the queue, and is the run of the table in which each is followed by the registrations it makes |
| Callbacks.PolledTable | device.cpp:134-155 | after any history and a polling, the reads that were registered while polling are in the table with the others that are open |
| Callbacks.Completions.ReadData | device.cpp:134-144 | in place: the first callback for a token stays |
| Callbacks.Completions.ParseNetMsg | device.cpp:203-230 | in place: replies, moves a callback to the queue, ignores, or ends the process, exactly on an unknown type or command or a read of a token without a size |
| Callbacks.Completions.PollCompletionQueue | device.cpp:146-155 | in place: that polling, with callbacks that register reads or close the queue while they run |
| Locks.DisciplinedIff | ctx.cpp:18-52 | whatever the nesting of locks, a thread is disciplined if and only if all it locks is leaves, and contexts with leaves under them |
| Locks.AllDisciplined | ctx.cpp:18-52 | every path of the code is disciplined |
| Locks.PathTakes | ctx.cpp:18-52 | a path locks what its calls and sections lock, and nothing else |
| Locks.ChainsAreShort | ctx.cpp:18-52 | nobody waits for a thread that waits for a waiting thread |
| Locks.NoCycle | ctx.cpp:18-52 | no schedule of any threads reaches a cycle of threads waiting for each other |
| Locks.NestingCycles | ctx.cpp:18-52 | any two locks nested both ways can stop two threads for good, so the discipline is what keeps them going |
| Locks.Progress | ctx.cpp:18-52 | some thread can always go on until all have finished |

## Left out

- Teardown: Stop, AsyncStop, Shutdown, Terminate and the shutdown handler.  The cancel action goes to the socket itself, AsyncStop raises outside its context and the device deletes the socket on the event, so a clean stop is not a property of this code.
- System calls, epoll, TCP and eventfd overflow: environment, as stated above.
- The C++ memory model, and interleavings finer than one handler run, one queue operation or one access to shared state.  The batch is popped without the worker's lock (worker.cpp:97-98).
- NetPool's round robin, logging, singletons, `container_of`, SetSockOpt, Bind and the address functions: no properties of interest.
- StartFd occurs only as an entry of the transition table; NetSocket::Recv and Channel::OpenSendEnd have no body in the source.
- The device's reaction to Error and AcceptError is LOG(FATAL) and ends a run.  A Received event whose message the device does not know would also end it; in the engine such a run merely goes on.
- EngineTheorems.NoBadDispatch: a run ends in front of a call that would take over another handle's place in the poller (EngineRaces.HijackIff says when that is); what is dispatched on foreign events after it is not followed.
- EngineTheorems.NoLostWakeup: the same.  And the creation of a socket up to its Start is one step, so that other threads send on it from then on; two threads that create a socket for one address at once race on the device's unlocked tables, which is outside the model.
- EngineTheorems.AllWellKept: the same.
- EngineInv.StepKeeps: has no step for teardown, and stops at the two ignored failures, where NoBadDispatch says what happens.
- Streams.EndToEnd: source memory is stable while a message is queued, arrived payload is not overwritten before its frame completes, and enqueued messages are those for which ExactIffSound holds; a reset ends the progress of a connection but not the theorem.
- EngineLedger.Ledger: a run ends in front of a takeover in the poller, and steps that ignore a failed socket() or listen() are excluded; the device's own calls of Action and Start are the engine's steps.
- EngineStreams.Conversation: the stream between two sockets is matched to the run step by step, with the outcome of each SendRaw and RecvRaw as the handler gets it; both sockets are in one engine.
- SocketLaws.HandlerTable: the two entries that reach into another socket, accept4 and the end of a cancelled accept, are in NetSockets.NetSocket.AcceptConnection and NetSockets.NetSocket.StopAccept.
- NetSockets.NetSocket.NetSocketHandler: system calls other than accept4, and the bytes read and written, are parameters.
- NetSockets.NetSocket.OnOut: the bytes are in SocketIo; here the outcome of the write is a parameter.
- Pollers.NetPoller.Wait: neither the retry after EINTR nor a failing epoll_wait is modelled; the check that follows it looks at the field that is about to be overwritten (poller.cpp:117), so that a failure would pass.
- Pollers.NetPoller.Drain: an operation through an unregistered handle that names a watched descriptor is passed over; Pollers.TakesAwayIff says what it would do.
- PollerSockets.OwnStep: epoll reports a handle at most once per wait.
- Contexts.NetCtx.ExecuteCriticalSection: handlers are given by what they raise; the on-leave hook is empty for every socket and is left out, and the external events are returned in order, their processing in the target's context being a step of the engine.
- Workers.NetWorker.RunBatch: a task is given by what it posts.
- Channels.Channel.Receive: ends where the thread would wait; Resume continues from a wake-up.
- Callbacks.Completions.PollCompletionQueue: ends where the polling thread would wait for more; the read requests its callbacks send are not followed further.
- Devices.ConnectionSharing: what workers do to a socket meanwhile is in the engine, among it the fatal Error event of a failed Connect.
- Devices.NetDevice.SendMsg: one call is atomic, and its result says which socket got the message; the bytes are in Streams.
- Locks.NoCycle: the paths are transcribed from the call sites of the locks; waiting in epoll_wait or on the condition variable is not waiting for a lock.
