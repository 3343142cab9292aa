# Verification of gRaIL's engine

gRaIL runs an unmodified Linux program inside the ns-3 simulator: every system call of the traced process is caught at
its entry and answered from simulator state, and time passes only in the simulator. This project models the parts that
everything rests on and proves what they are for.

* **The engine** (`Sim`, `SimInv`, `SimHandlers`, `SimCallbacks`, `SimServing`, `SimSelect`, `SimRun`, `SimFrame`).
  The whole simulator state is one value: descriptor tables, ns-3 sockets with one callback slot per kind, pending
  select operations with their shared flag and timeout, the event queue, and every thread at the entry or the exit of a
  system call. `SimRun.RunsAreSafe` is the invariant over all runs. `Engine.Priv` is the object as it runs, with its
  tables updated in place, its loops, its `Netlink.NetlinkSocket` objects and the `Routing.HgRoutingProtocol` they
  share; each method is proved to do what the value model says, and `Engine.Priv.Run` ties whole runs together.
* **What programs are told** (`Answers`, `Transfers`, `SelectAnswers`, `WaitingCalls`): for each call that does not wait,
  the whole state after its dispatch with every number written out; for a receive, an accept, a connect and a sleep the
  answer at the end of any run in between; for select, when it waits and when it is told what.
* **What the invariant gives** (`Resumption`, `SelectWakeups`, `SelectRequests`, `Readiness`, `VirtualTime`, `SoloRun`,
  `PollingRuns`): each live thread has exactly one thing that will resume it, a waiting select hears of everything it
  asked for and is answered once, by the first event that concerns it, readiness is honoured, sleeping takes long
  enough, and a program that only polls cannot stop the clock.
* **Where this is lost** (`Exactness`, `Scenarios`, `SoloScenarios`): what the engine relies on is not only sufficient. A
  possible run stays healthy (`Resumption.Healthy`, which mentions queue, slots and stops only) exactly if every step
  meets the condition on it (`Exactness.RunExact`); and runs from the start of a program violate each condition and name
  the thread that comes to harm.
* **What holds without it** (`Descriptors`, `VirtualTime.TimeNeverRunsBack`): the descriptor tables partition the range
  and descriptors are handed out least first whatever threads do; time never runs back.
* **Netlink to routes to forwarding** (`NetlinkWire`, `NetlinkCodec`, `NetlinkRequests`, `NetlinkReplies`, `Addresses`,
  `Netlink`, `Routing`, `RoutingHistory`, `EndToEnd`, `RequestedRoutes`): buffers are walked byte by byte, routes kept in a
  vector that refines a map, lookups follow the longest prefix; `RequestedRoutes.RoutesAsRequested` joins all of it over
  runs of the engine, from the bytes that programs send. Message layout and multipart replies follow RFC 3549, longest
  match section 5.2.4.3 of RFC 1812.
* **Tracee memory** (`TraceeMemory`) and **poll-loop detection** (`PollDetector`).

## How to read the model

* A failed `NS_ASSERT`, `exit(1)` and an error status all stop the simulator: `halted`. Theorems about a run's last state
  say what holds if it has not stopped. A read outside a buffer (`Crashed(ReadsOutside)`) counts as a stop too, which the
  code does not do: it reads on in whatever memory lies there, and the model makes no claim about a run that goes that way.
  The null pointer that sendto follows when it cannot convert the destination counts as a stop as well.
* What ns-3 and the kernel contribute comes in as data: `Answer` says what a socket operation returned, `Step` which
  event happens next. `SimRun.Enabled` is what they guarantee: the earliest event first, ties in insertion order, time
  never backwards, data only on sockets that ns-3 does not listen on, connections only on open ones that it does, fresh
  thread numbers. ns-3 listens (`Sim.Sock.listens`) from a Listen that it grants until a Connect that ends it; the engine's
  own table of listening descriptors also holds those for which it refused. `SimRun.Possible` runs satisfy that and
  nothing else.
* `SimRun.Disciplined` is what the engine relies on without checking it, and `SimRun.Sound` runs satisfy it as well.
  `Exactness.StepExact`: after any step the environment can take, unless the simulator stops, the invariant holds again,
  and the simulator is healthy, if and only if the step is disciplined. Otherwise a thread is `Lost` (nothing is left to
  resume it), `Astray` (it goes on although its call has not been answered), scheduled `Twice`, or in a select that is
  `Deaf` to a descriptor it watches. These are the conditions, and the runs of `Scenarios` (two threads) and
  `SoloScenarios` (one) that violate them after steps that all satisfy them:
  * select's receive closure and the blocking accept closure answer the member `pid`, whoever that is by then
    (`Resumption.DataExact`, `ConnectionExact`; `DataAnswersWrongThread`); the accept closure also stays in its slot after
    it has served, so a second connection schedules its thread twice (`ConnectionServesTwice`, with one thread);
  * a receive, connect, accept or select that would wait puts its closure into the one slot there is for it, and whoever
    was to be resumed by the closure that was there is lost (`ReceiveDisturbed`, `ConnectDisturbed`, `AcceptDisturbed`,
    `SelectDisturbed`); a listen that ns-3 grants loses or deafens who waits for data, a connect that ends listening who
    waits for connections, and a close all who wait on the socket. Calls that do not wait are harmless: one thread may
    write to a socket while another reads it; so is a listen that ns-3 refuses (`RefusedListenSpares`);
  * a netlink socket answers the thread that made it, not the one that calls (`ForeignReceiverIsLost`);
  * replies to route messages are queued without running the receive callback, so a thread waiting in select for them is
    not woken (`AckIsNotHeard`);
  * and there are calls that wait for what never comes (`SoloRun.Endless`, all of these with one thread): a write that
    blocks (`WriteNeverReturns`); a receive where ns-3 listens (`ListenerNeverReceives`); a connect that ns-3 refuses
    without running a callback, because the engine does not look at what Connect returns (`RefusedConnectNeverReturns`);
    and, where the engine takes a socket for a listener although ns-3 has refused to listen or listens no more, an accept,
    to which no connection comes (`MuteAcceptNeverReturns`), and a select, which waits for connections where data come
    and does not hear of them (`MuteSelectNeverHears`).

  A program with one thread only has to avoid the last, and a second connection on a blocking accept's closure
  (`SoloRun.SoloRunsAreSafe`).
* The closure of an accept stays with its listener, so that a later accept on another listener may be answered by a
  connection on the first (`WaitingCalls.OtherListenerAnswersAccept`). It is a connection, and the thread goes on; the
  conditions above do not exclude it.
* The address in a part of an address dump is stored in the host's byte order, so a program that reads it in network
  order sees its four bytes reversed (`NetlinkReplies.AddressReplyReversed`); and the 8 bytes that follow an ifaddrmsg
  are whatever the engine's stack holds.
* exit_group removes the thread that calls it, if the application may quit, and stops the simulator if not. The other
  threads of the application stay, with what resumes them, and the theorems go on to hold of them.
* A socket that has been closed is disposed of a second later. What its closures might still do until then is not counted
  as a source of resumption.
* `Tracee.cont` is a history variable. Nothing in the model reads it to decide a step; the invariant compares it with
  what queue and slots really hold, and `Resumption.ExactlyOneContinuation` states the result without it.
* `clock_gettime` and `clock_getres` return without taking the thread to its exit stop, so each such call is dispatched
  twice, at the entry and at the exit; `exit` leaves its thread at the entry. The invariant says so (`SimInv.Parked`),
  and `VirtualTime.ClockTellsSecondDispatch` says what a program reads then.
* Readiness, too, has exact conditions. What makes a descriptor readable is there to be had exactly if it is not the
  connection of a listener that is gone, which close does not forget (`Readiness.ReadableIsReady`, `SelectIsHonoured`;
  `SoloScenarios.HauntedRun` is a run of one thread that is told its new socket can be read and then blocks). What is there
  is given to whoever asks exactly if it is not the reply queue of another thread (`Readiness.SuitedIsServed`). A dump
  that answers a select always answers it for another thread than the one the replies go to, and tells it of an empty
  queue exactly if no reply was called for (`Readiness.DumpReportsReady`). With one thread none of the latter can happen
  (`Readiness.SoloIsHonoured`), and `SelectRequests.ReportIsHonoured` goes from the report to the call that relies on it.

## Model

| member | source | states |
|---|---|---|
| Engine.Priv.constructor | model/grail.cc:2439-2442 | the application starts with descriptors 100 to 199 free, no sockets and one thread to be dispatched |
| Engine.Priv.GetNextFD | model/grail.cc:149-154 | the least free descriptor is given out and no longer free |
| Engine.Priv.ProcessStatusCode | model/grail.cc:168-202 | success and failure schedule the next dispatch after processing time plus poll delay, error stops the simulator, exit ends the thread or the simulator, delayed and manual do nothing |
| Engine.Priv.HandleSyscallBefore | model/grail.cc:204-430 | a dispatch takes the thread to its next stop, shows the call to the detector, runs the handler and acts on its status |
| Engine.Priv.HandleRead | model/grail.cc:644-716 | read passes through, fills from the generator, takes available data at once, refuses, or leaves a closure and waits |
| Engine.Priv.HandleRecvFrom | model/grail.cc:2027-2106 | the same for recvfrom, which reports EWOULDBLOCK as success |
| Engine.Priv.HandleClose | model/grail.cc:718-760 | the descriptor leaves every table but that of pending connections, is free again, and the socket is disposed of a second later |
| Engine.Priv.HandleOpen | model/grail.cc:766-786 | the random devices get a descriptor of the simulator, other files pass through |
| Engine.Priv.HandleWrite | model/grail.cc:1027-1087 | write to a connected socket, to standard output, or passed through; without send space it is refused or waits |
| Engine.Priv.HandleSocket | model/grail.cc:1137-1220 | a new inet or netlink socket takes the least free descriptor; netlink sockets remember the calling thread |
| Engine.Priv.HandleListen | model/grail.cc:1223-1257 | the socket counts as listening even if ns-3 refuses; otherwise connections are kept by the default closure |
| Engine.Priv.HandleConnect | model/grail.cc:1260-1296 | the thread waits for the end of the attempt, which may come before connect returns; what Connect returns is ignored |
| Engine.Priv.HandleSendTo | model/grail.cc:1524-1581 | datagrams go to ns-3 unless a flag is unknown or the destination cannot be converted; netlink buffers without flags are walked by the netlink socket, which answers with the leftover length |
| Engine.Priv.ScanSockets | model/grail.cc:1624-1647 | pass 1 over the sockets finds a ready one or none, or gives up at an exception descriptor |
| Engine.Priv.ScanNetlinks | model/grail.cc:1648-1657 | pass 1 over the netlink sockets, error exit exactly if an exception descriptor is reached before a ready one |
| Engine.Priv.WatchSockets | model/grail.cc:1662-1822 | pass 2 over the sockets collects exactly the ready ones and counts them, or puts a closure of this select into exactly the slots it watches |
| Engine.Priv.WatchNetlinks | model/grail.cc:1824-1869 | the same over the netlink sockets |
| Engine.Priv.BothPasses | model/grail.cc:1622-1869 | the passes agree: the call blocks exactly if it may, nothing is ready and something is watched; closures are left only then; sets and count are exact |
| Engine.Priv.HandleSelect | model/grail.cc:1584-1909 | select comes to what the ready and watched sets say; the branch for a call that must not block but has left closures is unreachable |
| Engine.Priv.HandleRecvMsg | model/grail.cc:1914-1951 | the netlink socket hands out its oldest reply, -1 from an empty queue, and the simulator stops if the buffer is too small |
| Engine.Priv.HandleSendMsg | model/grail.cc:1954-1967 | the netlink socket walks all buffers of the vector and returns the byte count; a dump that ran its callback answers the select that waits |
| Engine.Priv.HandleAccept | model/grail.cc:1970-2022 | a pending connection is taken at once, else EWOULDBLOCK or a closure that stays in its slot |
| Engine.Priv.HandleNanoSleep | model/grail.cc:2109-2131 | the thread waits for an event exactly the request later |
| Engine.Priv.HandleClone | model/grail.cc:2324-2341 | the parent gets the number of the new thread, whose first dispatch is 100 ns away |
| Engine.Priv.SocketReceived | model/grail.cc:1790-1818 | the receive closures of select, read and recvfrom |
| Engine.Priv.SpaceAvailable | model/grail.cc:1672-1707 | the send closures of select and of a blocking write |
| Engine.Priv.ConnectionArrived | model/grail.cc:1735-1784 | the accept closures of listen, select and a blocking accept |
| Engine.Priv.ConnectionEnded | model/grail.cc:1275-1291 | the closures of connect |
| Engine.Priv.FinishSelect | model/grail.cc:1676-1703 | all closures of a select set the shared flag, cancel the timeout, answer and reschedule |
| Engine.Priv.Fire | model/grail.cc:1873-1893 | a scheduled event dispatches a thread, ends a sleep, or times a select out unless it has been answered |
| Engine.Priv.Run | model/grail.cc:204-430 | over a whole run the object goes through the states of the model and keeps the invariant |
| Engine.Priv.Notify | model/grail.cc:1834-1861 | the receive closure of select on a netlink socket answers once and is taken out |
| SimRun.StepKeeps | model/grail.cc:168-430 | every step that the environment can take and the engine can bear keeps the invariant or stops the simulator |
| SimRun.RunsAreSafe | model/grail.cc:204-430 | so does every run from the start of the application |
| SimSelect.BlockKeeps | model/grail.cc:1662-1894 | a select that waits leaves the invariant intact, every watched slot holding its closure |
| SimCallbacks.FinishKeeps | model/grail.cc:1676-1703 | a closure that answers a select hands its thread from the slots to the event queue |
| SimRun.FirstCallIsSound | model/grail.cc:2519-2528 | runs start: whatever the application calls first can be dispatched and is allowed |
| SoloRun.SoloRunsAreSafe | model/grail.cc:204-430 | runs of a program with one thread are safe without any assumption about threads, as long as it makes no call that waits for what never comes |
| Answers.KernelAnswers | model/grail.cc:644-650 | calls on descriptors that are not the simulator's, and those it passes through, are answered by the kernel and leave its state alone |
| Answers.OutputCounts | model/grail.cc:1033-1055 | output to descriptors 1 and 2 counts as written in full; none stops the simulator |
| Answers.RandomAnswers | model/grail.cc:766-786 | a random device gets the least free descriptor and reads as many bytes as asked for |
| Answers.SocketAnswers | model/grail.cc:1137-1220 | -93, -91 and -97 for types and families that are not there; else the least free descriptor for a socket that is empty, unconnected and blocking |
| Answers.NoDescriptorLeft | model/grail.cc:149-154 | without a free descriptor whatever needs one stops the simulator |
| Answers.CloseAnswers | model/grail.cc:748-756 | 0; the descriptor is free and in no table |
| Answers.SocketCloseAnswers | model/grail.cc:726-747 | the same of a socket, with its disposal exactly a second later |
| Answers.ListenAnswers | model/grail.cc:1228-1257 | -95 on what is no stream socket or listens already, else what ns-3 says |
| Answers.AcceptAnswers | model/grail.cc:1981-1995 | a pending connection gets the least free descriptor, which then is a connected, blocking stream socket |
| Answers.AcceptRefuses | model/grail.cc:1975-2001 | without a connection -11 on a nonblocking listener; the simulator stops on what does not listen |
| Answers.ConnectionsAreKept | model/grail.cc:1246-1252 | a connection nobody waits for is kept in place of the one kept before |
| Answers.FcntlAnswers | model/grail.cc:817-850 | answer and tables for each command on each kind of descriptor |
| Answers.ClockAnswers | model/grail.cc:2172-2206 | gettimeofday tells the microseconds of its dispatch; processor-time clocks are refused with -1 |
| Answers.CloneAnswers | model/grail.cc:558-577 | the parent is told the child's number; the child is dispatched 100 ns after the call |
| Answers.ExitGroupAnswers | model/grail.cc:187-195 | exit_group takes its thread away if the application may quit, else the simulation ends |
| Answers.ExitAnswers | model/grail.cc:413-416 | exit leaves its thread scheduled at the entry |
| Transfers.ReceiveAnswers | model/grail.cc:2060-2106 | data that are there, as many as ns-3 gives; else -11, or the thread waits |
| Transfers.WriteAnswers | model/grail.cc:1055-1085 | what ns-3 says it has taken; nothing taken stops the simulator; without room -11, or the thread waits |
| Transfers.DatagramAnswers | model/grail.cc:1542-1570 | what ns-3 says; unknown flags and destinations stop the simulator |
| Transfers.SendMsgAnswers | model/netlink.cc:143-173 | as many bytes as all buffers hold together |
| Transfers.SendToAnswers | model/netlink.cc:175-203 | the length exactly if the buffer does not start with a message |
| Transfers.RequestAnswers | model/netlink.cc:194-200 | 0 for a buffer of messages and nothing else |
| Transfers.RecvMsgAnswers | model/netlink.cc:108-141 | the oldest reply with the number of its bytes, -1 if there is none, and the simulator stops if they do not fit |
| SelectAnswers.WaitsIffTime | model/grail.cc:1596-1602 | with something asked for and nothing there, the thread waits if and only if there is no timeout or one of at least a microsecond, which is due exactly then; else it is told so |
| SelectAnswers.ToldWhatIsThere | model/grail.cc:1895-1909 | with something there the thread is told exactly what, and how many, at once |
| SelectAnswers.ToldOfNothing | model/grail.cc:1895-1909 | with nothing emulated asked for the answer is empty and immediate, whatever the timeout |
| SelectAnswers.ExceptionStops | model/grail.cc:1637-1639 | an emulated socket among the exception descriptors stops the simulator |
| WaitingCalls.DataAnswerReceive | model/grail.cc:2083-2101 | from the call through any sound run: the first data on the socket answer the receive with what ns-3 gives |
| WaitingCalls.EndAnswersConnect | model/grail.cc:1275-1291 | from the call through any sound run: the end of the attempt answers connect, 0 and connected, or -1 and the tables as they were |
| WaitingCalls.ConnectAnswers | model/grail.cc:1260-1296 | the same of an end before connect returns; -1 on what is no socket |
| WaitingCalls.ConnectionAnswersAccept | model/grail.cc:2003-2020 | from the call through any sound run: a connection on the listener answers accept with the least free descriptor, which stands for it |
| WaitingCalls.OtherListenerAnswersAccept | model/grail.cc:2003-2020 | and so does one on a listener the thread has accepted from before |
| WaitingCalls.SleepsExactly | model/grail.cc:2109-2131 | from the call through any sound run: nanosleep wakes exactly the seconds and nanoseconds later, and is told 0 |
| Exactness.CallExact | model/grail.cc:204-430 | whatever call is served, unless the simulator stops: the invariant holds again if and only if the call is allowed, and so does health |
| Exactness.StepExact | model/grail.cc:168-430 | whatever step the environment takes, unless the simulator stops: the same, if and only if the step is disciplined |
| Exactness.RunExact | model/grail.cc:204-430 | a possible run is healthy throughout, and keeps the invariant, if and only if it is sound |
| Exactness.ReceiveLoses | model/grail.cc:2060-2106 | a receive that is not allowed loses whoever waited for the data, deafens the select that did, or loses its own thread where ns-3 listens |
| Exactness.ConnectLoses | model/grail.cc:1260-1296 | a connect that is not allowed loses whoever waited for an earlier attempt, its own thread if ns-3 refuses without a word, or who waited for connections if it ends listening |
| Exactness.AcceptLoses | model/grail.cc:2002-2022 | an accept that is not allowed loses or deafens whoever waited for the connection, or loses its own thread where ns-3 refused to listen |
| Exactness.SelectLoses | model/grail.cc:1735-1784 | a select that is not allowed is deaf itself where ns-3 refused to listen, else it loses or deafens another |
| Exactness.CloseLoses | model/grail.cc:718-745 | a close that is not allowed loses every thread that waits on the socket and deafens every select |
| Scenarios.DataAnswersWrongThread | model/grail.cc:1790-1818 | a run with two threads in which data send the waiting thread on unanswered, and another one on to wherever it gets |
| Scenarios.ReceiveDisturbed | model/grail.cc:2060-2106 | runs in which another receive, a close or a listen loses the thread that waits for data |
| Scenarios.ConnectDisturbed | model/grail.cc:1260-1296 | a run in which a second connect loses the thread that waits for the first |
| Scenarios.RefusedListenSpares | model/grail.cc:1238-1243 | a sound run in which a listen is refused under a thread that waits for data: it gets them |
| Scenarios.AcceptDisturbed | model/grail.cc:2002-2022 | the same for a second accept, and for a connect that ends listening |
| Scenarios.SelectDisturbed | model/grail.cc:1662-1822 | the same for a select, overwritten by a second one or deafened by a listen |
| Scenarios.ForeignReceiverIsLost | model/netlink.cc:108-114 | a run in which a thread asks another's netlink socket and goes on from the entry of its call unanswered |
| Scenarios.AckIsNotHeard | model/netlink.cc:392-402 | a run in which any well-formed route message leaves a thread in select with a reply queued that it is not told of |
| Scenarios.StrayConnection | model/grail.cc:1275-1291 | a run after which a closed descriptor counts as connected |
| SoloScenarios.WriteNeverReturns | model/grail.cc:1060-1076 | a run of one thread that is lost in a blocking write |
| SoloScenarios.ListenerNeverReceives | model/grail.cc:2060-2106 | a run of one thread that is lost in recvfrom on a listening socket |
| SoloScenarios.RefusedConnectNeverReturns | model/grail.cc:1290-1295 | a run of one thread that is lost in a connect that ns-3 refuses |
| SoloScenarios.MuteAcceptNeverReturns | model/grail.cc:1238-1243 | a run of one thread that is lost in accept after a listen that ns-3 refused |
| SoloScenarios.MuteSelectNeverHears | model/grail.cc:1735-1784 | a run of one thread that connects, is refused to listen, and waits in select: data come, the descriptor can be read, and the thread is lost |
| SoloScenarios.ConnectionServesTwice | model/grail.cc:2002-2020 | a run of one thread in which a second connection finds the closure of an accept that has been served, and schedules the thread twice |
| SoloScenarios.HauntedRun | model/grail.cc:728-733 | a sound run of one thread: select reports a new socket as readable and recvfrom blocks |
| Resumption.InvHealthy | model/grail.cc:168-202 | under the invariant the simulator is healthy: one source for each live thread, scheduled exactly if parked, none for dead ones, no deaf select |
| Resumption.ExactlyOneContinuation | model/grail.cc:168-202 | between events a live thread has a source of resumption, a queued event or a closure in a slot of an open descriptor; the only one exactly if no accept closure that has served it is left; a dead thread has none but such closures |
| Resumption.ScheduledIffParked | model/grail.cc:168-202 | it is a scheduled dispatch exactly if the thread is past the entry of its call or in one of the calls that never leave it |
| VirtualTime.OnlyItsSourceMoves | model/grail.cc:168-430 | a step moves no thread but the one whose source of resumption it is |
| Resumption.DataExact | model/grail.cc:1790-1818 | select's receive closure keeps the invariant exactly if the waiting thread was dispatched last, and sends it astray otherwise |
| Resumption.ConnectionExact | model/grail.cc:2002-2020 | a blocking accept's closure keeps it exactly if its thread waits in accept and was dispatched last; else that thread goes astray, is scheduled twice, or is dead and scheduled |
| Resumption.CloseExact | model/grail.cc:718-745 | close keeps it exactly if nobody waits on the socket |
| Resumption.HeardExact | model/netlink.cc:392-402 | a netlink request keeps it exactly if nobody waits for the replies, it contains a dump, or nothing at all |
| Resumption.OwnerExact | model/grail.cc:1188-1190 | recvmsg on a netlink socket keeps it exactly if the caller made the socket |
| Resumption.BlockedWriteIsLost | model/grail.cc:1060-1076 | after a write that blocks nothing can resume its thread, send space included |
| SelectWakeups.NoLostWakeup | model/grail.cc:1620-1869 | a thread in select waits in exactly one operation, which watches at least one descriptor; all it watches are requested, not ready and hold its closure; a timeout is queued exactly if the call gives one |
| SelectRequests.RequestIsWatched | model/grail.cc:1620-1894 | from the call to the answer, through any sound run: every requested descriptor that was open at the call is not ready and holds the closure, and the timeout is queued for the time it is due |
| SelectRequests.RequestIsHeard | model/grail.cc:1672-1894 | so data, a connection or space on a requested descriptor, or the timeout, answers the call at once with just that and count 1 |
| SelectRequests.SoloRequestIsWatched | model/grail.cc:1620-1894 | with one thread, in every state: every requested descriptor that is open is watched |
| SelectRequests.ReportIsHonoured | model/grail.cc:1899-1909 | with one thread, from select's report to the next call that asks for what was reported: it is given at once, unless the report was made at once of a connection whose listener is gone |
| SelectWakeups.FirstEventAnswers | model/grail.cc:1672-1894 | the same of the operation's own record, for any state under the invariant |
| SelectWakeups.TimeoutStep | model/grail.cc:1874-1890 | the timeout answers its own select, with no descriptor, and no other |
| SelectWakeups.ConnectionStep | model/grail.cc:1743-1784 | a connection answers the select whose closure is in the listener's slot, stays pending, and touches no other select |
| SelectWakeups.OpStep | model/grail.cc:1676-1678 | any other step leaves the waiting thread alone, and an answered select is never touched again |
| SelectWakeups.AnsweredOnce | model/grail.cc:1620-1621 | over a whole run a select is answered at most once, and exactly once if it is answered in the end |
| SelectWakeups.NetlinkAnswers | model/grail.cc:1834-1861 | a dump requested by another thread answers the select that waits for it |
| Readiness.ReportIsExact | model/grail.cc:1899-1907 | the sets returned without waiting are exactly the requested ready descriptors, the count their cardinalities |
| Readiness.DataReportsReady | model/grail.cc:1790-1818 | data that answer a select are there when its thread goes on |
| Readiness.ConnectionReportsReady | model/grail.cc:1752-1784 | a connection that answers a select is pending when its thread goes on |
| Readiness.DumpReportsReady | model/grail.cc:1834-1861 | a dump that answers a select leaves something on the queue exactly if a reply was called for, and never for the thread that is told |
| Readiness.DumpsAreEmptyIff | model/netlink.cc:207-256 | a request with a dump in it calls for no reply exactly if there are no devices and no route message |
| Readiness.ReadableIsReady | model/grail.cc:1710-1733 | what makes a descriptor readable is there to be had exactly if it is not the connection of a listener that is gone |
| Readiness.SelectIsHonoured | model/grail.cc:698-709 | exactly then, too, there is something to be had after every sound run without a call that consumes it |
| Readiness.SuitedIsServed | model/grail.cc:1981-1995 | a call that asks for what is there is answered with it, exactly if it is not the reply queue of another thread: ns-3's byte count, the least free descriptor, or the oldest reply |
| Readiness.ReadyHasCall | model/grail.cc:1981-1995 | and there is such a call: recvfrom, recvmsg with room for the reply, accept exactly if a descriptor is free |
| Readiness.SoloIsHonoured | model/grail.cc:698-709 | with one thread it is always answered |
| Readiness.ClosedListenerHaunts | model/grail.cc:728-733 | wherever a listener is closed with a connection pending, the next socket with its number looks readable and blocks |
| Descriptors.DescriptorsPartitioned | model/grail.cc:139-147 | after any steps whatever each descriptor of 100 to 199 is free or open as one thing, no other is; listening, TCP and nonblocking nest as they should |
| Descriptors.StepTables | model/grail.cc:139-147 | after any step whatever the tables are still as they should be, nonblocking has changed by fcntl and close alone, and only the late end of a connection attempt spoils connected |
| Descriptors.ConnectedExact | model/grail.cc:1275-1291 | connected descriptors are open sockets throughout a run exactly if no attempt to connect succeeds after its descriptor was closed |
| Descriptors.FcntlExact | model/grail.cc:813-850 | which requests are taken on which kind of descriptor, and the one that is refused |
| Descriptors.NonblockingByHistory | model/grail.cc:837-841 | over any run a descriptor is nonblocking exactly if fcntl made it so and it has not been closed since |
| Descriptors.StarvedExact | model/grail.cc:1060-1076 | read, recvfrom, write and accept with nothing there: told to try again if nonblocking, waiting otherwise |
| Descriptors.EveryCallFreeStep | model/grail.cc:149-154 | a call gives out the least free descriptor, takes back the one it closes, or leaves the free ones alone |
| VirtualTime.MicroClockExact | model/grail.cc:2185-2186 | gettimeofday: both parts in range, together the time in microseconds |
| VirtualTime.NanoClockExact | model/grail.cc:2208-2209 | clock_gettime: both parts in range, together the time |
| VirtualTime.ClocksAgree | model/grail.cc:2185-2209 | the two clocks agree up to truncation |
| VirtualTime.ReadingsMonotone | model/grail.cc:2185-2209 | later readings are not earlier |
| VirtualTime.TimeNeverRunsBack | model/grail.cc:168-180 | over any run the environment can produce virtual time only grows |
| VirtualTime.ClockTellsSecondDispatch | model/grail.cc:2195-2213 | clock_gettime gives the time of its second dispatch, the processing time and the poll-loop delay after the first, whatever other threads do in between |
| VirtualTime.SleepsLongEnough | model/grail.cc:2118-2130 | after nanosleep the thread's next dispatch lies at least the request later, whatever happens in between |
| PollingRuns.PollingMakesProgress | model/grail.cc:172-217 | the n-th call of a program that makes no calls but select, gettimeofday and futex lies at least the detector's bound behind the start, so few calls fit before any deadline |
| PollDetector.PollLoopDetector.HandleSystemCall | model/poll-detector.h:15-75 | one system call seen by detector and strategy, counter of 32 bits included |
| PollDetector.StepsOfTrace | model/poll-detector.h:36-75 | the counter is the length of the qualifying suffix of the trace, less one, modulo 2^32 |
| PollDetector.SuffixIsCharged | model/poll-detector.h:41-75 | the charge at the end of any trace from the numbers alone: calls 23, 96 and 202 make the loop, any other number ends it |
| PollDetector.PollingIsCharged | model/poll-detector.h:41-75 | any sequence over 23, 96 and 202 is charged at least the bound, and just that from a fresh start |
| PollingRuns.WorkIsNotDelayed | model/grail.cc:172-217 | any other call in a run makes the detector forget the loop, and the next call is not delayed |
| PollDetector.LoopLengthMeaning | model/poll-detector.h:60-75 | what that suffix is |
| PollDetector.ProgressBound | model/poll-detector.h:46-49 | n qualifying calls cost at least 100 (2^n - 2) ns up to 14 calls and a millisecond each beyond, exactly that when the loop starts |
| PollDetector.BoundedPolling | model/poll-detector.h:46-49 | no deadline holds more than 14 plus one call per millisecond |
| PollDetector.CounterWraps | model/poll-detector.h:41-51 | the width of the counter is a real limit: call number 2^32 + 1 is charged nothing |
| EndToEnd.StepEffect | model/grail.cc:1954-1967 | each step applies its netlink request to the routing table and queues or delivers replies, no other step does |
| EndToEnd.TableOfRun | model/grail.cc:1189 | the table after a run is the outcome of all requests on all netlink sockets, in order |
| EndToEnd.RepliesOfRun | model/netlink.cc:108-173 | what a socket has delivered, followed by its queue, is the replies to its requests in order: none lost, none repeated |
| EndToEnd.RunMeaning | model/netlink.cc:154-170 | buffers of encoded messages have exactly the effects of those messages |
| EndToEnd.RoutesEndToEnd | model/netlink.cc:316-490 | after any run with well-formed buffers the table is the net effect of the route messages, and lookups follow the longest prefix over it |
| RequestedRoutes.RoutesAsRequested | model/netlink.cc:316-490 | the same from the bytes of the route requests themselves |
| EndToEnd.HistoryDecides | model/route.cc:77-105 | the route returned, from the history alone: the gateway last given to the winning prefix, through the first interface that reaches it |
| EndToEnd.AcksEndToEnd | model/netlink.cc:392-399 | delivered or queued, there is one zero-error acknowledgement for each route change asked of a socket |
| EndToEnd.RunMeaningOn | model/netlink.cc:154-170 | what a run asks of one socket is what the encoded messages sent on it say |
| EndToEnd.RepliesOfTraffic | model/netlink.cc:108-173 | delivered and queued replies are those the messages sent on the socket call for, in order: none lost, none repeated, none invented |
| EndToEnd.AcksOfTraffic | model/netlink.cc:392-399 | delivered or queued, there is one zero-error acknowledgement for each route message sent on a socket |
| Netlink.NetlinkSocket.DumpLinks | model/netlink.cc:207-256 | one reply per device, names numbered by kind, one DONE at the end, then the callback |
| Netlink.NetlinkSocket.DumpAddrs | model/netlink.cc:257-315 | the same for addresses |
| Netlink.NetlinkSocket.WalkAttributes | model/netlink.cc:351-388 | the attribute loop, with its size_t remainder, equals the specification's walk |
| Netlink.NetlinkSocket.ProcessNlmsghdr | model/netlink.cc:205-499 | one message: queue and routes change as the specification says, the callback runs for a dump, or the simulator stops |
| Netlink.NetlinkSocket.NextMessage | model/netlink.cc:163-166 | a round of the message loop has one message's effect, and what is left of the walk starts at the next message |
| Netlink.NetlinkSocket.WalkMessages | model/netlink.cc:162-167 | the message loop has exactly the effects of the walk, in order, and terminates |
| Netlink.NetlinkSocket.HandleSendMsg | model/netlink.cc:143-173 | all buffers in order, the callback once for each dump |
| Netlink.NetlinkSocket.HandleSendTo | model/netlink.cc:175-203 | one buffer; returned is the low word of the leftover length |
| Netlink.NetlinkSocket.HandleRecvMsg | model/netlink.cc:108-141 | the oldest reply, an empty queue, or a buffer that is too small |
| Netlink.StreamConserved | model/netlink.cc:108-173 | sendmsg and recvmsg react as `Netlink.React` says, and over any conversation of such reactions delivered plus queued is what is owed |
| Addresses.AddressNumber | model/netlink.cc:40-49 | the four bytes of an address count from the most significant one |
| Addresses.AddressRoundTrip | model/netlink.cc:40-49 | an address written as four bytes is read back |
| Addresses.CoversNumbers | model/route.cc:81 | an entry matches exactly if the numbers agree in what the prefix length leaves of them |
| NetlinkRequests.RouteRequestUnderstood | model/netlink.cc:316-490 | the 44 bytes of a route request ask for just its addition or deletion, whatever is in the fields that do not matter |
| NetlinkRequests.RequestWithMore | model/netlink.cc:356-383 | so do requests with further attributes of the kinds that are taken |
| NetlinkRequests.NoticeIsRefused | model/netlink.cc:342-345 | one that asks for a notification stops the simulator |
| NetlinkRequests.LinkDumpUnderstood | model/netlink.cc:207-256 | message type 18: one part per device in order with index and name (kind, and how many of that kind come before), and DONE at the end and only there |
| NetlinkRequests.AddressDumpUnderstood | model/netlink.cc:257-315 | message type 22: one part per device in order with exactly its own address and prefix length, and DONE at the end and only there |
| NetlinkReplies.ReplyLength | model/netlink.cc:117-137 | the length that recvmsg checks and returns is the number of bytes of the reply and what its header says |
| NetlinkReplies.AddressReplyReversed | model/netlink.cc:302-303 | the address in a part of a dump has its bytes in the host's order |
| NetlinkReplies.LinkReplyName | model/netlink.cc:244-245 | the name is there with its final zero |
| NetlinkCodec.AttrWalkRoundTrip | model/netlink.cc:351-388 | on encoded attributes the walk visits each once and keeps the last destination and gateway |
| NetlinkCodec.MsgReadsBack | model/netlink.cc:205-499 | an encoded message reads back as what it asks for, whatever follows it |
| NetlinkCodec.MsgWalkRoundTrip | model/netlink.cc:162-167 | walking encoded messages processes exactly those, in order |
| NetlinkCodec.RepliesInOrder | model/netlink.cc:392-399 | route messages are acknowledged one for one and issue their operations in order |
| NetlinkCodec.AlignedStaysInside | model/netlink.cc:351-388 | with an aligned length and full payloads the attribute walk reads nothing behind the message |
| NetlinkCodec.AttrWalkInsideIff | model/netlink.cc:351-388 | the attribute walk stays inside the message for all contents exactly if its length is a multiple of 4 or less than 5: the remainder is unsigned |
| NetlinkCodec.SendToReturn | model/netlink.cc:194-200 | what sendto returns |
| NetlinkCodec.NamesDistinct | model/netlink.cc:227-241 | interface names within a dump are pairwise distinct |
| NetlinkCodec.DumpShape | model/netlink.cc:212-253 | a dump over n devices is n parts and one DONE, nothing if there are none |
| Routing.HgRoutingProtocol.AddRoute | model/route.cc:31-38 | the entry is the last one and the only one with its key |
| Routing.HgRoutingProtocol.DelRoute | model/route.cc:22-29 | the entry with this key is gone whatever gateway is named |
| Routing.HgRoutingProtocol.RouteOutput | model/route.cc:77-105 | the loop computes the decision |
| Routing.HgRoutingProtocol.RouteInput | model/route.cc:130-194 | local delivery, forwarding, refusal or the assertion, as the decision says |
| Routing.CoversMeaning | model/route.cc:81 | an entry matches exactly if the first len bits agree |
| Routing.RemovedRefines | model/route.cc:22-29 | deleting is removal from the map, keys stay distinct |
| Routing.AddedRefines | model/route.cc:31-38 | adding is map update, keys stay distinct |
| Routing.DecisionUnique | model/route.cc:77-105 | longest match, then first added, then the first interface that holds the gateway: at most one decision |
| Routing.DecisionExists | model/route.cc:77-105 | and always one |
| Routing.InputOutputAgree | model/route.cc:162-194 | both lookups take exactly the route the longest prefix leads to; RouteInput is false exactly if nothing matches and asserts exactly if the gateway is on no subnet, RouteOutput returns null in just these cases |
| RoutingHistory.HistoryRefinesMap | model/route.h:26-28 | under every sequence of operations the vector refines the map from destination and length to gateway |
| RoutingHistory.HistoryIsChronological | model/route.cc:31-38 | entries stay ordered by their latest addition |
| RoutingHistory.WinnerByHistory | model/route.cc:77-87 | the winner is the longest live match, ties to the least recently added |
| RoutingHistory.OrderIrrelevantIff | model/route.cc:77-87 | the decision depends on the map alone exactly if no two matches share the greatest length |
| RoutingHistory.CanonicalIsUnique | model/route.cc:77-87 | which is so for canonical destinations |
| RoutingHistory.OrderMatters | model/route.cc:77-87 | and not so in general |
| TraceeMemory.Tracee.MemcpyFromTracee | model/ptrace-utils.h:191-205 | exactly len local bytes are written; bytes of unmapped words come out as 255 |
| TraceeMemory.Tracee.MemcpyToTracee | model/ptrace-utils.h:207-235 | exactly the len target bytes change, the neighbours of the tail are kept; it fails exactly if a word is not mapped |
| TraceeMemory.StoreThenLoad | model/ptrace-utils.h:191-235 | storing and loading is the identity for every length |
| TraceeMemory.LoadFaithfulIff | model/ptrace-utils.h:195-203 | a load is faithful exactly if the range rounded up to words is mapped |
| TraceeMemory.AlignBitMask | model/ptrace-utils.h:81-91 | the bit mask is the rounding that the copies return, short of wrap-around, for every width |

## Left out

- ptrace, waitpid, fork, exec, registers and signals as such: a thread is at the entry or the exit of a call, and memory a map of bytes; a tracee that dies in the middle of a call is not modelled.
- Copies between handlers and tracee memory (arguments, addresses, buffers, descriptor sets): calls and results are values; the copy loops are proved on their own in `TraceeMemory`.
- ns-3: what sockets, packets and the scheduler do comes in through `Answer` and `Step`; a connection runs the accept callback that its listener has when it is completed.
- ns-3's own sockets are values in the fields of `Engine.Priv`; the map from descriptors to netlink sockets holds their places in a sequence of objects. The receive callback of a netlink socket is run at the end of the request that calls it, not between its messages.
- Routing.HgRoutingProtocol.RouteOutput: prefix lengths above 32 are excluded, because what ns-3 makes of such a mask is not in the repository.
- Routing.HgRoutingProtocol.RouteInput: the same.
- Netlink.NetlinkSocket.HandleSendTo: for buffers of 2^31 bytes and more the code keeps the remaining length through an int pointer into a size_t, which the model does not follow.
- Netlink.NetlinkSocket.HandleSendMsg: the same.
- PollDetector.ProgressBound: stops where the 32-bit counter wraps, which `PollDetector.CounterWraps` shows to be a real limit.
- Engine.Priv.HandleSelect: the timeout structure that is set to zero on an immediate return is not modelled; a timeout is a pair of non-negative numbers.
- Engine.Priv.HandleAccept: where the address of the connection is stored, through the member pid, is not modelled.
- Engine.Priv.HandleRecvFrom: the failing address conversion, which ends in an error status, is not modelled, nor is where the address is stored.
- Select with nothing emulated to watch and a positive timeout returns at once in the code and in the model; no sleeping is claimed.
- Connections that arrive while a stale select closure sits in a listener's slot are dropped by the code; the model drops them too, and no conservation of connections is claimed.
- alarm, poll, time, bind, socket options, ioctl, getrandom, rusage, pipe2, getsockname and getpeername: branch by branch only; one error exit of ioctl does not consume the exit stop either.
- The argument checks of futex and of dup and stat: calls that pass through or return a constant are one case each.
- Names, logging, printing to standard output, the preload library, examples and scripts.
