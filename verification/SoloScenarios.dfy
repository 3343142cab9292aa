/** The runs in which one thread is enough: it has made no other. */
module SoloScenarios {
  import opened Base
  import opened Sim
  import opened SimInv
  import opened SimHandlers
  import opened SimSelect
  import opened SimRun
  import opened Resumption
  import opened Readiness
  import opened Scenarios
  import Exactness

  lemma OpenedReached(p: Pid)
    ensures Reachable(p, Opened(p, StreamNet()))
  {
    Start(p);
    OpenGoes(p, p, StreamCall(), StreamNet());
    Then(p, Initial(Demo(), p), Run(0, StreamCall(), p), Opened(p, StreamNet()));
  }

  // ---- Writes ------------------------------------------------------------------------------------------

  /** The thread has connected at once; ns-3 has no room for data. */
  function Connected(p: Pid): State {
    Answered'(Opened(p, StreamNet()), 1, p, SockNet(true, false, FRESH_SOCK.(connect := ConnectWait(p, FD))), Value(0))
  }

  function Connects(p: Pid): Step {
    Step(Fire(1, Connect(FD, true)), Ans(p, Some(true)))
  }

  lemma ConnectedForm(t: State, p: Pid)
    requires t.net == StreamNet() && p in t.tracees && t.tracees[p].stop.AtEntry? && !t.halted
    ensures var s1 := SetCont(SetSock(t, 0, FRESH_SOCK.(connect := ConnectWait(p, FD), connecting := true)), p,
                              InConnect(FD));
            Handle(t, p, Connect(FD, true), Ans(p, Some(true))) ==
            Res(OnConnect(s1, 0, true, Ans(p, Some(true))), Delayed)
  {
  }

  lemma ConnectedStep(p: Pid)
    ensures Next(Opened(p, StreamNet()), Connects(p)) == Connected(p)
  {
    var s, c, ans := Opened(p, StreamNet()), Connect(FD, true), Ans(p, Some(true));
    CallStep(s, 1, p, c, ans);
    ConnectedForm(Entered(s, 1, p, c), p);
    var t, u := Next(s, Connects(p)), Connected(p);
    assert t.tracees == u.tracees && t.events == u.events && t.net == u.net;
  }

  lemma ConnectedGoes(p: Pid)
    ensures Goes(Opened(p, StreamNet()), Connects(p), Connected(p))
  {
    ConnectedStep(p);
  }

  lemma WriteTaken(p: Pid, count: nat)
    ensures Forbidden(Connected(p), 2, p, Write(FD, count), Ans(p, None))
  {
  }

  /** A write that blocks: nothing is left that would resume the thread. */
  lemma WriteNeverReturns(p: Pid, count: nat)
    ensures Loses(p, Connected(p), Run(2, Write(FD, count), p))
  {
    OpenedReached(p);
    ConnectedGoes(p);
    Then(p, Opened(p, StreamNet()), Connects(p), Connected(p));
    WriteTaken(p, count);
    Disturbs(p, Connected(p), 2, p, Write(FD, count), Ans(p, None));
    Exactness.WriteLoses(Entered(Connected(p), 2, p, Write(FD, count)), p, Write(FD, count), Ans(p, None));
  }

  // ---- Listeners -----------------------------------------------------------------------------------------

  function ListenNet(): Net { SockNet(false, true, Sim.Listening(FRESH_SOCK, FD)) }

  function Listens(p: Pid): State {
    Answered'(Opened(p, StreamNet()), 1, p, ListenNet(), Value(0))
  }

  lemma ListensGoes(p: Pid)
    ensures Goes(Opened(p, StreamNet()), Run(1, Listen(FD), p), Listens(p))
  {
    AnswerStep(Opened(p, StreamNet()), 1, p, Listen(FD), Ans(p, None), ListenNet(), Value(0), Success);
  }

  lemma ListensReached(p: Pid)
    ensures Reachable(p, Listens(p))
  {
    OpenedReached(p);
    ListensGoes(p);
    Then(p, Opened(p, StreamNet()), Run(1, Listen(FD), p), Listens(p));
  }

  lemma ReadTaken(p: Pid)
    ensures Forbidden(Listens(p), 2, p, RecvFrom(FD, 1), Ans(p, None))
  {
  }

  /** A receive on a listening socket: no data come there. */
  lemma ListenerNeverReceives(p: Pid)
    ensures Loses(p, Listens(p), Run(2, RecvFrom(FD, 1), p))
  {
    ListensReached(p);
    ReadTaken(p);
    Disturbs(p, Listens(p), 2, p, RecvFrom(FD, 1), Ans(p, None));
    Exactness.ReceiveLoses(Entered(Listens(p), 2, p, RecvFrom(FD, 1)), p, RecvFrom(FD, 1), Ans(p, None));
  }

  // ---- Where ns-3 refuses --------------------------------------------------------------------------------

  lemma RefusalTaken(p: Pid)
    ensures Forbidden(Opened(p, StreamNet()), 1, p, Connect(FD, true), Refusal(p))
  {
  }

  /** A connect that ns-3 refuses without running a callback: the engine does not look at what it returns. */
  lemma RefusedConnectNeverReturns(p: Pid)
    ensures Loses(p, Opened(p, StreamNet()), Step(Fire(1, Connect(FD, true)), Refusal(p)))
  {
    OpenedReached(p);
    RefusalTaken(p);
    Disturbs(p, Opened(p, StreamNet()), 1, p, Connect(FD, true), Refusal(p));
    Exactness.ConnectLoses(Entered(Opened(p, StreamNet()), 1, p, Connect(FD, true)), p, Connect(FD, true), Refusal(p));
  }

  function MuteSock(p: Pid, accept: AcceptCb): Sock {
    FRESH_SOCK.(connect := ConnectWait(p, FD), accept := accept)
  }

  /** The thread has connected, and been refused to listen. */
  function Mute(p: Pid): State {
    Answered'(Connected(p), 2, p, SockNet(true, true, MuteSock(p, NoAccept)), Value(-1))
  }

  lemma MuteGoes(p: Pid)
    ensures Goes(Connected(p), Step(Fire(2, Listen(FD)), Refusal(p)), Mute(p))
  {
    AnswerStep(Connected(p), 2, p, Listen(FD), Refusal(p), Mute(p).net, Value(-1), Failure);
  }

  lemma MuteReached(p: Pid)
    ensures Reachable(p, Mute(p))
  {
    OpenedReached(p);
    ConnectedGoes(p);
    Then(p, Opened(p, StreamNet()), Connects(p), Connected(p));
    MuteGoes(p);
    Then(p, Connected(p), Step(Fire(2, Listen(FD)), Refusal(p)), Mute(p));
  }

  lemma MuteAcceptTaken(p: Pid)
    ensures Forbidden(Mute(p), 3, p, Accept(FD), Ans(p, None))
  {
  }

  /** An accept where ns-3 refused to listen: no connection comes there. */
  lemma MuteAcceptNeverReturns(p: Pid)
    ensures Loses(p, Mute(p), Run(3, Accept(FD), p))
  {
    MuteReached(p);
    MuteAcceptTaken(p);
    Disturbs(p, Mute(p), 3, p, Accept(FD), Ans(p, None));
    Exactness.AcceptLoses(Entered(Mute(p), 3, p, Accept(FD)), p, Accept(FD), Ans(p, None));
  }

  /** The thread waits in select, for connections. */
  function Unhearing(p: Pid): State {
    At(p, 0, map[], 4, map[p := Tracee(AtEntry(SelectCall()), InSelect(0))],
       [SelectOp(p, true, false, {FD}, {}, false, None)], SockNet(true, true, MuteSock(p, SelectAccept(0, FD))))
  }

  lemma MuteNet(p: Pid)
    ensures var n := Mute(p).net;
            WatchR(n.fds, Some({FD})) == {FD} && WatchW(n.fds, None) == {} && FdOk(n) &&
            WatchedNet(n, 0, {FD}, {}) == Unhearing(p).net
  {
    var n := Mute(p).net;
    assert FdOk(n);
    WatchedSockOf(n, FD, 0, {FD}, {});
  }

  lemma MuteWaits(p: Pid)
    ensures SelectMustWait(Mute(p).net, SelectCall()) && SelectUnheard(Mute(p).net, SelectCall())
  {
    MuteNet(p);
    var n := Mute(p).net;
    assert FD in WatchR(n.fds, Some({FD})) && Refused(n, FD);
  }

  lemma MuteSelectTaken(p: Pid)
    ensures Forbidden(Mute(p), 3, p, SelectCall(), Ans(p, None))
  {
    MuteWaits(p);
  }

  lemma SelectWaitsForm(t: State, p: Pid, c: Call, ans: Answer)
    requires c.Select? && SelectMustWait(t.net, c)
    ensures Handle(t, p, c, ans) == Res(BlockInSelect(t, p, c.rset, c.wset, c.timeout), Delayed)
  {
  }

  lemma MuteSelectBlocks(t: State, p: Pid)
    requires t.net == Mute(p).net && t.ops == []
    ensures Handle(t, p, SelectCall(), Ans(p, None)) ==
            Res(SetCont(t.(net := Unhearing(p).net, ops := Unhearing(p).ops), p, InSelect(0)), Delayed)
  {
    MuteNet(p);
    MuteWaits(p);
    SelectWaitsForm(t, p, SelectCall(), Ans(p, None));
  }

  lemma UnhearingStep(p: Pid)
    ensures Next(Mute(p), Run(3, SelectCall(), p)) == Unhearing(p)
  {
    CallStep(Mute(p), 3, p, SelectCall(), Ans(p, None));
    MuteSelectBlocks(Entered(Mute(p), 3, p, SelectCall()), p);
    var t, u := Next(Mute(p), Run(3, SelectCall(), p)), Unhearing(p);
    assert t.tracees == u.tracees && t.events == u.events;
  }

  /**
   * connect, a listen that ns-3 refuses, select: the engine takes the socket for a listener and waits for connections.
   * Data come, the descriptor can be read, and the thread is not told.
   */
  lemma MuteSelectNeverHears(p: Pid, rx: nat)
    requires rx > 0
    ensures Loses(p, Mute(p), Run(3, SelectCall(), p)) && Next(Mute(p), Run(3, SelectCall(), p)) == Unhearing(p)
    ensures var step := Step(Data(0, 0, rx), Ans(p, None));
            var t := Next(Unhearing(p), step);
            Enabled(Unhearing(p), step) && Readable(t.net, FD) && Deaf(t, 0, FD) && Lost(t, p) &&
            t.tracees == Unhearing(p).tracees && t.events == map[]
  {
    MuteReached(p);
    MuteSelectTaken(p);
    UnhearingStep(p);
    Disturbs(p, Mute(p), 3, p, SelectCall(), Ans(p, None));
    NothingWakes(Unhearing(p), p);
    DataUnheard(p, rx);
  }

  lemma DataUnheard(p: Pid, rx: nat)
    requires rx > 0
    ensures var step := Step(Data(0, 0, rx), Ans(p, None));
            var t := Next(Unhearing(p), step);
            Enabled(Unhearing(p), step) && Readable(t.net, FD) && Deaf(t, 0, FD) && Lost(t, p) &&
            t.tracees == Unhearing(p).tracees && t.events == map[]
  {
    NothingWakes(Next(Unhearing(p), Step(Data(0, 0, rx), Ans(p, None))), p);
  }

  lemma NothingWakes(t: State, p: Pid)
    requires p in t.tracees && t.events == map[] && t.net.nls == []
    requires exists rx: nat :: t.net == SockNet(true, true, MuteSock(p, SelectAccept(0, FD)).(rx := rx))
    ensures Lost(t, p)
  {
  }

  // ---- Connections -----------------------------------------------------------------------------------------

  /** The thread waits in accept. */
  function Accepts(p: Pid): State {
    At(p, 0, map[], 3, map[p := Tracee(AtEntry(Accept(FD)), InAccept(FD))], [],
       SockNet(false, true, FRESH_SOCK.(accept := AcceptWait(p, FD), listens := true)))
  }

  lemma AcceptsStep(p: Pid)
    ensures Next(Listens(p), Run(2, Accept(FD), p)) == Accepts(p)
  {
    CallStep(Listens(p), 2, p, Accept(FD), Ans(p, None));
    AcceptBlocks(Entered(Listens(p), 2, p, Accept(FD)), p, p);
    var t, u := Next(Listens(p), Run(2, Accept(FD), p)), Accepts(p);
    assert t.tracees == u.tracees && t.events == u.events;
  }

  lemma AcceptsGoes(p: Pid)
    ensures Goes(Listens(p), Run(2, Accept(FD), p), Accepts(p))
  {
    AcceptsStep(p);
  }

  function Arrival(p: Pid): Step {
    Step(Connection(0, 0), Ans(p, None))
  }

  /** The first connection has been accepted. */
  ghost function Accepted(p: Pid): State {
    Next(Accepts(p), Arrival(p))
  }

  lemma ArrivalGoes(p: Pid)
    ensures Goes(Accepts(p), Arrival(p), Accepted(p))
  {
    var s := Accepts(p);
    assert IsFdOf(s.net.fds.sockets, FD, 0) && FD + 1 in s.net.fds.available;
  }

  lemma AcceptedReached(p: Pid)
    ensures Reachable(p, Accepted(p))
  {
    ListensReached(p);
    AcceptsGoes(p);
    Then(p, Listens(p), Run(2, Accept(FD), p), Accepts(p));
    ArrivalGoes(p);
    Then(p, Accepts(p), Arrival(p), Accepted(p));
  }

  lemma SecondArrival(p: Pid)
    ensures var s := Accepted(p);
            Enabled(s, Arrival(p)) && !Disciplined(s, Arrival(p)) && !Next(s, Arrival(p)).halted &&
            ServedAccept(s, 0, p)
  {
    var s := Accepted(p);
    assert FD + 1 in Accepts(p).net.fds.available && FD + 2 in Accepts(p).net.fds.available;
    assert IsFdOf(s.net.fds.sockets, FD, 0);
  }

  lemma ScheduledTwice(p: Pid)
    ensures Twice(Next(Accepted(p), Arrival(p)), p)
  {
    var t := Next(Accepted(p), Arrival(p));
    assert FD + 1 in Accepts(p).net.fds.available && FD + 2 in Accepts(p).net.fds.available;
    assert Real(t, ByEvent(3), p) && Real(t, ByEvent(4), p);
  }

  /**
   * The closure that has served an accept is still there when the next connection comes: the thread is scheduled
   * twice.
   */
  lemma ConnectionServesTwice(p: Pid)
    ensures ServedAccept(Accepted(p), 0, p) && Breaks(p, Accepted(p), Arrival(p)) &&
            Twice(Next(Accepted(p), Arrival(p)), p)
  {
    AcceptedReached(p);
    SecondArrival(p);
    ScheduledTwice(p);
    Undisciplined(p, Accepted(p), Arrival(p));
  }

  // ---- A connection that outlives its listener ----------------------------------------------------------

  function Orphanage(available: set<Fd>, sockets: map<Fd, SockId>, listening: set<Fd>, more: seq<Sock>): Net {
    Net(FdTable(available, sockets, map[], {}, listening, {}, listening, {}, map[FD := 1]),
        [Sim.Listening(FRESH_SOCK, FD), FRESH_SOCK] + more, [])
  }

  /** A connection is pending. */
  function Pends(p: Pid): State {
    Listens(p).(net := Orphanage(AllFds() - {FD}, map[FD := 0], {FD}, []))
  }

  /** The listener has been closed. */
  function Closed(p: Pid): State {
    At(p, 0, map[3 := Event(NS_PER_SEC, SocketCleanup(0)), 4 := Event(0, Before(p))], 5,
       map[p := Tracee(AtExit(Value(0)), Resumes(4))], [], Orphanage(AllFds(), map[], {}, []))
  }

  /** Its number has gone to a datagram socket. */
  function Reused(p: Pid): State {
    Answered'(Closed(p), 4, p, Orphanage(AllFds() - {FD}, map[FD := 2], {}, [FRESH_SOCK]), Value(FD))
  }

  /** Which select has found readable. */
  function Reported(p: Pid): State {
    Answered'(Reused(p), 5, p, Reused(p).net, Selected(1, Some({FD}), None))
  }

  lemma PendsGoes(p: Pid)
    ensures Goes(Listens(p), Arrival(p), Pends(p))
  {
    assert IsFdOf(Listens(p).net.fds.sockets, FD, 0);
  }

  lemma ClosedFds()
    ensures SocketClosed(Orphanage(AllFds() - {FD}, map[FD := 0], {FD}, []).fds, FD) ==
            Orphanage(AllFds(), map[], {}, []).fds
  {
    FirstFd();
  }

  lemma CloseHandled(t: State, p: Pid)
    requires t.net == Orphanage(AllFds() - {FD}, map[FD := 0], {FD}, [])
    ensures Handle(t, p, Close(FD), Ans(p, None)) ==
            Sim.Answered(Schedule(t.(net := Orphanage(AllFds(), map[], {}, [])), Later(t.now, 1, 0), SocketCleanup(0)),
                         p, Value(0), Success, Ans(p, None))
  {
    ClosedFds();
  }

  lemma ClosedStep(p: Pid)
    ensures Next(Pends(p), Run(2, Close(FD), p)) == Closed(p)
  {
    CallStep(Pends(p), 2, p, Close(FD), Ans(p, None));
    CloseHandled(Entered(Pends(p), 2, p, Close(FD)), p);
    var t, u := Next(Pends(p), Run(2, Close(FD), p)), Closed(p);
    assert t.tracees == u.tracees && t.events == u.events && t.net == u.net;
  }

  lemma ClosedGoes(p: Pid)
    ensures Goes(Pends(p), Run(2, Close(FD), p), Closed(p))
  {
    ClosedStep(p);
  }

  lemma ReusedGoes(p: Pid)
    ensures Goes(Closed(p), Run(4, Socket(Inet, Dgram, false), p), Reused(p))
  {
    FirstFd();
    assert WithSocket(Closed(p).net, Dgram, 0) == Reused(p).net;
    AnswerStep(Closed(p), 4, p, Socket(Inet, Dgram, false), Ans(p, None), Reused(p).net, Value(FD), Success);
  }

  lemma ReportedAnswer(n: Net)
    requires Known(n, FD) && FD in n.fds.fakeAccepted
    ensures SelectAnswer(n, Some({FD}), None) == Selected(1, Some({FD}), None)
    ensures !SelectFails(n, Some({FD}), None, None, None) && !NothingReady(n, Some({FD}), None)
  {
    assert ReadyR(n, Some({FD})) == {FD} && ReadyW(n, None) == {};
  }

  lemma ReportedStep(p: Pid)
    ensures Next(Reused(p), Run(5, SelectCall(), p)) == Reported(p)
  {
    var s := Reused(p);
    ReportedAnswer(s.net);
    AnswerStep(s, 5, p, SelectCall(), Ans(p, None), s.net, Selected(1, Some({FD}), None), Success);
  }

  lemma ReportedGoes(p: Pid)
    ensures Goes(Reused(p), Run(5, SelectCall(), p), Reported(p))
  {
    ReportedStep(p);
    ReportedAllowed(p);
  }

  lemma ReportedAllowed(p: Pid)
    ensures Disciplined(Reused(p), Run(5, SelectCall(), p))
  {
    ReportedAnswer(Reused(p).net);
  }

  lemma ReportedReached(p: Pid)
    ensures Reachable(p, Reported(p))
  {
    ListensReached(p);
    PendsGoes(p);
    Then(p, Listens(p), Arrival(p), Pends(p));
    ClosedGoes(p);
    Then(p, Pends(p), Run(2, Close(FD), p), Closed(p));
    ReusedGoes(p);
    Then(p, Closed(p), Run(4, Socket(Inet, Dgram, false), p), Reused(p));
    ReportedGoes(p);
    Then(p, Reused(p), Run(5, SelectCall(), p), Reported(p));
  }

  /** After the last call of the run below. */
  function Blocked(p: Pid): Step {
    Run(6, RecvFrom(FD, 1), p)
  }

  lemma ReportedBlocks(p: Pid)
    ensures var s := Reported(p);
            var t := Next(s, Blocked(p));
            Haunted(s.net, FD) && s.tracees[p].stop == AtExit(Selected(1, Some({FD}), None)) &&
            Goes(s, Blocked(p), t) && p in t.tracees && t.tracees[p] == Tracee(AtEntry(RecvFrom(FD, 1)), InRecv(FD))
  {
    CallStep(Reported(p), 6, p, RecvFrom(FD, 1), Ans(p, None));
  }

  /**
   * listen, a connection, close, a datagram socket, select: the thread is told that the new socket can be read, and
   * its recvfrom blocks. No step of this is one that the engine cannot bear.
   */
  lemma HauntedRun(p: Pid)
    ensures var s := Reported(p);
            var t := Next(s, Blocked(p));
            Reachable(p, s) && Reachable(p, t) && Haunted(s.net, FD) &&
            s.tracees[p].stop == AtExit(Selected(1, Some({FD}), None)) &&
            p in t.tracees && t.tracees[p] == Tracee(AtEntry(RecvFrom(FD, 1)), InRecv(FD))
  {
    ReportedReached(p);
    ReportedBlocks(p);
    Then(p, Reported(p), Blocked(p), Next(Reported(p), Blocked(p)));
  }
}
