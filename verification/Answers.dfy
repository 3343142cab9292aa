/**
 * What programs are told. For every call that does not wait: the whole state after its dispatch, with every number
 * written out.
 */
module Answers {
  import opened Base
  import opened NetlinkWire
  import opened Sim
  import opened SimInv
  import opened SimRun
  import EE = EndToEnd
  import PD = PollDetector

  /** Event `e` dispatches thread `p`, which comes from the exit of a call and enters `c`. */
  ghost predicate Enters(s: State, e: EvId, p: Pid, c: Call, ans: Answer) {
    Inv(s) && e in s.events && Enabled(s, Step(Fire(e, c), ans)) && s.events[e].what == Before(p) &&
    p in s.tracees && s.tracees[p].stop.AtExit?
  }

  ghost function Then(s: State, e: EvId, c: Call, ans: Answer): State {
    Next(s, Step(Fire(e, c), ans))
  }

  /** The detector has seen the call, if there is one. */
  function Seen(s: State, c: Call): PD.Poll {
    if s.app.detection then PD.Observe(s.poll, SysNr(c)) else s.poll
  }

  /** When a thread that is answered at once is dispatched again. */
  function DueAgain(s: State, e: EvId, c: Call): nat
    requires e in s.events
  {
    s.events[e].at + s.app.processing + PD.Delay(Seen(s, c).steps)
  }

  /** Told `result`: the thread is at the exit of the call, it will be dispatched again, and the sockets are `n`. */
  function Told(s: State, e: EvId, p: Pid, c: Call, result: Result, n: Net): State
    requires e in s.events
  {
    s.(pid := p, poll := Seen(s, c), now := s.events[e].at,
       events := (s.events - {e})[s.nextEvent := Event(DueAgain(s, e, c), Before(p))], nextEvent := s.nextEvent + 1,
       tracees := s.tracees[p := Tracee(AtExit(result), Resumes(s.nextEvent))], net := n)
  }

  /** Not told yet: the thread is at the entry of the call, and the sockets are `n`. */
  function Waits(s: State, e: EvId, p: Pid, c: Call, cont: Cont, n: Net): State
    requires e in s.events
  {
    s.(pid := p, poll := Seen(s, c), now := s.events[e].at, events := s.events - {e},
       tracees := s.tracees[p := Tracee(AtEntry(c), cont)], net := n)
  }

  /** The state in which the handler runs. */
  function Entered(s: State, e: EvId, p: Pid, c: Call): State
    requires e in s.events
  {
    s.(pid := p, poll := Seen(s, c), now := s.events[e].at, events := s.events - {e},
       tracees := s.tracees[p := Tracee(AtEntry(c), InFlight)])
  }

  lemma Runs(s: State, e: EvId, p: Pid, c: Call, ans: Answer)
    requires Enters(s, e, p, c, ans)
    ensures var r := Handle(Entered(s, e, p, c), p, c, ans);
            Then(s, e, c, ans) == ProcessStatusCode(r.s, r.code, p) && Caught(s, p, c) == c &&
            CaughtBy(s, e, c) == Some(c)
  {
    EE.DispatchForm(s, e, c, ans);
    assert Dispatched(s, e, p, c) == Entered(s, e, p, c);
  }

  lemma TellsWith(s: State, e: EvId, p: Pid, c: Call, ans: Answer, result: Result, code: Code, n: Net)
    requires Enters(s, e, p, c, ans) && (code == Success || code == Failure)
    requires var d := Entered(s, e, p, c); Handle(d, p, c, ans) == Answered(d.(net := n), p, result, code, ans)
    ensures Then(s, e, c, ans) == Told(s, e, p, c, result, n)
  {
    Runs(s, e, p, c, ans);
    AnsweredForm(s, e, p, c, ans, result, code, n);
  }

  lemma AnsweredForm(s: State, e: EvId, p: Pid, c: Call, ans: Answer, result: Result, code: Code, n: Net)
    requires e in s.events && p in s.tracees && (code == Success || code == Failure)
    ensures var r := Answered(Entered(s, e, p, c).(net := n), p, result, code, ans);
            ProcessStatusCode(r.s, r.code, p) == Told(s, e, p, c, result, n)
  {
    var r := Answered(Entered(s, e, p, c).(net := n), p, result, code, ans);
    assert ProcessStatusCode(r.s, r.code, p).tracees == Told(s, e, p, c, result, n).tracees;
  }

  lemma StopsWith(s: State, e: EvId, p: Pid, c: Call, ans: Answer)
    requires Enters(s, e, p, c, ans) && Handle(Entered(s, e, p, c), p, c, ans).code == Error
    ensures Then(s, e, c, ans).halted
  {
    Runs(s, e, p, c, ans);
  }

  // ---- Calls the simulator has no part in ---------------------------------------------------------

  /** A descriptor that is none of the simulator's. */
  predicate Outside(t: FdTable, fd: Fd) {
    fd !in t.sockets && fd !in t.netlinks && fd !in t.random
  }

  /** The kernel executes calls on descriptors of its own and those that are passed through. */
  lemma KernelAnswers(s: State, e: EvId, p: Pid, c: Call, ans: Answer)
    requires Enters(s, e, p, c, ans)
    requires c.PassThrough? || c == Open(false) || ((c.Read? || c.Close? || c.Fcntl?) && Outside(s.net.fds, c.fd)) ||
             (c.Write? && Outside(s.net.fds, c.fd) && c.fd !in {1, 2})
    ensures Then(s, e, c, ans) == Told(s, e, p, c, Kernel, s.net)
  {
    TellsWith(s, e, p, c, ans, Kernel, Success, s.net);
  }

  /** What is written to standard output or standard error counts as written; to write nothing stops the simulator. */
  lemma OutputCounts(s: State, e: EvId, p: Pid, c: Call, ans: Answer)
    requires Enters(s, e, p, c, ans) && c.Write? && Outside(s.net.fds, c.fd) && c.fd in {1, 2}
    ensures c.count > 0 ==> Then(s, e, c, ans) == Told(s, e, p, c, Value(c.count), s.net)
    ensures c.count == 0 ==> Then(s, e, c, ans).halted
  {
    if c.count > 0 {
      TellsWith(s, e, p, c, ans, Value(c.count), Success, s.net);
    } else {
      StopsWith(s, e, p, c, ans);
    }
  }

  lemma ConstantAnswers(s: State, e: EvId, p: Pid, c: Call, ans: Answer)
    requires Enters(s, e, p, c, ans) && c.Constant?
    ensures Then(s, e, c, ans) == Told(s, e, p, c, Value(c.value), s.net)
  {
    TellsWith(s, e, p, c, ans, Value(c.value), Success, s.net);
  }

  /** A socket nothing has happened to, with room for `tx` bytes. */
  function NewSock(tx: nat): Sock {
    Sock(0, tx, NoSend, NoRecv, NoAccept, NoConnect, false, false)
  }

  // ---- Opening and closing ------------------------------------------------------------------------

  /** The least free descriptor. */
  predicate LeastFree(t: FdTable, fd: Fd) {
    fd in t.available && forall f :: f in t.available ==> fd <= f
  }

  lemma LeastIs(t: FdTable, fd: Fd)
    requires LeastFree(t, fd)
    ensures t.available != {} && Least(t.available) == fd
  {
  }

  /** A random device takes the least free descriptor, and reads as many bytes as it is asked for. */
  lemma RandomAnswers(s: State, e: EvId, p: Pid, c: Call, ans: Answer, fd: Fd)
    requires Enters(s, e, p, c, ans)
    ensures c == Open(true) && LeastFree(s.net.fds, fd) ==>
              Then(s, e, c, ans) == Told(s, e, p, c, Value(fd),
                                         s.net.(fds := s.net.fds.(available := s.net.fds.available - {fd},
                                                                  random := s.net.fds.random + {fd})))
    ensures c.Read? && c.fd == fd && fd in s.net.fds.random ==>
              Then(s, e, c, ans) == Told(s, e, p, c, Value(c.count), s.net)
  {
    if c == Open(true) && LeastFree(s.net.fds, fd) {
      LeastIs(s.net.fds, fd);
      TellsWith(s, e, p, c, ans, Value(fd), Success,
                s.net.(fds := s.net.fds.(available := s.net.fds.available - {fd}, random := s.net.fds.random + {fd})));
    } else if c.Read? && c.fd == fd && fd in s.net.fds.random {
      TellsWith(s, e, p, c, ans, Value(c.count), Success, s.net);
    }
  }

  /**
   * Numbers of address families and socket types are checked first; a socket starts empty, unconnected and blocking.
   */
  lemma SocketAnswers(s: State, e: EvId, p: Pid, c: Call, ans: Answer, fd: Fd)
    requires Enters(s, e, p, c, ans) && c.Socket? && LeastFree(s.net.fds, fd)
    ensures var t, n := Then(s, e, c, ans), s.net;
            match c.family
            case Inet =>
              t == if c.kind in {Stream, Dgram}
                   then Told(s, e, p, c, Value(fd),
                             n.(fds := n.fds.(available := n.fds.available - {fd},
                                              sockets := n.fds.sockets[fd := |n.socks|],
                                              tcp := if c.kind == Stream then n.fds.tcp + {fd} else n.fds.tcp),
                                socks := n.socks + [NewSock(ans.txAfter)]))
                   else Told(s, e, p, c, Value(-93), n)
            case NetlinkFamily =>
              if c.kind !in {Raw, Dgram} then t == Told(s, e, p, c, Value(-91), n)
              else if !c.route then t.halted
              else t == Told(s, e, p, c, Value(fd),
                             n.(fds := n.fds.(available := n.fds.available - {fd},
                                              netlinks := n.fds.netlinks[fd := |n.nls|]),
                                nls := n.nls + [Nl(p, [], NoNl)]))
            case OtherFamily => t == Told(s, e, p, c, Value(-97), n)
  {
    LeastIs(s.net.fds, fd);
    match c.family
    case Inet =>
      if c.kind == Stream || c.kind == Dgram {
        TellsWith(s, e, p, c, ans, Value(fd), Success, WithSocket(s.net, c.kind, ans.txAfter));
      } else {
        TellsWith(s, e, p, c, ans, Value(-93), Failure, s.net);
      }
    case NetlinkFamily =>
      if c.kind != Raw && c.kind != Dgram {
        TellsWith(s, e, p, c, ans, Value(-91), Failure, s.net);
      } else if !c.route {
        StopsWith(s, e, p, c, ans);
      } else {
        TellsWith(s, e, p, c, ans, Value(fd), Success, WithNetlink(s.net, p));
      }
    case OtherFamily => TellsWith(s, e, p, c, ans, Value(-97), Failure, s.net);
  }

  /** Out of descriptors: whatever needs one stops the simulator. */
  lemma NoDescriptorLeft(s: State, e: EvId, p: Pid, c: Call, ans: Answer)
    requires Enters(s, e, p, c, ans) && s.net.fds.available == {}
    requires c == Open(true) || (c.Socket? && c.family == Inet && c.kind in {Stream, Dgram}) ||
             (c.Socket? && c.family == NetlinkFamily && c.kind in {Raw, Dgram}) ||
             (c.Accept? && c.fd in s.net.fds.listening && c.fd in s.net.fds.fakeAccepted)
    ensures Then(s, e, c, ans).halted
  {
    StopsWith(s, e, p, c, ans);
  }

  /** Without a descriptor in every table. */
  function Without(u: FdTable, fd: Fd): FdTable {
    u.(sockets := u.sockets - {fd}, netlinks := u.netlinks - {fd}, random := u.random - {fd}, tcp := u.tcp - {fd},
       connected := u.connected - {fd}, listening := u.listening - {fd}, nonblocking := u.nonblocking - {fd},
       available := u.available + {fd})
  }

  lemma ClosedTables(u: FdTable, fd: Fd)
    requires Partition(u) && Nested(u)
    ensures fd in u.sockets ==> SocketClosed(u, fd) == Without(u, fd)
    ensures fd in u.netlinks ==> NetlinkClosed(u, fd) == Without(u, fd)
    ensures fd in u.random ==> RandomClosed(u, fd) == Without(u, fd)
  {
  }

  /** The descriptor is free again and means nothing any more. */
  lemma CloseAnswers(s: State, e: EvId, p: Pid, c: Call, ans: Answer)
    requires Enters(s, e, p, c, ans) && c.Close? && !Outside(s.net.fds, c.fd) && c.fd !in s.net.fds.sockets
    ensures Then(s, e, c, ans) == Told(s, e, p, c, Value(0), s.net.(fds := Without(s.net.fds, c.fd)))
  {
    ClosedTables(s.net.fds, c.fd);
    TellsWith(s, e, p, c, ans, Value(0), Success, s.net.(fds := Without(s.net.fds, c.fd)));
  }

  /** Of a socket too, and ns-3 disposes of it a second later. */
  lemma SocketCloseAnswers(s: State, e: EvId, p: Pid, c: Call, ans: Answer)
    requires Enters(s, e, p, c, ans) && c.Close? && c.fd in s.net.fds.sockets
    ensures var t := Then(s, e, c, ans);
            !t.halted && p in t.tracees && t.tracees[p].stop == AtExit(Value(0)) &&
            t.net == s.net.(fds := Without(s.net.fds, c.fd)) && s.nextEvent in t.events &&
            t.events[s.nextEvent] == Event(s.events[e].at + 1000000000, SocketCleanup(s.net.fds.sockets[c.fd]))
  {
    ClosedTables(s.net.fds, c.fd);
    Runs(s, e, p, c, ans);
    CloseForm(Entered(s, e, p, c), p, c.fd, ans);
  }

  lemma CloseForm(d: State, p: Pid, fd: Fd, ans: Answer)
    requires p in d.tracees && d.tracees[p].stop.AtEntry? && fd in d.net.fds.sockets && !d.halted
    ensures var r := HandleClose(d, p, fd, ans);
            var t := ProcessStatusCode(r.s, r.code, p);
            !t.halted && p in t.tracees && t.tracees[p].stop == AtExit(Value(0)) &&
            t.net == d.net.(fds := SocketClosed(d.net.fds, fd)) && d.nextEvent in t.events &&
            t.events[d.nextEvent] == Event(d.now + 1000000000, SocketCleanup(d.net.fds.sockets[fd]))
  {
  }

  // ---- Listening, accepting -----------------------------------------------------------------------

  /** Refused on what is no stream socket or is listening; else told what ns-3 says, and listening in any case. */
  lemma ListenAnswers(s: State, e: EvId, p: Pid, c: Call, ans: Answer)
    requires Enters(s, e, p, c, ans) && c.Listen?
    ensures var t, fd, u := Then(s, e, c, ans), c.fd, s.net.fds;
            t == if fd !in u.tcp || fd in u.listening then Told(s, e, p, c, Value(-95), s.net)
                 else if ans.ret != 0
                 then Told(s, e, p, c, Value(ans.ret), s.net.(fds := u.(listening := u.listening + {fd})))
                 else Told(s, e, p, c, Value(0),
                           s.net.(fds := u.(listening := u.listening + {fd}),
                                  socks := s.net.socks[u.sockets[fd] := Sim.Listening(s.net.socks[u.sockets[fd]], fd)]))
  {
    var fd, u := c.fd, s.net.fds;
    var n := s.net.(fds := u.(listening := u.listening + {fd}));
    if fd !in u.tcp || fd in u.listening {
      TellsWith(s, e, p, c, ans, Value(-95), Failure, s.net);
    } else if ans.ret != 0 {
      TellsWith(s, e, p, c, ans, Value(ans.ret), Failure, n);
    } else {
      TellsWith(s, e, p, c, ans, Value(0), Success,
                n.(socks := s.net.socks[u.sockets[fd] := Sim.Listening(s.net.socks[u.sockets[fd]], fd)]));
    }
  }

  /** With `new_fd` for socket `sid`: an open, connected stream socket that blocks. */
  ghost predicate Opens(t: FdTable, u: FdTable, new_fd: Fd, sid: SockId) {
    LeastFree(t, new_fd) && u.available == t.available - {new_fd} && u.sockets == t.sockets[new_fd := sid] &&
    u.tcp == t.tcp + {new_fd} && u.connected == t.connected + {new_fd} && u.listening == t.listening &&
    u.nonblocking == t.nonblocking && new_fd !in u.nonblocking && u.netlinks == t.netlinks && u.random == t.random
  }

  /** A connection that is pending is handed over: it gets the least free descriptor, and is pending no more. */
  lemma AcceptAnswers(s: State, e: EvId, p: Pid, c: Call, ans: Answer, new_fd: Fd)
    requires Enters(s, e, p, c, ans) && c.Accept? && c.fd in s.net.fds.listening && c.fd in s.net.fds.fakeAccepted
    requires LeastFree(s.net.fds, new_fd)
    ensures exists u :: Then(s, e, c, ans) == Told(s, e, p, c, Value(new_fd), s.net.(fds := u)) &&
                        Opens(s.net.fds, u, new_fd, s.net.fds.fakeAccepted[c.fd]) &&
                        u.fakeAccepted == s.net.fds.fakeAccepted - {c.fd}
  {
    var t := s.net.fds;
    var u := WithAccepted(t.(fakeAccepted := t.fakeAccepted - {c.fd}), new_fd, t.fakeAccepted[c.fd]);
    LeastIs(t, new_fd);
    TellsWith(s, e, p, c, ans, Value(new_fd), Success, s.net.(fds := u));
    assert Opens(t, u, new_fd, t.fakeAccepted[c.fd]);
  }

  /** On what does not listen the simulator stops; without a connection a nonblocking socket is refused. */
  lemma AcceptRefuses(s: State, e: EvId, p: Pid, c: Call, ans: Answer)
    requires Enters(s, e, p, c, ans) && c.Accept? && c.fd !in s.net.fds.fakeAccepted
    ensures c.fd !in s.net.fds.listening ==> Then(s, e, c, ans).halted
    ensures c.fd in s.net.fds.listening && c.fd in s.net.fds.nonblocking ==>
              Then(s, e, c, ans) == Told(s, e, p, c, Value(-11), s.net)
  {
    if c.fd !in s.net.fds.listening {
      StopsWith(s, e, p, c, ans);
    } else if c.fd in s.net.fds.nonblocking {
      TellsWith(s, e, p, c, ans, Value(-11), Failure, s.net);
    }
  }

  /** Connections that nobody waits for are kept, the latest for each listener: it takes the place of the one before. */
  lemma ConnectionsAreKept(s: State, at: nat, sid: SockId, ans: Answer, fd: Fd)
    requires Inv(s) && Enabled(s, Step(Connection(at, sid), ans)) && s.net.socks[sid].accept == DefaultAccept(fd)
    ensures Next(s, Step(Connection(at, sid), ans)) ==
            s.(now := at, net := s.net.(fds := s.net.fds.(fakeAccepted := s.net.fds.fakeAccepted[fd := |s.net.socks|]),
                                        socks := s.net.socks + [NewSock(0)]))
    ensures IsFdOf(s.net.fds.sockets, fd, sid) && fd in s.net.fds.listening
  {
    var f :| IsFdOf(s.net.fds.sockets, f, sid);
    assert SlotsOk(s.tracees, s.ops, s.net.fds, sid, s.net.socks[sid]);
  }

  // ---- Flags --------------------------------------------------------------------------------------

  /** A socket is made nonblocking, and not blocking again; its flags read as zero; netlink sockets take any flag. */
  lemma FcntlAnswers(s: State, e: EvId, p: Pid, c: Call, ans: Answer)
    requires Enters(s, e, p, c, ans) && c.Fcntl? && !Outside(s.net.fds, c.fd)
    ensures var t, u := Then(s, e, c, ans), s.net.fds;
            if c.fd in u.sockets then
              match c.cmd
              case SetFlags(true) =>
                t == Told(s, e, p, c, Value(0), s.net.(fds := u.(nonblocking := u.nonblocking + {c.fd})))
              case SetFlags(false) => t == Told(s, e, p, c, Value(-1), s.net)
              case GetFlags => t == Told(s, e, p, c, Value(0), s.net)
              case OtherCmd => t.halted
            else if c.fd in u.netlinks && c.cmd.SetFlags? then t == Told(s, e, p, c, Value(0), s.net)
            else t.halted
  {
    var u := s.net.fds;
    if c.fd in u.sockets {
      match c.cmd
      case SetFlags(true) =>
        TellsWith(s, e, p, c, ans, Value(0), Success, s.net.(fds := u.(nonblocking := u.nonblocking + {c.fd})));
      case SetFlags(false) => TellsWith(s, e, p, c, ans, Value(-1), Failure, s.net);
      case GetFlags => TellsWith(s, e, p, c, ans, Value(0), Success, s.net);
      case OtherCmd => StopsWith(s, e, p, c, ans);
    } else if c.fd in u.netlinks && c.cmd.SetFlags? {
      TellsWith(s, e, p, c, ans, Value(0), Success, s.net);
    } else {
      StopsWith(s, e, p, c, ans);
    }
  }

  // ---- Clocks -------------------------------------------------------------------------------------

  /** gettimeofday tells the microseconds at the dispatch; the processor-time clocks are refused. */
  lemma ClockAnswers(s: State, e: EvId, p: Pid, c: Call, ans: Answer)
    requires Enters(s, e, p, c, ans)
    ensures c.GetTimeOfDay? ==>
              exists sec: nat, usec: nat ::
                Then(s, e, c, ans) == Told(s, e, p, c, Clock(sec, usec), s.net) && usec < 1000000 &&
                sec * 1000000 + usec == s.events[e].at / 1000
    ensures (c.ClockGetTime? || c.ClockGetRes?) && c.cpuClock ==>
              Then(s, e, c, ans) == Told(s, e, p, c, Value(-1), s.net)
  {
    if c.GetTimeOfDay? {
      var r := MicroClock(s.events[e].at);
      TellsWith(s, e, p, c, ans, r, Success, s.net);
      assert Then(s, e, c, ans) == Told(s, e, p, c, Clock(r.sec, r.sub), s.net);
    } else if (c.ClockGetTime? || c.ClockGetRes?) && c.cpuClock {
      TellsWith(s, e, p, c, ans, Value(-1), Failure, s.net);
    }
  }

  // ---- Threads ------------------------------------------------------------------------------------

  /** Thread `p` told of its child `tid`, which comes out of the kernel; it is dispatched 100 ns after the call. */
  function Cloned(d: State, p: Pid, tid: Pid): State
    requires p in d.tracees
  {
    var at := d.now + d.app.processing + PD.Delay(d.poll.steps);
    d.(nextEvent := d.nextEvent + 2,
       events := d.events[d.nextEvent := Event(d.now + 100, Before(tid))][d.nextEvent + 1 := Event(at, Before(p))],
       tracees := d.tracees[tid := Tracee(AtExit(Kernel), Resumes(d.nextEvent))]
                           [p := Tracee(AtExit(Value(tid)), Resumes(d.nextEvent + 1))])
  }

  lemma CloneAnswers(s: State, e: EvId, p: Pid, c: Call, ans: Answer)
    requires Enters(s, e, p, c, ans) && c.Clone?
    ensures ans.tid !in s.tracees && Then(s, e, c, ans) == Cloned(Entered(s, e, p, c), p, ans.tid)
  {
    Runs(s, e, p, c, ans);
    CloneForm(Entered(s, e, p, c), p, ans);
  }

  lemma CloneForm(d: State, p: Pid, ans: Answer)
    requires p in d.tracees && d.tracees[p].stop.AtEntry? && ans.tid !in d.tracees
    ensures var r := HandleClone(d, p, ans); ProcessStatusCode(r.s, r.code, p) == Cloned(d, p, ans.tid)
  {
    var r := HandleClone(d, p, ans);
    assert ProcessStatusCode(r.s, r.code, p).tracees == Cloned(d, p, ans.tid).tracees;
  }

  /**
   * exit_group ends the simulation unless the application may quit; then its thread is gone at once, and nothing else
   * has changed.
   */
  lemma ExitGroupAnswers(s: State, e: EvId, p: Pid, ans: Answer)
    requires Enters(s, e, p, ExitGroup, ans)
    ensures if s.app.mayQuit
            then Then(s, e, ExitGroup, ans) == Entered(s, e, p, ExitGroup).(tracees := s.tracees - {p})
            else Then(s, e, ExitGroup, ans).halted
  {
    Runs(s, e, p, ExitGroup, ans);
    ExitForm(Entered(s, e, p, ExitGroup), p, ans);
    assert s.tracees[p := Tracee(AtEntry(ExitGroup), InFlight)] - {p} == s.tracees - {p};
  }

  /** At the entry of its last call and scheduled. */
  function LastSeen(d: State, p: Pid): State
    requires p in d.tracees
  {
    var at := d.now + d.app.processing + PD.Delay(d.poll.steps);
    d.(events := d.events[d.nextEvent := Event(at, Before(p))], nextEvent := d.nextEvent + 1,
       tracees := d.tracees[p := d.tracees[p].(cont := Resumes(d.nextEvent))])
  }

  lemma ExitForm(d: State, p: Pid, ans: Answer)
    requires p in d.tracees && d.tracees[p].stop.AtEntry?
    ensures var r := Handle(d, p, ExitGroup, ans);
            ProcessStatusCode(r.s, r.code, p) ==
            if d.app.mayQuit then d.(tracees := d.tracees - {p}) else d.(halted := true)
  {
  }

  lemma LeavingForm(d: State, p: Pid, ans: Answer)
    requires p in d.tracees && d.tracees[p].stop.AtEntry?
    ensures var r := Handle(d, p, Exit, ans); ProcessStatusCode(r.s, r.code, p) == LastSeen(d, p)
  {
  }

  lemma UnsupportedStops(s: State, e: EvId, p: Pid, ans: Answer)
    requires Enters(s, e, p, Unsupported, ans)
    ensures Then(s, e, Unsupported, ans).halted
  {
    StopsWith(s, e, p, Unsupported, ans);
  }

  /** exit leaves the thread where it is, scheduled, */
  lemma ExitAnswers(s: State, e: EvId, p: Pid, ans: Answer)
    requires Enters(s, e, p, Exit, ans)
    ensures Then(s, e, Exit, ans) == LastSeen(Entered(s, e, p, Exit), p)
  {
    Runs(s, e, p, Exit, ans);
    LeavingForm(Entered(s, e, p, Exit), p, ans);
  }

  /** to be taken away by the next dispatch. */
  lemma ExitEnds(s: State, e: EvId, p: Pid, next: Call, ans: Answer)
    requires e in s.events && s.events[e].what == Before(p) && p in s.tracees && s.tracees[p].stop == AtEntry(Exit)
    ensures Next(s, Step(Fire(e, next), ans)) ==
            s.(pid := p, now := s.events[e].at, events := s.events - {e}, tracees := s.tracees - {p})
  {
  }
}
