/** The descriptors 100 to 199: who holds them, and which one an application gets next. */
module Descriptors {
  import opened Base
  import opened NetlinkWire
  import opened Sim
  import opened SimInv
  import opened SimServing
  import opened SimFrame
  import opened SimRun
  import opened Readiness
  import NL = Netlink

  // ---- Every descriptor has one place -----------------------------------------------------

  /** In how many of the tables a descriptor is. */
  function Holders(t: FdTable, f: Fd): nat {
    (if f in t.available then 1 else 0) + (if f in t.sockets then 1 else 0) +
    (if f in t.netlinks then 1 else 0) + (if f in t.random then 1 else 0)
  }

  lemma PartitionCounts(t: FdTable, f: Fd)
    requires Partition(t)
    ensures Holders(t, f) == if FIRST_FD <= f < LAST_FD then 1 else 0
  {
    assert f in AllFds() <==> InRange(f);
    assert f in t.available + t.sockets.Keys + t.netlinks.Keys + t.random <==> f in AllFds();
  }

  /** What every table promises about the others, `connected` apart. */
  ghost predicate TablesOk(t: FdTable) {
    Partition(t) && t.listening <= t.tcp && t.tcp <= t.sockets.Keys && t.nonblocking <= t.sockets.Keys
  }

  ghost predicate ConnectedOk(t: FdTable) {
    t.connected <= t.sockets.Keys
  }

  predicate SetsFlag(t: FdTable, c: Call, f: Fd) {
    c == Fcntl(f, SetFlags(true)) && f in t.sockets
  }

  /** What a call does to the tables: `nonblocking` changes by fcntl and close alone. */
  ghost predicate TableStep(t: FdTable, u: FdTable, c: Call) {
    TablesOk(u) && (ConnectedOk(t) ==> ConnectedOk(u)) &&
    forall f :: f in u.nonblocking <==> (f in t.nonblocking && c != Close(f)) || SetsFlag(t, c, f)
  }

  // ---- What a call does to the free ones ----------------------------------------------------

  /** The free descriptors stay, or the least of them is given out, or the one closed is free again. */
  ghost predicate FreeStep(s: State, r: Res, p: Pid, c: Call) {
    var a, b := s.net.fds.available, r.s.net.fds.available;
    b == a ||
    (a != {} && b == a - {Least(a)} && r.code == Success && p in r.s.tracees &&
     r.s.tracees[p].stop == AtExit(Value(Least(a))) &&
     Emulated(r.s.net.fds, Least(a))) ||
    (c.Close? && Emulated(s.net.fds, c.fd) && !Emulated(r.s.net.fds, c.fd) && b == a + {c.fd})
  }

  lemma OpeningStep(s: State, p: Pid, c: Call, ans: Answer)
    requires TablesOk(s.net.fds) && p in s.tracees && s.tracees[p].stop.AtEntry? && (c.Open? || c.Accept?)
    ensures FreeStep(s, Handle(s, p, c, ans), p, c)
  {
  }

  lemma SocketStep(s: State, p: Pid, c: Call, ans: Answer)
    requires TablesOk(s.net.fds) && p in s.tracees && s.tracees[p].stop.AtEntry? && c.Socket?
    ensures FreeStep(s, Handle(s, p, c, ans), p, c)
  {
    if c.family == Inet {
      InetStep(s, p, c, ans);
    } else if c.family == NetlinkFamily {
      NetlinkStep(s, p, c, ans);
    }
  }

  lemma InetStep(s: State, p: Pid, c: Call, ans: Answer)
    requires TablesOk(s.net.fds) && p in s.tracees && s.tracees[p].stop.AtEntry? && c.Socket? && c.family == Inet
    ensures FreeStep(s, HandleSocket(s, p, c.family, c.kind, c.route, ans), p, c)
  {
  }

  lemma NetlinkStep(s: State, p: Pid, c: Call, ans: Answer)
    requires TablesOk(s.net.fds) && p in s.tracees && s.tracees[p].stop.AtEntry? && c.Socket? &&
             c.family == NetlinkFamily
    ensures FreeStep(s, HandleSocket(s, p, c.family, c.kind, c.route, ans), p, c)
  {
  }

  lemma CloseStep(s: State, p: Pid, c: Call, ans: Answer)
    requires TablesOk(s.net.fds) && p in s.tracees && s.tracees[p].stop.AtEntry? && c.Close?
    ensures FreeStep(s, Handle(s, p, c, ans), p, c)
  {
    if c.fd in s.net.fds.sockets {
      AnsweredNet(CloseSocket(s, c.fd), p, Value(0), Success, ans);
    }
  }

  lemma WriteFree(s: State, p: Pid, fd: Fd, count: nat, ans: Answer)
    ensures HandleWrite(s, p, fd, count, ans).s.net.fds == s.net.fds
  {
    AnsweredNet(s, p, Value(-EWOULDBLOCK), Failure, ans);
    AnsweredNet(s, p, Value(count), Success, ans);
    AnsweredNet(s, p, Kernel, Success, ans);
    if Known(s.net, fd) {
      var sid := s.net.fds.sockets[fd];
      AnsweredNet(SetSock(s, sid, s.net.socks[sid].(tx := ans.txAfter)), p, Value(ans.ret), Success, ans);
    }
  }

  lemma ReadFree(s: State, p: Pid, fd: Fd, count: nat, ans: Answer)
    ensures HandleRead(s, p, fd, count, ans).s.net.fds == s.net.fds
    ensures HandleRecvFrom(s, p, fd, ans).s.net.fds == s.net.fds
  {
    AnsweredNet(s, p, Value(count), Success, ans);
    AnsweredNet(s, p, Kernel, Success, ans);
    if Known(s.net, fd) {
      ReceiveNet(s, p, fd, Failure, ans);
      ReceiveNet(s, p, fd, Success, ans);
    }
  }

  lemma ListenFree(s: State, p: Pid, fd: Fd, ans: Answer)
    ensures HandleListen(s, p, fd, ans).s.net.fds.available == s.net.fds.available
  {
  }

  lemma SelectFree(s: State, p: Pid, rset: Option<set<Fd>>, wset: Option<set<Fd>>, eset: Option<set<Fd>>,
                   timeout: Option<Timeval>, ans: Answer)
    ensures HandleSelect(s, p, rset, wset, eset, timeout, ans).s.net.fds == s.net.fds
  {
  }

  lemma SendFree(s: State, fd: Fd, walked: Outcome<seq<Effect>>, returned: int, ans: Answer)
    requires KnownNl(s.net, fd)
    ensures NetlinkSend(s, fd, walked, returned, ans).s.net.fds == s.net.fds
  {
    if Notified(s, fd, walked).Some? {
      var n := s.net.fds.netlinks[fd];
      var r := s.net.nls[n].recv;
      FinishFrame(Sent(s, n, walked.value, r), r.op, s.ops[r.op].pid, OneRead(s.ops[r.op], r.fd), ans.stray);
    }
  }

  lemma MessageFree(s: State, p: Pid, c: Call, ans: Answer)
    requires c.SendTo? || c.SendMsg? || c.RecvMsg?
    ensures Handle(s, p, c, ans).s.net.fds == s.net.fds
  {
    match c
    case SendTo(fd, buf, flags, _) =>
      AnsweredNet(s, p, Value(ans.ret), Success, ans);
      if RequestOf(s, c).Some? {
        SendFree(s, fd, WalkMsgs(buf, s.app.devices), LeftoverValue(buf), ans);
      }
    case SendMsg(fd, iov) =>
      if RequestOf(s, c).Some? {
        SendFree(s, fd, WalkBuffers(iov, s.app.devices), NL.TotalLen(iov), ans);
      }
    case RecvMsg(_, _) =>
  }

  /** Every call gives out the least free descriptor, takes back the one it closes, or leaves the free ones alone. */
  lemma EveryCallFreeStep(s: State, p: Pid, c: Call, ans: Answer)
    requires TablesOk(s.net.fds) && p in s.tracees && s.tracees[p].stop.AtEntry?
    ensures FreeStep(s, Handle(s, p, c, ans), p, c)
  {
    match c
    case Open(_) => OpeningStep(s, p, c, ans);
    case Accept(_) => OpeningStep(s, p, c, ans);
    case Socket(_, _, _) => SocketStep(s, p, c, ans);
    case Close(_) => CloseStep(s, p, c, ans);
    case Fcntl(fd, cmd) => FcntlNet(s, p, fd, cmd, ans);
    case Listen(fd) => ListenFree(s, p, fd, ans);
    case Connect(fd, inet) => ConnectFds(s, p, fd, inet, ans);
    case _ => TablesUntouched(s, p, c, ans);
  }

  // ---- The tables over whole runs -------------------------------------------------------------

  lemma ClosedTables(t: FdTable, fd: Fd)
    requires TablesOk(t)
    ensures fd in t.sockets ==> TableStep(t, SocketClosed(t, fd), Close(fd))
    ensures fd in t.netlinks ==> TableStep(t, NetlinkClosed(t, fd), Close(fd))
    ensures fd in t.random ==> TableStep(t, RandomClosed(t, fd), Close(fd))
  {
  }

  lemma CloseTables(s: State, p: Pid, fd: Fd, ans: Answer)
    requires TablesOk(s.net.fds)
    ensures TableStep(s.net.fds, HandleClose(s, p, fd, ans).s.net.fds, Close(fd))
  {
    var t := s.net.fds;
    ClosedTables(t, fd);
    AnsweredNet(s, p, Kernel, Success, ans);
    if fd in t.sockets {
      AnsweredNet(CloseSocket(s, fd), p, Value(0), Success, ans);
    }
    AnsweredNet(WithFds(s, NetlinkClosed(t, fd)), p, Value(0), Success, ans);
    AnsweredNet(WithFds(s, RandomClosed(t, fd)), p, Value(0), Success, ans);
  }

  lemma OpenTables(s: State, p: Pid, random: bool, ans: Answer)
    requires TablesOk(s.net.fds)
    ensures TableStep(s.net.fds, HandleOpen(s, p, random, ans).s.net.fds, Open(random))
  {
  }

  lemma NewTables(n: Net, kind: SockType, tx: nat, p: Pid, c: Call)
    requires TablesOk(n.fds) && n.fds.available != {} && c.Socket?
    ensures TableStep(n.fds, WithSocket(n, kind, tx).fds, c) && TableStep(n.fds, WithNetlink(n, p).fds, c)
  {
  }

  lemma SocketTables(s: State, p: Pid, c: Call, ans: Answer)
    requires TablesOk(s.net.fds) && c.Socket?
    ensures TableStep(s.net.fds, Handle(s, p, c, ans).s.net.fds, c)
  {
    SocketNet(s, p, c.family, c.kind, c.route, ans);
    if s.net.fds.available != {} {
      NewTables(s.net, c.kind, ans.txAfter, p, c);
    }
  }

  /** Calls that leave the tables alone. */
  lemma TablesUntouched(s: State, p: Pid, c: Call, ans: Answer)
    requires !c.Open? && !c.Accept? && !c.Socket? && !c.Close? && !c.Fcntl? && !c.Listen? && !c.Connect?
    ensures Handle(s, p, c, ans).s.net.fds == s.net.fds
  {
    match c
    case Read(fd, count) => ReadFree(s, p, fd, count, ans);
    case RecvFrom(fd, _) => ReadFree(s, p, fd, 0, ans);
    case Write(fd, count) => WriteFree(s, p, fd, count, ans);
    case Select(r, w, e, t) => SelectFree(s, p, r, w, e, t, ans);
    case SendTo(_, _, _, _) => MessageFree(s, p, c, ans);
    case SendMsg(_, _) => MessageFree(s, p, c, ans);
    case RecvMsg(_, _) => MessageFree(s, p, c, ans);
    case _ => OtherNet(s, p, c, ans);
  }

  lemma AcceptedTables(t: FdTable, sid: SockId, fd: Fd)
    requires TablesOk(t) && t.available != {}
    ensures TableStep(t, WithAccepted(t, Least(t.available), sid), Accept(fd))
  {
  }

  lemma AcceptTables(s: State, p: Pid, fd: Fd, ans: Answer)
    requires TablesOk(s.net.fds)
    ensures TableStep(s.net.fds, HandleAccept(s, p, fd, ans).s.net.fds, Accept(fd))
  {
    var t := s.net.fds;
    AnsweredNet(s, p, Value(-EWOULDBLOCK), Failure, ans);
    if fd in t.fakeAccepted && t.available != {} {
      var u, new_fd := t.(fakeAccepted := t.fakeAccepted - {fd}), Least(t.available);
      AcceptedTables(u, t.fakeAccepted[fd], fd);
      AnsweredNet(WithFds(s, WithAccepted(u, new_fd, t.fakeAccepted[fd])), p, Value(new_fd), Success, ans);
    }
  }

  lemma ListenTables(s: State, p: Pid, fd: Fd, ans: Answer)
    requires TablesOk(s.net.fds)
    ensures TableStep(s.net.fds, HandleListen(s, p, fd, ans).s.net.fds, Listen(fd))
  {
    AnsweredNet(s, p, Value(-EOPNOTSUPP), Failure, ans);
    if Known(s.net, fd) && fd in s.net.fds.tcp {
      var sid, s1 := s.net.fds.sockets[fd], WithFds(s, s.net.fds.(listening := s.net.fds.listening + {fd}));
      AnsweredNet(s1, p, Value(ans.ret), Failure, ans);
      AnsweredNet(SetSock(s1, sid, Sim.Listening(s.net.socks[sid], fd)), p, Value(0), Success, ans);
    }
  }

  /** What the end of a connection attempt does to the tables. */
  lemma ConnectEndFds(s: State, sid: SockId, ok: bool, ans: Answer)
    requires sid < |s.net.socks|
    ensures var c, t := s.net.socks[sid].connect, s.net.fds;
            OnConnect(s, sid, ok, ans).net.fds ==
            if ok && c.ConnectWait? then t.(connected := t.connected + {c.fd}) else t
  {
    var k := s.net.socks[sid];
    if k.connect.ConnectWait? {
      var s1 := SetSock(s, sid, k.(connecting := false));
      var s2 := if ok then WithFds(s1, s.net.fds.(connected := s.net.fds.connected + {k.connect.fd})) else s1;
      AnsweredNet(s2, k.connect.pid, Value(if ok then 0 else -1), Manual, ans);
    }
  }

  lemma ConnectFds(s: State, p: Pid, fd: Fd, inet: bool, ans: Answer)
    ensures var t, u := s.net.fds, HandleConnect(s, p, fd, inet, ans).s.net.fds;
            u == t || (fd in t.sockets && u == t.(connected := t.connected + {fd}))
  {
    AnsweredNet(s, p, Value(-1), Failure, ans);
    if Known(s.net, fd) && ans.connected.Some? {
      var sid := s.net.fds.sockets[fd];
      var s1 := SetCont(SetSock(s, sid, Attempted(s.net.socks[sid], p, fd, ans)), p, InConnect(fd));
      ConnectEndFds(s1, sid, ans.connected.value, ans);
    }
  }

  /** fcntl changes one thing: it marks a socket as nonblocking, and nothing unmarks it. */
  lemma FcntlFds(s: State, p: Pid, fd: Fd, cmd: FcntlCmd, ans: Answer)
    ensures HandleFcntl(s, p, fd, cmd, ans).s.net ==
            if SetsFlag(s.net.fds, Fcntl(fd, cmd), fd) && !(fd in s.net.fds.netlinks)
            then s.net.(fds := s.net.fds.(nonblocking := s.net.fds.nonblocking + {fd})) else s.net
  {
    AnsweredNet(WithFds(s, s.net.fds.(nonblocking := s.net.fds.nonblocking + {fd})), p, Value(0), Success, ans);
    AnsweredNet(s, p, Value(0), Success, ans);
    AnsweredNet(s, p, Value(-1), Failure, ans);
    AnsweredNet(s, p, Kernel, Success, ans);
  }

  lemma OpeningTables(s: State, p: Pid, c: Call, ans: Answer)
    requires TablesOk(s.net.fds) && (c.Open? || c.Accept? || c.Socket? || c.Close?)
    ensures TableStep(s.net.fds, Handle(s, p, c, ans).s.net.fds, c)
  {
    match c
    case Open(random) => OpenTables(s, p, random, ans);
    case Accept(fd) => AcceptTables(s, p, fd, ans);
    case Socket(_, _, _) => SocketTables(s, p, c, ans);
    case Close(fd) => CloseTables(s, p, fd, ans);
  }

  lemma MarkingTables(s: State, p: Pid, c: Call, ans: Answer)
    requires TablesOk(s.net.fds) && (c.Fcntl? || c.Listen? || c.Connect?)
    ensures TableStep(s.net.fds, Handle(s, p, c, ans).s.net.fds, c)
  {
    match c
    case Fcntl(fd, cmd) => FcntlFds(s, p, fd, cmd, ans);
    case Listen(fd) => ListenTables(s, p, fd, ans);
    case Connect(fd, inet) => ConnectFds(s, p, fd, inet, ans);
  }

  lemma CallTables(s: State, p: Pid, c: Call, ans: Answer)
    requires TablesOk(s.net.fds)
    ensures TableStep(s.net.fds, Handle(s, p, c, ans).s.net.fds, c)
  {
    if c.Open? || c.Accept? || c.Socket? || c.Close? {
      OpeningTables(s, p, c, ans);
    } else if c.Fcntl? || c.Listen? || c.Connect? {
      MarkingTables(s, p, c, ans);
    } else {
      TablesUntouched(s, p, c, ans);
    }
  }

  lemma DataFds(s: State, sid: SockId, rx: nat, ans: Answer)
    requires sid < |s.net.socks|
    ensures OnData(s, sid, rx, ans).net.fds == s.net.fds
  {
    var k, s1 := s.net.socks[sid], SetSock(s, sid, s.net.socks[sid].(rx := rx));
    if k.recv.SelectRecv? && StillWaits(s.ops, k.recv.op) {
      FinishFrame(s1, k.recv.op, s.pid, OneRead(s.ops[k.recv.op], k.recv.fd), ans.stray);
    } else if k.recv.ReadWait? {
      AnsweredNet(s1, k.recv.pid, Value(ans.ret), Manual, ans);
    }
  }

  lemma SpaceFds(s: State, sid: SockId, tx: nat, ans: Answer)
    requires sid < |s.net.socks|
    ensures OnSpace(s, sid, tx, ans).net.fds == s.net.fds
  {
    var k, s1 := s.net.socks[sid], SetSock(s, sid, s.net.socks[sid].(tx := tx));
    if k.send.SelectSend? && StillWaits(s.ops, k.send.op) {
      FinishFrame(s1, k.send.op, s.ops[k.send.op].pid, OneWrite(s.ops[k.send.op], k.send.fd), ans.stray);
    }
  }

  /** A connection is remembered for a listener or gets the least free descriptor. */
  lemma ConnectionFds(s: State, sid: SockId, ans: Answer)
    requires sid < |s.net.socks|
    ensures var t, u := s.net.fds, OnConnection(s, sid, ans).net.fds;
            u == t.(fakeAccepted := u.fakeAccepted) ||
            (t.available != {} && u == WithAccepted(t, Least(t.available), |s.net.socks|))
  {
    var a := s.net.socks[sid].accept;
    if a.SelectAccept? && StillWaits(s.ops, a.op) && Known(s.net, a.fd) {
      AcceptNet(s, sid, ans);
    } else if a.AcceptWait? && s.net.fds.available != {} {
      AcceptWaitNet(s, sid, ans);
    }
  }

  /** The call a step dispatches; an event without one does to the tables what exit does: nothing. */
  function CallOf(s: State, step: Step): Call {
    if step.act.Fire? && CaughtBy(s, step.act.e, step.act.next).Some? then CaughtBy(s, step.act.e, step.act.next).value
    else Exit
  }

  /** A connection attempt succeeds whose descriptor was closed meanwhile. */
  ghost predicate Strays(s: State, step: Step) {
    step.act.ConnectEnds? && step.act.ok && step.act.sid < |s.net.socks| &&
    var c := s.net.socks[step.act.sid].connect;
    c.ConnectWait? && c.fd !in s.net.fds.sockets
  }

  /** What any step does to the tables. */
  ghost predicate StepOnTables(s: State, step: Step) {
    var t, u, c := s.net.fds, Next(s, step).net.fds, CallOf(s, step);
    TablesOk(u) && (ConnectedOk(t) ==> (ConnectedOk(u) <==> !Strays(s, step))) &&
    forall f :: f in u.nonblocking <==> (f in t.nonblocking && c != Close(f)) || SetsFlag(t, c, f)
  }

  lemma ConnectionTables(s: State, sid: SockId, ans: Answer)
    requires sid < |s.net.socks| && TablesOk(s.net.fds)
    ensures TableStep(s.net.fds, OnConnection(s, sid, ans).net.fds, Exit)
  {
    ConnectionFds(s, sid, ans);
    if s.net.fds.available != {} {
      AcceptedTables(s.net.fds, |s.net.socks|, 0);
    }
  }

  lemma FireTables(s: State, e: EvId, next: Call, ans: Answer)
    requires TablesOk(s.net.fds)
    ensures StepOnTables(s, Step(Fire(e, next), ans))
  {
    if CaughtBy(s, e, next).Some? {
      var p, c := s.events[e].what.pid, CaughtBy(s, e, next).value;
      DispatchNet(s, e, next, ans);
      CallTables(Dispatched(s, e, p, next), p, c, ans);
      StatusNet(Handle(Dispatched(s, e, p, next), p, c, ans), p);
    } else if e in s.events {
      EventNet(s, e, next, ans);
    }
  }

  /**
   * Whatever happens, whoever does it: the tables stay as they should be, a descriptor becomes and stops being
   * nonblocking by fcntl and close alone, and only the late end of a connection attempt spoils `connected`.
   */
  lemma StepTables(s: State, step: Step)
    requires TablesOk(s.net.fds)
    ensures StepOnTables(s, step)
  {
    if step.act.Fire? {
      FireTables(s, step.act.e, step.act.next, step.ans);
    } else {
      CallbackTables(s, step);
    }
  }

  lemma CallbackTables(s: State, step: Step)
    requires TablesOk(s.net.fds) && !step.act.Fire?
    ensures StepOnTables(s, step)
  {
    match step.act
    case Data(at, sid, rx) => if sid < |s.net.socks| { DataFds(s.(now := at), sid, rx, step.ans); }
    case Space(at, sid, tx) => if sid < |s.net.socks| { SpaceFds(s.(now := at), sid, tx, step.ans); }
    case Connection(at, sid) => if sid < |s.net.socks| { ConnectionTables(s.(now := at), sid, step.ans); }
    case ConnectEnds(at, sid, ok) => if sid < |s.net.socks| { ConnectEndFds(s.(now := at), sid, ok, step.ans); }
  }

  lemma {:induction false} RunTables(s: State, steps: seq<Step>)
    requires TablesOk(s.net.fds)
    ensures TablesOk(RunAll(s, steps).net.fds)
    decreases steps
  {
    if steps != [] && !s.halted {
      StepTables(s, steps[0]);
      RunTables(Next(s, steps[0]), steps[1..]);
    }
  }

  lemma InitialTables(app: App, p: Pid)
    ensures TablesOk(Initial(app, p).net.fds)
  {
    assert Initial(app, p).net.fds.available == AllFds();
  }

  /** After any steps at all each descriptor of the range is free or open as one thing, and no other is. */
  lemma DescriptorsPartitioned(app: App, p: Pid, steps: seq<Step>, f: Fd)
    ensures var t := RunAll(Initial(app, p), steps).net.fds;
            Holders(t, f) == (if 100 <= f < 200 then 1 else 0) &&
            (f in t.listening ==> f in t.tcp) && (f in t.tcp || f in t.nonblocking ==> f in t.sockets)
  {
    InitialTables(app, p);
    RunTables(Initial(app, p), steps);
    PartitionCounts(RunAll(Initial(app, p), steps).net.fds, f);
  }

  /** In no state of the run a closed descriptor counts as connected. */
  ghost predicate AlwaysConnectedOk(s: State, steps: seq<Step>)
    decreases steps
  {
    ConnectedOk(s.net.fds) && (steps == [] || s.halted || AlwaysConnectedOk(Next(s, steps[0]), steps[1..]))
  }

  ghost predicate NeverStrays(s: State, steps: seq<Step>)
    decreases steps
  {
    steps == [] || s.halted || (!Strays(s, steps[0]) && NeverStrays(Next(s, steps[0]), steps[1..]))
  }

  /**
   * Connected descriptors are open sockets, over any run, exactly if no attempt succeeds after its descriptor was
   * closed.
   */
  lemma {:induction false} ConnectedExact(s: State, steps: seq<Step>)
    requires TablesOk(s.net.fds) && ConnectedOk(s.net.fds)
    ensures AlwaysConnectedOk(s, steps) <==> NeverStrays(s, steps)
    decreases steps
  {
    if steps != [] && !s.halted {
      StepTables(s, steps[0]);
      if !Strays(s, steps[0]) {
        ConnectedExact(Next(s, steps[0]), steps[1..]);
      }
    }
  }

  // ---- What fcntl is for --------------------------------------------------------------------------

  ghost predicate NeverCloses(s: State, steps: seq<Step>, f: Fd)
    decreases steps
  {
    steps == [] || s.halted || (CallOf(s, steps[0]) != Close(f) && NeverCloses(Next(s, steps[0]), steps[1..], f))
  }

  /** Some call of the run makes socket `f` nonblocking and no later one closes it. */
  ghost predicate MarkedLast(s: State, steps: seq<Step>, f: Fd)
    decreases steps
  {
    steps != [] && !s.halted &&
    (MarkedLast(Next(s, steps[0]), steps[1..], f) ||
     (SetsFlag(s.net.fds, CallOf(s, steps[0]), f) && NeverCloses(Next(s, steps[0]), steps[1..], f)))
  }

  /** Over any run: a descriptor is nonblocking exactly if it was made so, or was so, and has not been closed since. */
  lemma {:induction false} NonblockingByHistory(s: State, steps: seq<Step>, f: Fd)
    requires TablesOk(s.net.fds)
    ensures f in RunAll(s, steps).net.fds.nonblocking <==>
            MarkedLast(s, steps, f) || (f in s.net.fds.nonblocking && NeverCloses(s, steps, f))
    decreases steps
  {
    if steps != [] && !s.halted {
      StepTables(s, steps[0]);
      NonblockingByHistory(Next(s, steps[0]), steps[1..], f);
    }
  }

  /**
   * A random device takes no fcntl, a netlink socket any F_SETFL, a socket F_GETFL and F_SETFL; anything else stops
   * the simulator. The one request that is taken and refused is to make a socket blocking again.
   */
  lemma FcntlExact(s: State, p: Pid, fd: Fd, cmd: FcntlCmd, ans: Answer)
    requires Partition(s.net.fds) && p in s.tracees && s.tracees[p].stop == AtEntry(Fcntl(fd, cmd)) &&
             Emulated(s.net.fds, fd)
    ensures var r := HandleFcntl(s, p, fd, cmd, ans);
            (r.code == Error <==>
             fd in s.net.fds.random || cmd == OtherCmd || (fd in s.net.fds.netlinks && cmd == GetFlags)) &&
            (r.code == Failure <==> fd in s.net.fds.sockets && cmd == SetFlags(false)) &&
            r.code in {Success, Failure, Error} &&
            (r.code == Error ==> r.s == s) &&
            (r.code != Error ==>
             r.s.tracees == s.tracees[p := s.tracees[p].(stop := AtExit(Value(if r.code == Success then 0 else -1)))])
  {
  }

  /** Calls that wait if nothing is there, and what there must be. */
  ghost predicate Starved(n: Net, c: Call) {
    match c
    case Read(f, _) => Known(n, f) && f in n.fds.tcp && f !in n.fds.random && n.socks[n.fds.sockets[f]].rx == 0
    case RecvFrom(f, _) => Known(n, f) && n.socks[n.fds.sockets[f]].rx == 0
    case Write(f, _) => Known(n, f) && f in n.fds.connected && n.socks[n.fds.sockets[f]].tx == 0
    case Accept(f) => Known(n, f) && f in n.fds.listening && f !in n.fds.fakeAccepted
    case _ => false
  }

  /** Such a call is told to try again on a nonblocking descriptor; on any other its thread waits. */
  lemma StarvedExact(s: State, p: Pid, c: Call, ans: Answer)
    requires p in s.tracees && s.tracees[p].stop == AtEntry(c) && Starved(s.net, c)
    ensures var r := Handle(s, p, c, ans);
            p in r.s.tracees && r.s.events == s.events &&
            if c.fd in s.net.fds.nonblocking
            then r.s.tracees[p].stop == AtExit(Value(-11)) && r.code in {Success, Failure}
            else r.s.tracees[p].stop == AtEntry(c) && r.code == Delayed && c.fd in WaitedFd(r.s.tracees[p].cont)
  {
  }

  function WaitedFd(c: Cont): set<Fd> {
    if c.InRecv? || c.InWrite? || c.InAccept? then {c.fd} else {}
  }
}
