/**
 * A descriptor that select reports as readable stays so until a call consumes what is there, and that call does not
 * block.
 */
module Readiness {
  import opened Base
  import opened NetlinkWire
  import opened Sim
  import opened SimInv
  import opened SimHandlers
  import opened SimCallbacks
  import opened SimServing
  import opened SimRun
  import opened SimSelect
  import opened SimFrame
  import opened SoloRun
  import opened Resumption
  import opened SelectWakeups
  import NL = Netlink

  // ---- What a call finds --------------------------------------------------------------------

  ghost predicate ReadyToRead(n: Net, f: Fd) {
    Known(n, f) && n.socks[n.fds.sockets[f]].rx > 0 && !n.socks[n.fds.sockets[f]].recv.ReadWait?
  }

  ghost predicate ReadyToAccept(n: Net, f: Fd) {
    Known(n, f) && f in n.fds.listening && f in n.fds.fakeAccepted
  }

  ghost predicate ReadyToReceive(n: Net, f: Fd) {
    KnownNl(n, f) && n.nls[n.fds.netlinks[f]].replies != []
  }

  /** The calls that take something from descriptor `f`, or close it. */
  predicate Consumes(c: Call, f: Fd) {
    match c
    case Read(fd, _) => fd == f
    case RecvFrom(fd, _) => fd == f
    case RecvMsg(fd, _) => fd == f
    case Accept(fd) => fd == f
    case Close(fd) => fd == f
    case _ => false
  }

  /** Whatever was ready on `f` still is. */
  ghost predicate StaysReady(n: Net, m: Net, f: Fd) {
    (ReadyToRead(n, f) ==> ReadyToRead(m, f)) &&
    (ReadyToAccept(n, f) ==> ReadyToAccept(m, f)) &&
    (ReadyToReceive(n, f) ==> ReadyToReceive(m, f))
  }

  // ---- Calls ----------------------------------------------------------------------------------

  lemma AnsweredNet(s: State, p: Pid, result: Result, code: Code, ans: Answer)
    ensures Answered(s, p, result, code, ans).s.net == s.net
    ensures Resume(Fake(s, p, result, ans.stray), p).net == s.net
  {
  }

  /** Replacing a socket; of the one behind `f` its data must not go. */
  lemma SockStays(n: Net, sid: SockId, k: Sock, f: Fd)
    requires FdOk(n) && sid < |n.socks|
    requires IsFdOf(n.fds.sockets, f, sid) && ReadyToRead(n, f) ==> k.rx > 0 && !k.recv.ReadWait?
    ensures StaysReady(n, n.(socks := n.socks[sid := k]), f)
  {
  }

  /** Changing the tables and adding sockets, `f` still standing for what it stood for. */
  lemma TablesStay(n: Net, m: Net, f: Fd)
    requires FdOk(n) && n.socks <= m.socks && n.nls <= m.nls
    requires f in n.fds.sockets ==> f in m.fds.sockets && m.fds.sockets[f] == n.fds.sockets[f]
    requires f in n.fds.netlinks ==> f in m.fds.netlinks && m.fds.netlinks[f] == n.fds.netlinks[f]
    requires f in n.fds.listening ==> f in m.fds.listening
    requires f in n.fds.fakeAccepted ==> f in m.fds.fakeAccepted
    ensures StaysReady(n, m, f)
  {
  }

  lemma ReceiveStays(s: State, p: Pid, fd: Fd, again: Code, ans: Answer, f: Fd)
    requires FdOk(s.net) && Known(s.net, fd) && fd != f
    ensures StaysReady(s.net, HandleReceive(s, p, fd, again, ans).s.net, f)
  {
    var sid := s.net.fds.sockets[fd];
    var k := s.net.socks[sid];
    AnsweredNet(s, p, Value(ans.ret), Manual, ans);
    AnsweredNet(s, p, Value(-EWOULDBLOCK), again, ans);
    SockStays(s.net, sid, k.(rx := ans.rxAfter, recv := NoRecv), f);
    SockStays(s.net, sid, k.(recv := ReadWait(p, fd)), f);
    ReceiveNet(s, p, fd, again, ans);
  }

  /** What receiving can do to the network. */
  lemma ReceiveNet(s: State, p: Pid, fd: Fd, again: Code, ans: Answer)
    requires Known(s.net, fd)
    ensures var sid := s.net.fds.sockets[fd];
            var k, m := s.net.socks[sid], HandleReceive(s, p, fd, again, ans).s.net;
            m == s.net || m == s.net.(socks := s.net.socks[sid := k.(recv := ReadWait(p, fd))]) ||
            m == s.net.(socks := s.net.socks[sid := k.(rx := ans.rxAfter, recv := NoRecv)])
  {
    AnsweredNet(s, p, Value(ans.ret), Manual, ans);
    AnsweredNet(s, p, Value(-EWOULDBLOCK), again, ans);
  }

  lemma ReadStays(s: State, p: Pid, fd: Fd, count: nat, ans: Answer, f: Fd)
    requires FdOk(s.net) && fd != f
    ensures StaysReady(s.net, HandleRead(s, p, fd, count, ans).s.net, f)
    ensures StaysReady(s.net, HandleRecvFrom(s, p, fd, ans).s.net, f)
  {
    if Known(s.net, fd) {
      ReceiveStays(s, p, fd, Failure, ans, f);
      ReceiveStays(s, p, fd, Success, ans, f);
    }
  }

  lemma WriteStays(s: State, p: Pid, fd: Fd, count: nat, ans: Answer, f: Fd)
    requires FdOk(s.net)
    ensures StaysReady(s.net, HandleWrite(s, p, fd, count, ans).s.net, f)
  {
    WriteNet(s, p, fd, count, ans);
    if Known(s.net, fd) {
      var sid := s.net.fds.sockets[fd];
      var k := s.net.socks[sid];
      SockStays(s.net, sid, k.(send := WriteWait(p)), f);
      SockStays(s.net, sid, k.(tx := ans.txAfter), f);
    }
  }

  lemma WriteNet(s: State, p: Pid, fd: Fd, count: nat, ans: Answer)
    ensures var m := HandleWrite(s, p, fd, count, ans).s.net;
            m == s.net || (Known(s.net, fd) && var sid := s.net.fds.sockets[fd]; var k := s.net.socks[sid];
                           (m == s.net.(socks := s.net.socks[sid := k.(send := WriteWait(p))]) ||
                            m == s.net.(socks := s.net.socks[sid := k.(tx := ans.txAfter)])))
  {
    AnsweredNet(s, p, Kernel, Success, ans);
    AnsweredNet(s, p, Value(-EWOULDBLOCK), Failure, ans);
    AnsweredNet(s, p, Value(count), Success, ans);
    if Known(s.net, fd) {
      var sid := s.net.fds.sockets[fd];
      AnsweredNet(SetSock(s, sid, s.net.socks[sid].(tx := ans.txAfter)), p, Value(ans.ret),
                  if ans.ret > 0 then Success else Error, ans);
    }
  }

  lemma OpenStays(s: State, p: Pid, random: bool, ans: Answer, f: Fd)
    requires FdOk(s.net)
    ensures StaysReady(s.net, HandleOpen(s, p, random, ans).s.net, f)
  {
  }

  lemma CloseStays(s: State, p: Pid, fd: Fd, ans: Answer, f: Fd)
    requires FdOk(s.net) && fd != f
    ensures StaysReady(s.net, HandleClose(s, p, fd, ans).s.net, f)
  {
    var t := s.net.fds;
    if fd in t.sockets {
      TablesStay(s.net, s.net.(fds := SocketClosed(t, fd)), f);
      AnsweredNet(CloseSocket(s, fd), p, Value(0), Success, ans);
    } else {
      OtherCloseStays(s, p, fd, ans, f);
    }
  }

  lemma OtherCloseStays(s: State, p: Pid, fd: Fd, ans: Answer, f: Fd)
    requires FdOk(s.net) && fd != f && fd !in s.net.fds.sockets
    ensures StaysReady(s.net, HandleClose(s, p, fd, ans).s.net, f)
  {
    var t := s.net.fds;
    var u := if fd in t.netlinks then NetlinkClosed(t, fd) else RandomClosed(t, fd);
    TablesStay(s.net, s.net.(fds := u), f);
    AnsweredNet(s, p, Kernel, Success, ans);
    AnsweredNet(WithFds(s, u), p, Value(0), Success, ans);
  }

  lemma FcntlStays(s: State, p: Pid, fd: Fd, cmd: FcntlCmd, ans: Answer, f: Fd)
    requires FdOk(s.net)
    ensures StaysReady(s.net, HandleFcntl(s, p, fd, cmd, ans).s.net, f)
  {
    TablesStay(s.net, s.net.(fds := s.net.fds.(nonblocking := s.net.fds.nonblocking + {fd})), f);
    FcntlNet(s, p, fd, cmd, ans);
  }

  lemma FcntlNet(s: State, p: Pid, fd: Fd, cmd: FcntlCmd, ans: Answer)
    ensures var t := s.net.fds.(nonblocking := s.net.fds.nonblocking + {fd});
            HandleFcntl(s, p, fd, cmd, ans).s.net in {s.net, s.net.(fds := t)}
  {
    var t := s.net.fds.(nonblocking := s.net.fds.nonblocking + {fd});
    AnsweredNet(WithFds(s, t), p, Value(0), Success, ans);
    AnsweredNet(s, p, Value(0), Success, ans);
    AnsweredNet(s, p, Value(-1), Failure, ans);
    AnsweredNet(s, p, Kernel, Success, ans);
  }

  lemma SocketStays(s: State, p: Pid, family: Family, kind: SockType, route: bool, ans: Answer, f: Fd)
    requires FdOk(s.net)
    ensures StaysReady(s.net, HandleSocket(s, p, family, kind, route, ans).s.net, f)
  {
    if s.net.fds.available != {} {
      TablesStay(s.net, WithSocket(s.net, kind, ans.txAfter), f);
      TablesStay(s.net, WithNetlink(s.net, p), f);
    }
    SocketNet(s, p, family, kind, route, ans);
  }

  lemma SocketNet(s: State, p: Pid, family: Family, kind: SockType, route: bool, ans: Answer)
    ensures var m := HandleSocket(s, p, family, kind, route, ans).s.net;
            m == s.net || (s.net.fds.available != {} &&
                           (m == WithSocket(s.net, kind, ans.txAfter) || m == WithNetlink(s.net, p)))
  {
    AnsweredNet(s, p, Value(-EPROTONOSUPPORT), Error, ans);
    AnsweredNet(s, p, Value(-EPROTONOSUPPORT), Failure, ans);
    AnsweredNet(s, p, Value(-EPROTOTYPE), Failure, ans);
    AnsweredNet(s, p, Value(-EAFNOSUPPORT), Failure, ans);
    if s.net.fds.available != {} {
      var fd := Least(s.net.fds.available);
      AnsweredNet(s.(net := WithSocket(s.net, kind, ans.txAfter)), p, Value(fd), Success, ans);
      AnsweredNet(s.(net := WithNetlink(s.net, p)), p, Value(fd), Success, ans);
    }
  }

  lemma ListenStays(s: State, p: Pid, fd: Fd, ans: Answer, f: Fd)
    requires FdOk(s.net)
    ensures StaysReady(s.net, HandleListen(s, p, fd, ans).s.net, f)
  {
    if Known(s.net, fd) && fd in s.net.fds.tcp {
      var sid, s1 := s.net.fds.sockets[fd], WithFds(s, s.net.fds.(listening := s.net.fds.listening + {fd}));
      var k := Listening(s.net.socks[sid], fd);
      TablesStay(s.net, s1.net, f);
      ListenFdOk(s.net, fd);
      SockStays(s1.net, sid, k, f);
      AnsweredNet(s1, p, Value(ans.ret), Failure, ans);
      AnsweredNet(SetSock(s1, sid, k), p, Value(0), Success, ans);
    }
    AnsweredNet(s, p, Value(-EOPNOTSUPP), Failure, ans);
  }

  lemma ListenFdOk(n: Net, fd: Fd)
    requires FdOk(n) && fd in n.fds.tcp
    ensures FdOk(n.(fds := n.fds.(listening := n.fds.listening + {fd})))
  {
  }

  lemma ConnectEndStays(s: State, sid: SockId, ok: bool, ans: Answer, f: Fd)
    requires FdOk(s.net) && sid < |s.net.socks|
    ensures StaysReady(s.net, OnConnect(s, sid, ok, ans).net, f)
  {
    var k := s.net.socks[sid];
    SockStays(s.net, sid, k.(connecting := false), f);
    var s1 := SetSock(s, sid, k.(connecting := false));
    if k.connect.ConnectWait? {
      var s2 := if ok then WithFds(s1, s.net.fds.(connected := s.net.fds.connected + {k.connect.fd})) else s1;
      AnsweredNet(s2, k.connect.pid, Value(if ok then 0 else -1), Manual, ans);
    }
  }

  lemma ConnectStays(s: State, p: Pid, fd: Fd, inet: bool, ans: Answer, f: Fd)
    requires FdOk(s.net)
    ensures StaysReady(s.net, HandleConnect(s, p, fd, inet, ans).s.net, f)
  {
    if Known(s.net, fd) {
      var sid := s.net.fds.sockets[fd];
      var k := Attempted(s.net.socks[sid], p, fd, ans);
      SockStays(s.net, sid, k, f);
      var s1 := SetCont(SetSock(s, sid, k), p, InConnect(fd));
      if ans.connected.Some? {
        ConnectEndStays(s1, sid, ans.connected.value, ans, f);
      }
    }
    AnsweredNet(s, p, Value(-1), Failure, ans);
  }

  lemma AcceptStays(s: State, p: Pid, fd: Fd, ans: Answer, f: Fd)
    requires FdOk(s.net) && fd != f
    ensures StaysReady(s.net, HandleAccept(s, p, fd, ans).s.net, f)
  {
    var t := s.net.fds;
    if fd in t.fakeAccepted && t.available != {} {
      var new_fd := Least(t.available);
      var s1 := WithFds(s, WithAccepted(t.(fakeAccepted := t.fakeAccepted - {fd}), new_fd, t.fakeAccepted[fd]));
      TablesStay(s.net, s1.net, f);
      AnsweredNet(s1, p, Value(new_fd), Success, ans);
    } else if Known(s.net, fd) {
      SockStays(s.net, t.sockets[fd], s.net.socks[t.sockets[fd]].(accept := AcceptWait(p, fd)), f);
    }
    AnsweredNet(s, p, Value(-EWOULDBLOCK), Failure, ans);
  }

  lemma RecvMsgStays(s: State, fd: Fd, iovLen: nat, ans: Answer, f: Fd)
    requires FdOk(s.net) && fd != f
    ensures StaysReady(s.net, HandleRecvMsg(s, fd, iovLen, ans).s.net, f)
  {
    RecvMsgNet(s, fd, iovLen, ans);
    if KnownNl(s.net, fd) && s.net.nls[s.net.fds.netlinks[fd]].replies != [] {
      var i := s.net.fds.netlinks[fd];
      OtherNlStays(s.net, i, s.net.nls[i].(replies := s.net.nls[i].replies[1..]), f);
    }
  }

  lemma OtherNlStays(n: Net, i: NlId, q: Nl, f: Fd)
    requires FdOk(n) && i < |n.nls| && !IsFdOf(n.fds.netlinks, f, i)
    ensures StaysReady(n, n.(nls := n.nls[i := q]), f)
  {
  }

  function FirstReplyTaken(n: Net, i: NlId): Net
    requires i < |n.nls| && n.nls[i].replies != []
  {
    n.(nls := n.nls[i := n.nls[i].(replies := n.nls[i].replies[1..])])
  }

  lemma RecvMsgNet(s: State, fd: Fd, iovLen: nat, ans: Answer)
    ensures HandleRecvMsg(s, fd, iovLen, ans).s.net == s.net ||
            (KnownNl(s.net, fd) && s.net.nls[s.net.fds.netlinks[fd]].replies != [] &&
             HandleRecvMsg(s, fd, iovLen, ans).s.net == FirstReplyTaken(s.net, s.net.fds.netlinks[fd]))
  {
    if KnownNl(s.net, fd) {
      var n := s.net.fds.netlinks[fd];
      var q := s.net.nls[n];
      AnsweredNet(s, q.owner, Value(-1), Failure, ans);
      if q.replies != [] {
        var result := Message(NL.ReplyLen(q.replies[0]), q.replies[0]);
        AnsweredNet(SetNl(s, n, q.(replies := q.replies[1..])), q.owner, result, Success, ans);
      }
    }
  }

  lemma SelectStays(s: State, p: Pid, rset: Option<set<Fd>>, wset: Option<set<Fd>>, eset: Option<set<Fd>>,
                    timeout: Option<Timeval>, ans: Answer, f: Fd)
    requires FdOk(s.net)
    ensures StaysReady(s.net, HandleSelect(s, p, rset, wset, eset, timeout, ans).s.net, f)
  {
    var r, o := HandleSelect(s, p, rset, wset, eset, timeout, ans), NewSelect(s, p, rset, wset, timeout);
    if r.code == Delayed {
      assert r.s.net == WatchedNet(s.net, |s.ops|, o.watchR, o.watchW);
      if f in s.net.fds.sockets {
        WatchedSockOf(s.net, f, |s.ops|, o.watchR, o.watchW);
      }
      if f in s.net.fds.netlinks {
        WatchedNlOf(s.net, f, |s.ops|, o.watchR);
      }
    }
  }

  /** More replies and another callback on one netlink socket. */
  lemma RepliesStay(n: Net, i: NlId, q: Nl, f: Fd)
    requires FdOk(n) && i < |n.nls| && (n.nls[i].replies != [] ==> q.replies != [])
    ensures StaysReady(n, n.(nls := n.nls[i := q]), f)
  {
  }

  lemma SendStays(s: State, fd: Fd, walked: Outcome<seq<Effect>>, returned: int, ans: Answer, f: Fd)
    requires FdOk(s.net) && KnownNl(s.net, fd)
    ensures StaysReady(s.net, NetlinkSend(s, fd, walked, returned, ans).s.net, f)
  {
    if walked.Fine? {
      var n, es := s.net.fds.netlinks[fd], walked.value;
      var r, s1 := s.net.nls[n].recv, Sent(s, n, es, s.net.nls[n].recv);
      RepliesStay(s.net, n, s1.net.nls[n], f);
      RepliesStay(s.net, n, s1.net.nls[n].(recv := NoNl), f);
      if Notified(s, fd, walked).Some? {
        var g := FinishSelect(s1, r.op, s.ops[r.op].pid, OneRead(s.ops[r.op], r.fd), ans.stray);
        FinishFrame(s1, r.op, s.ops[r.op].pid, OneRead(s.ops[r.op], r.fd), ans.stray);
        AnsweredNet(SetNl(g, n, g.net.nls[n].(recv := NoNl)), s.net.nls[n].owner, Value(returned), Success, ans);
      } else {
        AnsweredNet(s1, s.net.nls[n].owner, Value(returned), Success, ans);
      }
    }
  }

  lemma CallStays(s: State, p: Pid, c: Call, ans: Answer, f: Fd)
    requires FdOk(s.net) && !Consumes(c, f)
    ensures StaysReady(s.net, Handle(s, p, c, ans).s.net, f)
  {
    if c.Read? || c.RecvFrom? || c.Write? || c.Open? || c.Close? || c.Fcntl? {
      FileCallStays(s, p, c, ans, f);
    } else if c.Socket? || c.Listen? || c.Connect? || c.Accept? || c.Select? {
      SocketCallStays(s, p, c, ans, f);
    } else if c.SendTo? || c.SendMsg? {
      RequestStays(s, p, c, ans, f);
    } else if c.RecvMsg? {
      RecvMsgStays(s, c.fd, c.iovLen, ans, f);
    } else {
      OtherNet(s, p, c, ans);
    }
  }

  lemma FileCallStays(s: State, p: Pid, c: Call, ans: Answer, f: Fd)
    requires FdOk(s.net) && !Consumes(c, f) && (c.Read? || c.RecvFrom? || c.Write? || c.Open? || c.Close? || c.Fcntl?)
    ensures StaysReady(s.net, Handle(s, p, c, ans).s.net, f)
  {
    if c.Read? {
      ReadStays(s, p, c.fd, c.count, ans, f);
    } else if c.RecvFrom? {
      ReadStays(s, p, c.fd, 0, ans, f);
    } else if c.Write? {
      WriteStays(s, p, c.fd, c.count, ans, f);
    } else if c.Open? {
      OpenStays(s, p, c.random, ans, f);
    } else if c.Close? {
      CloseStays(s, p, c.fd, ans, f);
    } else {
      FcntlStays(s, p, c.fd, c.cmd, ans, f);
    }
  }

  lemma SocketCallStays(s: State, p: Pid, c: Call, ans: Answer, f: Fd)
    requires FdOk(s.net) && !Consumes(c, f) && (c.Socket? || c.Listen? || c.Connect? || c.Accept? || c.Select?)
    ensures StaysReady(s.net, Handle(s, p, c, ans).s.net, f)
  {
    match c
    case Socket(family, kind, route) => SocketStays(s, p, family, kind, route, ans, f);
    case Listen(fd) => ListenStays(s, p, fd, ans, f);
    case Connect(fd, inet) => ConnectStays(s, p, fd, inet, ans, f);
    case Accept(fd) => AcceptStays(s, p, fd, ans, f);
    case Select(r, w, e, t) => SelectStays(s, p, r, w, e, t, ans, f);
  }

  lemma RequestStays(s: State, p: Pid, c: Call, ans: Answer, f: Fd)
    requires FdOk(s.net) && (c.SendTo? || c.SendMsg?)
    ensures StaysReady(s.net, Handle(s, p, c, ans).s.net, f)
  {
    match c
    case SendTo(fd, buf, flags, _) =>
      AnsweredNet(s, p, Value(ans.ret), Success, ans);
      if RequestOf(s, c).Some? {
        SendStays(s, fd, WalkMsgs(buf, s.app.devices), LeftoverValue(buf), ans, f);
      }
    case SendMsg(fd, iov) =>
      if RequestOf(s, c).Some? {
        SendStays(s, fd, WalkBuffers(iov, s.app.devices), NL.TotalLen(iov), ans, f);
      }
  }

  lemma OtherNet(s: State, p: Pid, c: Call, ans: Answer)
    requires c.PassThrough? || c.Constant? || c.NanoSleep? || c.GetTimeOfDay? || c.ClockGetTime? || c.ClockGetRes? ||
             c.Clone? || c.Exit? || c.ExitGroup? || c.Unsupported?
    ensures Handle(s, p, c, ans).s.net == s.net
  {
  }

  // ---- Steps ------------------------------------------------------------------------------------

  lemma DataStays(s: State, sid: SockId, rx: nat, ans: Answer, f: Fd)
    requires FdOk(s.net) && sid < |s.net.socks| && rx > 0
    ensures StaysReady(s.net, OnData(s, sid, rx, ans).net, f)
  {
    var k := s.net.socks[sid];
    var s1 := SetSock(s, sid, k.(rx := rx));
    SockStays(s.net, sid, k.(rx := rx), f);
    SockStays(s.net, sid, k.(rx := rx, recv := NoRecv), f);
    if k.recv.SelectRecv? && StillWaits(s.ops, k.recv.op) {
      FinishFrame(s1, k.recv.op, s.pid, OneRead(s.ops[k.recv.op], k.recv.fd), ans.stray);
    } else if k.recv.ReadWait? {
      SockStays(s.net, sid, k.(rx := ans.rxAfter, recv := NoRecv), f);
      AnsweredNet(s1, k.recv.pid, Value(ans.ret), Manual, ans);
    }
  }

  lemma SpaceStays(s: State, sid: SockId, tx: nat, ans: Answer, f: Fd)
    requires FdOk(s.net) && sid < |s.net.socks|
    ensures StaysReady(s.net, OnSpace(s, sid, tx, ans).net, f)
  {
    var k := s.net.socks[sid];
    SockStays(s.net, sid, k.(tx := tx), f);
    SockStays(s.net, sid, k.(tx := tx, send := NoSend), f);
    if k.send.SelectSend? && StillWaits(s.ops, k.send.op) {
      FinishFrame(SetSock(s, sid, k.(tx := tx)), k.send.op, s.ops[k.send.op].pid, OneWrite(s.ops[k.send.op], k.send.fd),
                  ans.stray);
    }
  }

  lemma ConnectionStays(s: State, sid: SockId, ans: Answer, f: Fd)
    requires FdOk(s.net) && sid < |s.net.socks|
    ensures StaysReady(s.net, OnConnection(s, sid, ans).net, f)
  {
    var a, n := s.net.socks[sid].accept, s.net;
    var m := n.(socks := n.socks + [FRESH_SOCK]);
    TablesStay(n, m, f);
    match a
    case NoAccept =>
    case DefaultAccept(fd) => TablesStay(n, m.(fds := n.fds.(fakeAccepted := n.fds.fakeAccepted[fd := |n.socks|])), f);
    case SelectAccept(op, fd) =>
      if StillWaits(s.ops, op) && Known(n, fd) {
        PendStays(n, fd, f);
        AcceptNet(s, sid, ans);
      }
    case AcceptWait(p, fd) =>
      if n.fds.available != {} {
        var new_fd := Least(n.fds.available);
        TablesStay(n, AcceptedNet(n, new_fd), f);
        AnsweredNet(s.(net := AcceptedNet(n, new_fd)), s.pid, Value(new_fd), Manual, ans);
        AcceptWaitNet(s, sid, ans);
      }
  }

  lemma PendStays(n: Net, fd: Fd, f: Fd)
    requires FdOk(n) && Known(n, fd)
    ensures StaysReady(n, PendNet(n, fd, NoAccept), f)
  {
  }

  lemma AcceptNet(s: State, sid: SockId, ans: Answer)
    requires sid < |s.net.socks| && s.net.socks[sid].accept.SelectAccept?
    requires StillWaits(s.ops, s.net.socks[sid].accept.op) && Known(s.net, s.net.socks[sid].accept.fd)
    ensures OnConnection(s, sid, ans).net == PendNet(s.net, s.net.socks[sid].accept.fd, NoAccept)
  {
    var a := s.net.socks[sid].accept;
    FinishNet(s, PendNet(s.net, a.fd, NoAccept), a.op, s.ops[a.op].pid, OneRead(s.ops[a.op], a.fd), ans.stray);
  }

  lemma AcceptWaitNet(s: State, sid: SockId, ans: Answer)
    requires sid < |s.net.socks| && s.net.socks[sid].accept.AcceptWait? && s.net.fds.available != {}
    ensures OnConnection(s, sid, ans).net == AcceptedNet(s.net, Least(s.net.fds.available))
  {
  }

  /** The call of a step consumes nothing of `f`. */
  predicate Spares(s: State, step: Step, f: Fd) {
    match step.act
    case Fire(e, next) => var c := CaughtBy(s, e, next); c.Some? ==> !Consumes(c.value, f)
    case _ => true
  }

  lemma StepStays(s: State, step: Step, f: Fd)
    requires FdOk(s.net) && Enabled(s, step) && Spares(s, step, f)
    ensures StaysReady(s.net, Next(s, step).net, f)
  {
    match step.act
    case Fire(e, next) =>
      var c := CaughtBy(s, e, next);
      if c.Some? {
        var p := s.events[e].what.pid;
        var d := Dispatched(s, e, p, next);
        CallStays(d, p, c.value, step.ans, f);
        StatusNet(Handle(d, p, c.value, step.ans), p);
        DispatchNet(s, e, next, step.ans);
      } else {
        EventNet(s, e, next, step.ans);
      }
    case Data(at, sid, rx) => DataStays(s.(now := at), sid, rx, step.ans, f);
    case Space(at, sid, tx) => SpaceStays(s.(now := at), sid, tx, step.ans, f);
    case Connection(at, sid) => ConnectionStays(s.(now := at), sid, step.ans, f);
    case ConnectEnds(at, sid, ok) => ConnectEndStays(s.(now := at), sid, ok, step.ans, f);
  }

  lemma StatusNet(r: Res, p: Pid)
    ensures ProcessStatusCode(r.s, r.code, p).net == r.s.net
  {
  }

  lemma DispatchNet(s: State, e: EvId, next: Call, ans: Answer)
    requires CaughtBy(s, e, next).Some?
    ensures var p := s.events[e].what.pid;
            var r := Handle(Dispatched(s, e, p, next), p, Caught(s, p, next), ans);
            Next(s, Step(Fire(e, next), ans)) == ProcessStatusCode(r.s, r.code, p) &&
            Dispatched(s, e, p, next).net == s.net
  {
  }

  lemma EventNet(s: State, e: EvId, next: Call, ans: Answer)
    requires e in s.events && CaughtBy(s, e, next).None?
    ensures Next(s, Step(Fire(e, next), ans)).net == s.net
  {
    if s.events[e].what.SelectTimeout? && StillWaits(s.ops, s.events[e].what.op) {
      var op := s.events[e].what.op;
      FinishFrame(s.(now := s.events[e].at, events := s.events - {e}), op, s.ops[op].pid, SelectTimedOut, ans.stray);
    }
  }

  // ---- Runs ---------------------------------------------------------------------------------------

  ghost predicate RunSpares(s: State, steps: seq<Step>, f: Fd)
    decreases steps
  {
    steps == [] || s.halted || (Spares(s, steps[0], f) && RunSpares(Next(s, steps[0]), steps[1..], f))
  }

  lemma {:induction false} RunStays(s: State, steps: seq<Step>, f: Fd)
    requires Inv(s) && Sound(s, steps) && RunSpares(s, steps, f) && !RunAll(s, steps).halted
    ensures StaysReady(s.net, RunAll(s, steps).net, f)
    decreases steps
  {
    if steps != [] {
      StepStays(s, steps[0], f);
      StepKeeps(s, steps[0]);
      RunStays(Next(s, steps[0]), steps[1..], f);
    }
  }

  // ---- Select's promise -----------------------------------------------------------------------------

  /** A connection that outlived its listener: close does not forget it. */
  ghost predicate StalePending(n: Net, f: Fd) {
    Known(n, f) && f in n.fds.fakeAccepted && f !in n.fds.listening
  }

  /** A call that asks for what is there. */
  ghost predicate Suits(n: Net, f: Fd, c: Call) {
    match c
    case Read(fd, _) => fd == f && ReadyToRead(n, f) && f in n.fds.tcp && f !in n.fds.random
    case RecvFrom(fd, _) => fd == f && ReadyToRead(n, f)
    case Accept(fd) => fd == f && ReadyToAccept(n, f) && n.fds.available != {}
    case RecvMsg(fd, len) => fd == f && ReadyToReceive(n, f) && NL.ReplyLen(n.nls[n.fds.netlinks[f]].replies[0]) <= len
    case _ => false
  }

  /** What such a call is answered with: the bytes ns-3 gives, a new descriptor, or the oldest reply. */
  ghost function Harvest(n: Net, f: Fd, c: Call, ans: Answer): Result
    requires Suits(n, f, c)
  {
    match c
    case Accept(_) => Value(Least(n.fds.available))
    case RecvMsg(_, _) =>
      var head := n.nls[n.fds.netlinks[f]].replies[0];
      Message(NL.ReplyLen(head), head)
    case _ => Value(ans.ret)
  }

  /** What thread `p` is answered with when it stands at the entry of such a call: what is there, or nothing at all. */
  ghost predicate Served(s: State, p: Pid, f: Fd, c: Call, ans: Answer)
    requires Suits(s.net, f, c)
  {
    var r := Handle(s, p, c, ans);
    r.code in {Success, Manual} && p in r.s.tracees && r.s.tracees[p].stop == AtExit(Harvest(s.net, f, c, ans))
  }

  /**
   * It is answered at once, neither blocking nor told to try again, exactly if it is not the reply queue of another
   * thread; then the caller is left where it was.
   */
  lemma SuitedIsServed(s: State, p: Pid, f: Fd, c: Call, ans: Answer)
    requires Suits(s.net, f, c) && p in s.tracees && s.tracees[p].stop.AtEntry?
    ensures Served(s, p, f, c, ans) <==> OwnCall(s.net, p, c)
    ensures !OwnCall(s.net, p, c) ==>
            p in Handle(s, p, c, ans).s.tracees && Handle(s, p, c, ans).s.tracees[p] == s.tracees[p]
  {
    match c
    case Read(_, _) => ReceiveServed(s, p, f, Failure, ans);
    case RecvFrom(_, _) => ReceiveServed(s, p, f, Success, ans);
    case Accept(_) =>
    case RecvMsg(_, _) =>
  }

  /**
   * What is ready can be had: data by recvfrom, a reply by a recvmsg with room, a connection if a descriptor is free.
   */
  lemma ReadyHasCall(n: Net, f: Fd, len: nat)
    ensures ReadyToRead(n, f) ==> Suits(n, f, RecvFrom(f, len))
    ensures ReadyToAccept(n, f) ==> (Suits(n, f, Accept(f)) <==> n.fds.available != {})
    ensures ReadyToReceive(n, f) ==>
              (Suits(n, f, RecvMsg(f, len)) <==> len >= NL.ReplyLen(n.nls[n.fds.netlinks[f]].replies[0]))
  {
  }

  lemma ReceiveServed(s: State, p: Pid, f: Fd, again: Code, ans: Answer)
    requires ReadyToRead(s.net, f) && p in s.tracees && s.tracees[p].stop.AtEntry?
    ensures var r := HandleReceive(s, p, f, again, ans);
            r.code == Manual && p in r.s.tracees && r.s.tracees[p].stop == AtExit(Value(ans.ret))
  {
  }

  /** A select that does not wait reports exactly the requested emulated descriptors that are ready. */
  lemma ReportIsExact(n: Net, rset: Option<set<Fd>>, wset: Option<set<Fd>>, f: Fd)
    ensures var r := SelectAnswer(n, rset, wset);
            (r.rset.Some? && f in r.rset.value <==> rset.Some? && f in rset.value && Readable(n, f)) &&
            (r.wset.Some? && f in r.wset.value <==> wset.Some? && f in wset.value && Writable(n, f)) &&
            r.count == |Given(r.rset)| + |Given(r.wset)|
  {
    assert rset.None? ==> ReadyR(n, rset) == {};
    assert wset.None? ==> ReadyW(n, wset) == {};
  }

  /** The data that answer a select are there when its thread goes on. */
  lemma DataReportsReady(s: State, sid: SockId, rx: nat, ans: Answer)
    requires Inv(s) && sid < |s.net.socks| && rx > 0
    requires var r := s.net.socks[sid].recv; r.SelectRecv? && StillWaits(s.ops, r.op)
    ensures var f := s.net.socks[sid].recv.fd;
            IsFdOf(s.net.fds.sockets, f, sid) && ReadyToRead(OnData(s, sid, rx, ans).net, f)
  {
    assert SlotsOk(s.tracees, s.ops, s.net.fds, sid, s.net.socks[sid]);
    SelectDataForm(s, sid, rx, ans);
  }

  /** And so is the connection. */
  lemma ConnectionReportsReady(s: State, sid: SockId, ans: Answer)
    requires Inv(s) && ConnectionAllowed(s, sid)
    requires var a := s.net.socks[sid].accept; a.SelectAccept? && StillWaits(s.ops, a.op)
    ensures var f := s.net.socks[sid].accept.fd;
            IsFdOf(s.net.fds.sockets, f, sid) && ReadyToAccept(OnConnection(s, sid, ans).net, f)
  {
    var fd :| IsFdOf(s.net.fds.sockets, fd, sid) && fd in s.net.fds.listening;
    assert SlotsOk(s.tracees, s.ops, s.net.fds, sid, s.net.socks[sid]);
    SelectAcceptForm(s, sid, fd, ans);
  }

  /**
   * A dump answers the select that waits on the netlink socket. There is something on the queue then exactly if the
   * requests called for a reply; and the thread that is told so is never the one the queue answers, so its recvmsg
   * leaves it at the entry of the call.
   */
  lemma DumpReportsReady(s: State, p: Pid, fd: Fd, es: seq<Effect>, returned: int, ans: Answer, op: OpId, len: nat)
    requires Active(s, {p}) && KnownNl(s.net, fd) && s.net.nls[s.net.fds.netlinks[fd]].owner == p
    requires Notified(s, fd, Fine(es)) == Some(op)
    ensures var t := NetlinkSend(s, fd, Fine(es), returned, ans).s;
            op < |s.ops| && var q := s.ops[op].pid;
            q in t.tracees && t.tracees[q].stop == AtExit(OneRead(s.ops[op], fd)) &&
            (ReadyToReceive(t.net, fd) <==> RepliesOf(es) != []) && !OwnCall(t.net, q, RecvMsg(fd, len))
  {
    NetlinkAnswers(s, p, fd, Fine(es), returned, ans, op);
    NlWatcher(s, fd);
    var q := s.ops[op].pid;
    assert ContOk(s.events, s.ops, s.net, q, s.tracees[q]);
    assert WatchesR(s.net, op, fd);
    SentNet(s, fd, es, returned, ans);
  }

  /** What a request leaves on the socket. */
  lemma SentNet(s: State, fd: Fd, es: seq<Effect>, returned: int, ans: Answer)
    requires KnownNl(s.net, fd)
    ensures var t := NetlinkSend(s, fd, Fine(es), returned, ans).s;
            KnownNl(t.net, fd) && t.net.fds == s.net.fds &&
            var q, q' := s.net.nls[s.net.fds.netlinks[fd]], t.net.nls[s.net.fds.netlinks[fd]];
            q'.owner == q.owner && q'.replies == q.replies + RepliesOf(es)
  {
    var n, r := s.net.fds.netlinks[fd], s.net.nls[s.net.fds.netlinks[fd]].recv;
    var s1 := Sent(s, n, es, r);
    if Notified(s, fd, Fine(es)).Some? {
      var g := FinishSelect(s1, r.op, s.ops[r.op].pid, OneRead(s.ops[r.op], r.fd), ans.stray);
      FinishFrame(s1, r.op, s.ops[r.op].pid, OneRead(s.ops[r.op], r.fd), ans.stray);
      AnsweredNet(SetNl(g, n, g.net.nls[n].(recv := NoNl)), s.net.nls[n].owner, Value(returned), Success, ans);
    } else {
      AnsweredNet(s1, s.net.nls[n].owner, Value(returned), Success, ans);
    }
  }

  /** A walked request with a dump in it calls for no reply exactly if there are no devices and no route is changed. */
  lemma {:induction false} DumpsAreEmptyIff(buf: Bytes, devs: seq<Device>)
    requires WalkMsgs(buf, devs).Fine?
    ensures var es := WalkMsgs(buf, devs).value;
            Notifies(es) ==> (RepliesOf(es) == [] <==> devs == [] && forall i :: 0 <= i < |es| ==> es[i].Dump?)
    decreases |buf|
  {
    if MsgOk(buf) {
      var e, next := Process(buf, devs), Skip(buf, RoundUp4(U32(buf)));
      OneIsEmptyIff(buf, devs);
      DumpsAreEmptyIff(next, devs);
      var es, rest := WalkMsgs(buf, devs).value, WalkMsgs(next, devs).value;
      assert es == [e.value] + rest && es[1..] == rest && es[0] == e.value;
      assert forall i :: 0 <= i < |rest| ==> rest[i] == es[i + 1];
      assert (forall i :: 0 <= i < |es| ==> es[i].Dump?) <==>
             e.value.Dump? && forall i :: 0 <= i < |rest| ==> rest[i].Dump? by {
        assert forall i :: 0 < i < |es| ==> es[i] == rest[i - 1];
      }
      if !Notifies(rest) && rest != [] {
        SilentReplies(rest);
      }
    }
  }

  lemma OneIsEmptyIff(msg: Bytes, devs: seq<Device>)
    requires MsgOk(msg) && Process(msg, devs).Fine?
    ensures ReplyOf(Process(msg, devs).value) == [] <==> devs == [] && Process(msg, devs).value.Dump?
  {
  }

  // ---- When the promise is kept -----------------------------------------------------------------

  /** Readable only because of a connection that outlived its listener. */
  ghost predicate Haunted(n: Net, f: Fd) {
    StalePending(n, f) && n.socks[n.fds.sockets[f]].rx == 0
  }

  ghost predicate Ready(n: Net, f: Fd) {
    ReadyToRead(n, f) || ReadyToAccept(n, f) || ReadyToReceive(n, f)
  }

  /**
   * What makes a descriptor readable is there to be had exactly if it is not the connection of a listener that is
   * gone.
   */
  lemma ReadableIsReady(s: State, f: Fd)
    requires Core(s) && Unwaited(s, {f})
    ensures Readable(s.net, f) ==> (Ready(s.net, f) <==> !Haunted(s.net, f))
    ensures Ready(s.net, f) ==> Readable(s.net, f)
  {
    if Known(s.net, f) {
      var sid := s.net.fds.sockets[f];
      assert SlotsOk(s.tracees, s.ops, s.net.fds, sid, s.net.socks[sid]);
      assert !s.net.socks[sid].recv.ReadWait?;
    }
  }

  /** Whatever happens from here on short of a call that consumes what is there, there is something to be had on `f`. */
  ghost predicate Honoured(s: State, f: Fd) {
    forall steps :: Sound(s, steps) && RunSpares(s, steps, f) && !RunAll(s, steps).halted ==>
      Ready(RunAll(s, steps).net, f)
  }

  /**
   * Once `f` is readable and nobody waits on it, select's promise is kept over every run exactly if `f` is not
   * haunted.
   */
  lemma SelectIsHonoured(s: State, f: Fd)
    requires Inv(s) && Unwaited(s, {f}) && Readable(s.net, f)
    ensures Honoured(s, f) <==> !Haunted(s.net, f)
  {
    ReadableIsReady(s, f);
    assert RunAll(s, []) == s && Sound(s, []) && RunSpares(s, [], f);
    forall steps | Ready(s.net, f) && Sound(s, steps) && RunSpares(s, steps, f) && !RunAll(s, steps).halted
      ensures Ready(RunAll(s, steps).net, f)
    {
      RunStays(s, steps, f);
    }
  }

  /** The promise to a program with one thread: whoever asks for what was reported is given it at once. */
  lemma SoloIsHonoured(s: State, p: Pid, steps: seq<Step>, f: Fd, c: Call, ans: Answer)
    requires Inv(s) && Solo(s, p) && Unwaited(s, {f}) && Readable(s.net, f) && !Haunted(s.net, f)
    requires SoloSound(s, steps) && RunSpares(s, steps, f) && !RunAll(s, steps).halted
    ensures var u := RunAll(s, steps);
            Ready(u.net, f) &&
            (Suits(u.net, f, c) && p in u.tracees && u.tracees[p].stop.AtEntry? ==> Served(u, p, f, c, ans))
  {
    SoloRunSound(s, p, steps);
    SelectIsHonoured(s, f);
    var u := RunAll(s, steps);
    if Suits(u.net, f, c) && p in u.tracees && u.tracees[p].stop.AtEntry? {
      SuitedIsServed(u, p, f, c, ans);
    }
  }

  /** A listener is closed with a connection pending and its number goes to a datagram socket: that one is haunted. */
  lemma ClosedListenerHaunts(s: State, p: Pid, f: Fd, tx: nat, ans: Answer)
    requires FdOk(s.net) && f in s.net.fds.listening && f in s.net.fds.fakeAccepted
    requires forall g :: g in s.net.fds.available ==> f < g
    ensures var n := s.net.(fds := SocketClosed(s.net.fds, f));
            var m := WithSocket(n, Dgram, tx);
            FdOk(m) && f in m.fds.sockets && Haunted(m, f) && Readable(m, f) &&
            HandleRecvFrom(s.(net := m), p, f, ans).code == Delayed
  {
    var n := s.net.(fds := SocketClosed(s.net.fds, f));
    assert Least(n.fds.available) == f;
    ReopenedFdOk(s.net, f, tx);
  }

  lemma ReopenedFdOk(n: Net, f: Fd, tx: nat)
    requires FdOk(n) && f in n.fds.sockets
    ensures FdOk(WithSocket(n.(fds := SocketClosed(n.fds, f)), Dgram, tx))
  {
    SocketClosedFdOk(n, f);
    NewSocketFdOk(n.(fds := SocketClosed(n.fds, f)), Dgram, tx);
  }
}
