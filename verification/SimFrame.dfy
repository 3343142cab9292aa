/** What handlers and closures leave alone: other threads, selects made before, routes and reply queues. */
module SimFrame {
  import opened Base
  import opened NetlinkWire
  import opened Sim
  import opened SimServing
  import NL = Netlink

  ghost predicate OthersKept(ts: map<Pid, Tracee>, us: map<Pid, Tracee>, who: set<Pid>) {
    us.Keys <= ts.Keys && forall q :: q in ts && q !in who ==> q in us && us[q] == ts[q]
  }

  /** No reply was queued or taken. */
  ghost predicate RepliesKept(nls: seq<Nl>, after: seq<Nl>) {
    |nls| <= |after| && (forall i: nat :: i < |nls| ==> after[i].replies == nls[i].replies) &&
    (forall i: nat :: |nls| <= i < |after| ==> after[i].replies == [])
  }

  /** Netlink sockets keep their owners; new ones belong to thread `p`. */
  ghost predicate OwnersKept(nls: seq<Nl>, after: seq<Nl>, p: Pid) {
    |nls| <= |after| && (forall i: nat :: i < |nls| ==> after[i].owner == nls[i].owner) &&
    (forall i: nat :: |nls| <= i < |after| ==> after[i].owner == p)
  }

  /** Events are never rewritten; new ones lie ahead, and new dispatches come after the poll-loop delay. */
  ghost predicate EventsKept(s: State, t: State) {
    s.nextEvent <= t.nextEvent &&
    forall e :: e in t.events ==>
                  (e in s.events && t.events[e] == s.events[e]) ||
                  (s.nextEvent <= e < t.nextEvent && NewEvent(s, t.events[e]))
  }

  predicate NewEvent(s: State, e: Event) {
    e.at >= s.now && (e.what.Before? ==> e.at == NextDispatch(s))
  }

  /** The clock stands still, and what only a dispatch changes is as it was. */
  ghost predicate Settled(s: State, t: State) {
    t.pid == s.pid && t.app == s.app && t.poll == s.poll && t.now == s.now && EventsKept(s, t)
  }

  /** Of the threads at most `p` has changed; selects may have been added; netlink has been left alone. */
  ghost predicate Frame(s: State, t: State, p: Pid) {
    Settled(s, t) && s.ops <= t.ops && OthersKept(s.tracees, t.tracees, {p}) &&
    t.table == s.table && RepliesKept(s.net.nls, t.net.nls) && OwnersKept(s.net.nls, t.net.nls, p)
  }

  // ---- Handlers --------------------------------------------------------------------------

  lemma AnsweredFrame(s: State, t: State, p: Pid, result: Result, code: Code, ans: Answer)
    requires Frame(s, t, p)
    ensures Frame(s, Answered(t, p, result, code, ans).s, p)
  {
  }

  /** A change of the sockets or of the descriptor tables is within the frame. */
  lemma NetFrame(s: State, t: State, p: Pid)
    requires Settled(s, t) && t.ops == s.ops && t.tracees == s.tracees && t.table == s.table
    requires t.net.nls == s.net.nls || t.net.nls == s.net.nls + [Nl(p, [], NoNl)]
    ensures Frame(s, t, p)
  {
  }

  lemma SockFrame(s: State, t: State, p: Pid, sid: SockId, k: Sock)
    requires Frame(s, t, p) && sid < |t.net.socks|
    ensures Frame(s, SetSock(t, sid, k), p)
  {
  }

  lemma ContFrame(s: State, t: State, p: Pid, c: Cont)
    requires Frame(s, t, p)
    ensures Frame(s, SetCont(t, p, c), p)
  {
  }

  lemma ResumeFrame(s: State, t: State, p: Pid)
    requires Frame(s, t, p)
    ensures Frame(s, Resume(t, p), p)
  {
    ContFrame(s, Schedule(t, NextDispatch(t), Before(p)), p, Resumes(t.nextEvent));
  }

  lemma FakeNetStays(s: State, p: Pid, result: Result, stray: Call)
    ensures Resume(Fake(s, p, result, stray), p).net == s.net
  {
  }

  lemma ReceiveFrame(s: State, p: Pid, fd: Fd, again: Code, ans: Answer)
    requires Known(s.net, fd)
    ensures Frame(s, HandleReceive(s, p, fd, again, ans).s, p)
  {
    var sid := s.net.fds.sockets[fd];
    var k := s.net.socks[sid];
    if k.rx > 0 {
      AnsweredFrame(s, s, p, Value(ans.ret), Manual, ans);
      ResumeFrame(s, Fake(s, p, Value(ans.ret), ans.stray), p);
      FakeNetStays(s, p, Value(ans.ret), ans.stray);
      SockFrame(s, Resume(Fake(s, p, Value(ans.ret), ans.stray), p), p, sid, k.(rx := ans.rxAfter, recv := NoRecv));
    } else if fd in s.net.fds.nonblocking {
      AnsweredFrame(s, s, p, Value(-EWOULDBLOCK), again, ans);
    } else {
      SockFrame(s, s, p, sid, k.(recv := ReadWait(p, fd)));
      ContFrame(s, SetSock(s, sid, k.(recv := ReadWait(p, fd))), p, InRecv(fd));
    }
  }

  lemma ReadFrame(s: State, p: Pid, fd: Fd, count: nat, ans: Answer)
    ensures Frame(s, HandleRead(s, p, fd, count, ans).s, p)
    ensures Frame(s, HandleRecvFrom(s, p, fd, ans).s, p)
  {
    if Known(s.net, fd) {
      ReceiveFrame(s, p, fd, Failure, ans);
      ReceiveFrame(s, p, fd, Success, ans);
    }
    AnsweredFrame(s, s, p, Kernel, Success, ans);
    AnsweredFrame(s, s, p, Value(count), Success, ans);
  }

  lemma BlockedWriteFrame(s: State, p: Pid, fd: Fd)
    requires Known(s.net, fd)
    ensures var sid := s.net.fds.sockets[fd];
            Frame(s, SetCont(SetSock(s, sid, s.net.socks[sid].(send := WriteWait(p))), p, InWrite(fd)), p)
  {
    var sid := s.net.fds.sockets[fd];
    SockFrame(s, s, p, sid, s.net.socks[sid].(send := WriteWait(p)));
    ContFrame(s, SetSock(s, sid, s.net.socks[sid].(send := WriteWait(p))), p, InWrite(fd));
  }

  lemma WriteFrame(s: State, p: Pid, fd: Fd, count: nat, ans: Answer)
    ensures Frame(s, HandleWrite(s, p, fd, count, ans).s, p)
  {
    AnsweredFrame(s, s, p, Kernel, Success, ans);
    AnsweredFrame(s, s, p, Value(count), Success, ans);
    AnsweredFrame(s, s, p, Value(-EWOULDBLOCK), Failure, ans);
    if Known(s.net, fd) {
      BlockedWriteFrame(s, p, fd);
      SentWriteFrame(s, p, fd, ans);
    }
  }

  lemma SentWriteFrame(s: State, p: Pid, fd: Fd, ans: Answer)
    requires Known(s.net, fd)
    ensures var sid := s.net.fds.sockets[fd];
            Frame(s, Answered(SetSock(s, sid, s.net.socks[sid].(tx := ans.txAfter)), p, Value(ans.ret),
                              if ans.ret > 0 then Success else Error, ans).s, p)
  {
    var sid := s.net.fds.sockets[fd];
    var s1 := SetSock(s, sid, s.net.socks[sid].(tx := ans.txAfter));
    NetFrame(s, s1, p);
    AnsweredFrame(s, s1, p, Value(ans.ret), if ans.ret > 0 then Success else Error, ans);
  }

  lemma OpenFrame(s: State, p: Pid, random: bool, ans: Answer)
    ensures Frame(s, HandleOpen(s, p, random, ans).s, p)
  {
  }

  lemma CloseFrame(s: State, p: Pid, fd: Fd, ans: Answer)
    ensures Frame(s, HandleClose(s, p, fd, ans).s, p)
  {
    if fd in s.net.fds.sockets {
      NetFrame(s, CloseSocket(s, fd), p);
      AnsweredFrame(s, CloseSocket(s, fd), p, Value(0), Success, ans);
    }
  }

  lemma FcntlFrame(s: State, p: Pid, fd: Fd, cmd: FcntlCmd, ans: Answer)
    ensures Frame(s, HandleFcntl(s, p, fd, cmd, ans).s, p)
  {
    var t := WithFds(s, s.net.fds.(nonblocking := s.net.fds.nonblocking + {fd}));
    NetFrame(s, t, p);
    AnsweredFrame(s, t, p, Value(0), Success, ans);
    AnsweredFrame(s, s, p, Value(0), Success, ans);
    AnsweredFrame(s, s, p, Value(-1), Failure, ans);
    AnsweredFrame(s, s, p, Kernel, Success, ans);
  }

  lemma SocketFrame(s: State, p: Pid, family: Family, kind: SockType, route: bool, ans: Answer)
    ensures Frame(s, HandleSocket(s, p, family, kind, route, ans).s, p)
  {
    AnsweredFrame(s, s, p, Value(-EPROTONOSUPPORT), Failure, ans);
    AnsweredFrame(s, s, p, Value(-EPROTOTYPE), Failure, ans);
    AnsweredFrame(s, s, p, Value(-EPROTONOSUPPORT), Error, ans);
    AnsweredFrame(s, s, p, Value(-EAFNOSUPPORT), Failure, ans);
    if s.net.fds.available != {} {
      NewDescriptorFrame(s, WithSocket(s.net, kind, ans.txAfter), p, Least(s.net.fds.available), ans);
      NewDescriptorFrame(s, WithNetlink(s.net, p), p, Least(s.net.fds.available), ans);
    }
  }

  lemma NewDescriptorFrame(s: State, n: Net, p: Pid, fd: Fd, ans: Answer)
    requires n.nls == s.net.nls || n.nls == s.net.nls + [Nl(p, [], NoNl)]
    ensures Frame(s, Answered(s.(net := n), p, Value(fd), Success, ans).s, p)
  {
    NetFrame(s, s.(net := n), p);
    AnsweredFrame(s, s.(net := n), p, Value(fd), Success, ans);
  }

  lemma ListenFrame(s: State, p: Pid, fd: Fd, ans: Answer)
    ensures Frame(s, HandleListen(s, p, fd, ans).s, p)
  {
    AnsweredFrame(s, s, p, Value(-EOPNOTSUPP), Failure, ans);
    if Known(s.net, fd) {
      var sid, s1 := s.net.fds.sockets[fd], WithFds(s, s.net.fds.(listening := s.net.fds.listening + {fd}));
      NetFrame(s, s1, p);
      AnsweredFrame(s, s1, p, Value(ans.ret), Failure, ans);
      SockFrame(s, s1, p, sid, Listening(s.net.socks[sid], fd));
      AnsweredFrame(s, SetSock(s1, sid, Listening(s.net.socks[sid], fd)), p, Value(0), Success, ans);
    }
  }

  lemma ConnectCallFrame(s: State, p: Pid, fd: Fd, inet: bool, ans: Answer)
    ensures Frame(s, HandleConnect(s, p, fd, inet, ans).s, p)
  {
    if !Known(s.net, fd) {
      AnsweredFrame(s, s, p, Value(-1), Failure, ans);
    } else {
      var sid := s.net.fds.sockets[fd];
      var k := Attempted(s.net.socks[sid], p, fd, ans);
      var s1 := SetCont(SetSock(s, sid, k), p, InConnect(fd));
      AnsweredFrame(s, s, p, Value(-1), Failure, ans);
      SockFrame(s, s, p, sid, k);
      ContFrame(s, SetSock(s, sid, k), p, InConnect(fd));
      if ans.connected.Some? {
        OnConnectFrame(s, s1, sid, ans.connected.value, p, ans);
      }
    }
  }

  lemma OnConnectFrame(s: State, t: State, sid: SockId, ok: bool, p: Pid, ans: Answer)
    requires Frame(s, t, p) && sid < |t.net.socks| && t.net.socks[sid].connect.ConnectWait? &&
             t.net.socks[sid].connect.pid == p
    ensures Frame(s, OnConnect(t, sid, ok, ans), p)
  {
    var k := t.net.socks[sid];
    var t1 := SetSock(t, sid, k.(connecting := false));
    SockFrame(s, t, p, sid, k.(connecting := false));
    var t2 := if ok then WithFds(t1, t.net.fds.(connected := t.net.fds.connected + {k.connect.fd})) else t1;
    AnsweredFrame(s, t2, p, Value(if ok then 0 else -1), Manual, ans);
    ResumeFrame(s, Fake(t2, p, Value(if ok then 0 else -1), ans.stray), p);
  }

  lemma AcceptFrame(s: State, p: Pid, fd: Fd, ans: Answer)
    ensures Frame(s, HandleAccept(s, p, fd, ans).s, p)
  {
    var t := s.net.fds;
    AnsweredFrame(s, s, p, Value(-EWOULDBLOCK), Failure, ans);
    if fd in t.fakeAccepted && t.available != {} {
      var new_fd := Least(t.available);
      var s1 := WithFds(s, WithAccepted(t.(fakeAccepted := t.fakeAccepted - {fd}), new_fd, t.fakeAccepted[fd]));
      NetFrame(s, s1, p);
      AnsweredFrame(s, s1, p, Value(new_fd), Success, ans);
    } else if Known(s.net, fd) {
      var sid := t.sockets[fd];
      var k := s.net.socks[sid].(accept := AcceptWait(p, fd));
      SockFrame(s, s, p, sid, k);
      ContFrame(s, SetSock(s, sid, k), p, InAccept(fd));
    }
  }

  lemma BlockFrame(s: State, p: Pid, rset: Option<set<Fd>>, wset: Option<set<Fd>>, timeout: Option<Timeval>)
    ensures Frame(s, BlockInSelect(s, p, rset, wset, timeout), p)
  {
    var op, o := |s.ops|, NewSelect(s, p, rset, wset, timeout);
    var s1 := s.(net := WatchedNet(s.net, op, o.watchR, o.watchW), ops := s.ops + [o]);
    assert Frame(s, Timed(s1, op, timeout), p);
    ContFrame(s, Timed(s1, op, timeout), p, InSelect(op));
  }

  lemma SelectFrame(s: State, p: Pid, rset: Option<set<Fd>>, wset: Option<set<Fd>>, eset: Option<set<Fd>>,
                    timeout: Option<Timeval>, ans: Answer)
    ensures Frame(s, HandleSelect(s, p, rset, wset, eset, timeout, ans).s, p)
  {
    BlockFrame(s, p, rset, wset, timeout);
    AnsweredFrame(s, s, p, SelectAnswer(s.net, rset, wset), Success, ans);
  }

  lemma ClockFrame(s: State, p: Pid, cpu: bool, ans: Answer)
    ensures Frame(s, HandleClockGetTime(s, p, cpu, ans).s, p) && Frame(s, HandleClockGetRes(s, p, cpu, ans).s, p)
  {
  }

  lemma SleepFrame(s: State, p: Pid, sec: nat, nsec: nat)
    ensures Frame(s, HandleNanoSleep(s, p, sec, nsec).s, p)
  {
  }

  /** Calls that neither speak netlink nor make threads. */
  predicate Ordinary(c: Call) {
    !c.Clone? && !c.SendTo? && !c.SendMsg? && !c.RecvMsg?
  }

  lemma SocketCallFrame(s: State, p: Pid, c: Call, ans: Answer)
    requires c.Socket? || c.Listen? || c.Connect? || c.Accept? || c.Select? || c.Fcntl?
    ensures Frame(s, Handle(s, p, c, ans).s, p)
  {
    if c.Fcntl? {
      FcntlFrame(s, p, c.fd, c.cmd, ans);
    } else if c.Socket? {
      SocketFrame(s, p, c.family, c.kind, c.route, ans);
    } else if c.Listen? {
      ListenFrame(s, p, c.fd, ans);
    } else if c.Connect? {
      ConnectCallFrame(s, p, c.fd, c.inet, ans);
    } else if c.Accept? {
      AcceptFrame(s, p, c.fd, ans);
    } else {
      SelectFrame(s, p, c.rset, c.wset, c.eset, c.timeout, ans);
    }
  }

  lemma FileCallFrame(s: State, p: Pid, c: Call, ans: Answer)
    requires c.Read? || c.RecvFrom? || c.Write? || c.Open? || c.Close?
    ensures Frame(s, Handle(s, p, c, ans).s, p)
  {
    if c.Read? {
      ReadFrame(s, p, c.fd, c.count, ans);
    } else if c.RecvFrom? {
      ReadFrame(s, p, c.fd, 0, ans);
    } else if c.Write? {
      WriteFrame(s, p, c.fd, c.count, ans);
    } else if c.Open? {
      OpenFrame(s, p, c.random, ans);
    } else {
      CloseFrame(s, p, c.fd, ans);
    }
  }

  lemma TimeCallFrame(s: State, p: Pid, c: Call, ans: Answer)
    requires c.NanoSleep? || c.ClockGetTime? || c.ClockGetRes?
    ensures Frame(s, Handle(s, p, c, ans).s, p)
  {
    if c.NanoSleep? {
      SleepFrame(s, p, c.sec, c.nsec);
    } else {
      ClockFrame(s, p, c.cpuClock, ans);
    }
  }

  lemma CallFrame(s: State, p: Pid, c: Call, ans: Answer)
    requires Ordinary(c)
    ensures Frame(s, Handle(s, p, c, ans).s, p)
  {
    if c.Socket? || c.Listen? || c.Connect? || c.Accept? || c.Select? || c.Fcntl? {
      SocketCallFrame(s, p, c, ans);
    } else if c.Read? || c.RecvFrom? || c.Write? || c.Open? || c.Close? {
      FileCallFrame(s, p, c, ans);
    } else if c.NanoSleep? || c.ClockGetTime? || c.ClockGetRes? {
      TimeCallFrame(s, p, c, ans);
    } else {
      assert Frame(s, s, p);
    }
  }

  // ---- Netlink calls -----------------------------------------------------------------------

  /** Which threads and selects have changed: thread `p`, and select `op` with its thread. */
  ghost predicate Moves(s: State, t: State, p: Pid, op: Option<OpId>) {
    Settled(s, t) && t.tracees.Keys <= s.tracees.Keys && |s.ops| <= |t.ops| && OwnersKept(s.net.nls, t.net.nls, p) &&
    (forall q :: q in s.tracees && q != p && !PidOf(s.ops, op, q) ==> q in t.tracees && t.tracees[q] == s.tracees[q]) &&
    (forall i: nat :: i < |s.ops| ==> t.ops[i] == if op == Some(i) then s.ops[i].(handled := true) else s.ops[i])
  }

  predicate PidOf(ops: seq<SelectOp>, op: Option<OpId>, q: Pid) {
    op.Some? && op.value < |ops| && ops[op.value].pid == q
  }

  /** The select a netlink request answers. */
  function Notified(s: State, fd: Fd, walked: Outcome<seq<Effect>>): Option<OpId>
    requires KnownNl(s.net, fd)
  {
    var r := s.net.nls[s.net.fds.netlinks[fd]].recv;
    if walked.Fine? && Notifies(walked.value) && r.SelectNl? && StillWaits(s.ops, r.op) then Some(r.op) else None
  }

  /** The request a call makes, and of which descriptor. */
  function RequestOf(s: State, c: Call): Option<(Fd, Outcome<seq<Effect>>)> {
    match c
    case SendTo(fd, buf, flags, _) =>
      if !Known(s.net, fd) && KnownNl(s.net, fd) && flags == NoFlags then Some((fd, WalkMsgs(buf, s.app.devices)))
      else None
    case SendMsg(fd, iov) => if KnownNl(s.net, fd) then Some((fd, WalkBuffers(iov, s.app.devices))) else None
    case _ => None
  }

  function NotifiedBy(s: State, c: Call): Option<OpId> {
    var r := RequestOf(s, c);
    if r.Some? then Notified(s, r.value.0, r.value.1) else None
  }

  lemma AnsweredMoves(s: State, t: State, p: Pid, op: Option<OpId>, result: Result, code: Code, ans: Answer)
    requires Moves(s, t, p, op)
    ensures Moves(s, Answered(t, p, result, code, ans).s, p, op)
  {
  }

  lemma SentMoves(s: State, n: NlId, es: seq<Effect>, r: NlCb, p: Pid)
    requires n < |s.net.nls|
    ensures Moves(s, Sent(s, n, es, r), p, None)
  {
  }

  /** Answering the select that a request notifies. */
  lemma FinishMoves(s: State, t: State, p: Pid, op: OpId, fd: Fd, n: NlId, ans: Answer)
    requires Moves(s, t, p, None) && t.ops == s.ops && t.tracees == s.tracees && op < |s.ops| && n < |t.net.nls|
    ensures var f := FinishSelect(t, op, s.ops[op].pid, OneRead(s.ops[op], fd), ans.stray);
            f.net == t.net && Moves(s, SetNl(f, n, f.net.nls[n].(recv := NoNl)), p, Some(op))
  {
    FinishFrame(t, op, s.ops[op].pid, OneRead(s.ops[op], fd), ans.stray);
  }

  lemma SendMoves(s: State, p: Pid, fd: Fd, walked: Outcome<seq<Effect>>, returned: int, ans: Answer)
    requires KnownNl(s.net, fd) && s.net.nls[s.net.fds.netlinks[fd]].owner == p
    ensures Moves(s, NetlinkSend(s, fd, walked, returned, ans).s, p, Notified(s, fd, walked))
  {
    var n, op := s.net.fds.netlinks[fd], Notified(s, fd, walked);
    if walked.Fine? {
      var r, s1 := s.net.nls[n].recv, Sent(s, n, walked.value, s.net.nls[n].recv);
      SentMoves(s, n, walked.value, r, p);
      if op.Some? {
        FinishMoves(s, s1, p, op.value, r.fd, n, ans);
        var f := FinishSelect(s1, op.value, s.ops[op.value].pid, OneRead(s.ops[op.value], r.fd), ans.stray);
        AnsweredMoves(s, SetNl(f, n, f.net.nls[n].(recv := NoNl)), p, op, Value(returned), Success, ans);
      } else {
        AnsweredMoves(s, s1, p, op, Value(returned), Success, ans);
      }
    }
  }

  lemma RecvMsgMoves(s: State, p: Pid, fd: Fd, iovLen: nat, ans: Answer)
    requires KnownNl(s.net, fd) ==> s.net.nls[s.net.fds.netlinks[fd]].owner == p
    ensures Moves(s, HandleRecvMsg(s, fd, iovLen, ans).s, p, None)
  {
  }

  lemma NetlinkMoves(s: State, p: Pid, c: Call, ans: Answer)
    requires (c.SendTo? || c.SendMsg? || c.RecvMsg?) && OwnCall(s.net, p, c)
    ensures Moves(s, Handle(s, p, c, ans).s, p, NotifiedBy(s, c))
  {
    match c
    case SendTo(fd, buf, flags, _) =>
      if RequestOf(s, c).Some? {
        SendMoves(s, p, fd, WalkMsgs(buf, s.app.devices), LeftoverValue(buf), ans);
      } else {
        assert Moves(s, s, p, None);
        AnsweredMoves(s, s, p, None, Value(ans.ret), Success, ans);
      }
    case SendMsg(fd, iov) =>
      if RequestOf(s, c).Some? {
        SendMoves(s, p, fd, WalkBuffers(iov, s.app.devices), NL.TotalLen(iov), ans);
      }
    case RecvMsg(fd, len) => RecvMsgMoves(s, p, fd, len, ans);
  }

  lemma CallMoves(s: State, p: Pid, c: Call, ans: Answer)
    requires !c.Clone? && OwnCall(s.net, p, c)
    ensures Moves(s, Handle(s, p, c, ans).s, p, NotifiedBy(s, c))
  {
    if Ordinary(c) {
      CallFrame(s, p, c, ans);
    } else {
      NetlinkMoves(s, p, c, ans);
    }
  }

  lemma StatusFrame(r: Res, p: Pid)
    ensures Frame(r.s, ProcessStatusCode(r.s, r.code, p), p)
  {
  }

  // ---- Closures ----------------------------------------------------------------------------

  /** A closure that answers a select touches its thread, its flag and its timeout. */
  lemma FinishFrame(s: State, op: OpId, faked: Pid, result: Result, stray: Call)
    requires op < |s.ops|
    ensures var t, p := FinishSelect(s, op, faked, result, stray), s.ops[op].pid;
            Settled(s, t) && t.ops == s.ops[op := s.ops[op].(handled := true)] &&
            t.tracees.Keys == s.tracees.Keys && (faked == p ==> OthersKept(s.tracees, t.tracees, {p})) &&
            t.table == s.table && t.net == s.net
  {
  }

  predicate StillWaits(ops: seq<SelectOp>, op: OpId) {
    op < |ops| && !ops[op].handled
  }

  /** Only the threads of `who` and select `op` have changed. */
  ghost predicate FrameOf(s: State, t: State, who: set<Pid>, op: Option<OpId>) {
    Settled(s, t) && t.tracees.Keys == s.tracees.Keys &&
    t.ops == (if op.Some? && op.value < |s.ops| then s.ops[op.value := s.ops[op.value].(handled := true)] else s.ops) &&
    t.table == s.table && RepliesKept(s.net.nls, t.net.nls) && |t.net.nls| == |s.net.nls| &&
    OwnersKept(s.net.nls, t.net.nls, 0) && OthersKept(s.tracees, t.tracees, who)
  }

  /** Answering and scheduling a thread that waits on a socket. */
  lemma WakeFrame(s: State, t: State, p: Pid, result: Result, stray: Call)
    requires FrameOf(s, t, {}, None)
    ensures FrameOf(s, Resume(Fake(t, p, result, stray), p), {p}, None)
    ensures Resume(Fake(t, p, result, stray), p).net == t.net
  {
    FakeFrameOf(s, t, p, result, stray);
    ResumeFrameOf(s, Fake(t, p, result, stray), p);
  }

  lemma FakeFrameOf(s: State, t: State, p: Pid, result: Result, stray: Call)
    requires FrameOf(s, t, {}, None)
    ensures FrameOf(s, Fake(t, p, result, stray), {p}, None) && Fake(t, p, result, stray).net == t.net
  {
  }

  lemma ResumeFrameOf(s: State, t: State, p: Pid)
    requires FrameOf(s, t, {p}, None)
    ensures FrameOf(s, Resume(t, p), {p}, None) && Resume(t, p).net == t.net
  {
  }

  /** Only sockets and tables have changed. */
  ghost predicate NetOnly(s: State, t: State) {
    t == s.(net := t.net) && t.net.nls == s.net.nls
  }

  lemma AnswerFrame(s: State, t: State, op: OpId, result: Result, stray: Call)
    requires NetOnly(s, t) && op < |s.ops|
    ensures var f := FinishSelect(t, op, s.ops[op].pid, result, stray);
            FrameOf(s, f, {s.ops[op].pid}, Some(op)) && f.net == t.net
  {
    FinishFrame(t, op, s.ops[op].pid, result, stray);
  }

  /** The thread and the select a receive callback is about. */
  function RecvOf(ops: seq<SelectOp>, r: RecvCb): (set<Pid>, Option<OpId>) {
    match r
    case NoRecv => ({}, None)
    case ReadWait(p, _) => ({p}, None)
    case SelectRecv(op, _) => if StillWaits(ops, op) then ({ops[op].pid}, Some(op)) else ({}, None)
  }

  lemma DataFrame(s: State, sid: SockId, rx: nat, ans: Answer)
    requires sid < |s.net.socks|
    requires var r := s.net.socks[sid].recv; r.SelectRecv? && StillWaits(s.ops, r.op) ==> s.pid == s.ops[r.op].pid
    ensures var (who, op) := RecvOf(s.ops, s.net.socks[sid].recv);
            FrameOf(s, OnData(s, sid, rx, ans), who, op)
  {
    var r, s1 := s.net.socks[sid].recv, SetSock(s, sid, s.net.socks[sid].(rx := rx));
    if r.SelectRecv? && StillWaits(s.ops, r.op) {
      AnswerFrame(s, s1, r.op, OneRead(s.ops[r.op], r.fd), ans.stray);
    } else if r.ReadWait? {
      WakeFrame(s, s1, r.pid, Value(ans.ret), ans.stray);
    }
  }

  function SendOf(ops: seq<SelectOp>, c: SendCb): (set<Pid>, Option<OpId>) {
    if c.SelectSend? && StillWaits(ops, c.op) then ({ops[c.op].pid}, Some(c.op)) else ({}, None)
  }

  lemma SpaceFrame(s: State, sid: SockId, tx: nat, ans: Answer)
    requires sid < |s.net.socks|
    ensures var (who, op) := SendOf(s.ops, s.net.socks[sid].send);
            FrameOf(s, OnSpace(s, sid, tx, ans), who, op)
  {
    var c := s.net.socks[sid].send;
    if c.SelectSend? && StillWaits(s.ops, c.op) {
      AnswerFrame(s, SetSock(s, sid, s.net.socks[sid].(tx := tx)), c.op, OneWrite(s.ops[c.op], c.fd), ans.stray);
    }
  }

  function AcceptOf(ops: seq<SelectOp>, a: AcceptCb): (set<Pid>, Option<OpId>) {
    match a
    case SelectAccept(op, _) => if StillWaits(ops, op) then ({ops[op].pid}, Some(op)) else ({}, None)
    case AcceptWait(p, _) => ({p}, None)
    case _ => ({}, None)
  }

  lemma SelectAcceptFrame(s: State, sid: SockId, ans: Answer)
    requires sid < |s.net.socks| && s.net.socks[sid].accept.SelectAccept? &&
             StillWaits(s.ops, s.net.socks[sid].accept.op)
    requires Known(s.net, s.net.socks[sid].accept.fd)
    ensures FrameOf(s, OnConnection(s, sid, ans), {s.ops[s.net.socks[sid].accept.op].pid},
                    Some(s.net.socks[sid].accept.op))
  {
    var a, s1 := s.net.socks[sid].accept, s.(net := s.net.(socks := s.net.socks + [FRESH_SOCK]));
    var l := s.net.fds.sockets[a.fd];
    var s2 := SetSock(WithFds(s1, s.net.fds.(fakeAccepted := s.net.fds.fakeAccepted[a.fd := |s.net.socks|])),
                      l, s1.net.socks[l].(accept := NoAccept));
    AnswerFrame(s, s2, a.op, OneRead(s.ops[a.op], a.fd), ans.stray);
  }

  lemma AcceptWaitFrame(s: State, sid: SockId, ans: Answer)
    requires sid < |s.net.socks| && s.net.socks[sid].accept.AcceptWait? && s.net.fds.available != {}
    requires s.pid == s.net.socks[sid].accept.pid
    ensures FrameOf(s, OnConnection(s, sid, ans), {s.pid}, None)
  {
    var new_fd, s1 := Least(s.net.fds.available), s.(net := s.net.(socks := s.net.socks + [FRESH_SOCK]));
    WakeFrame(s, WithFds(s1, WithAccepted(s.net.fds, new_fd, |s.net.socks|)), s.pid, Value(new_fd), ans.stray);
  }

  lemma ConnectionFrame(s: State, sid: SockId, ans: Answer)
    requires sid < |s.net.socks| && !OnConnection(s, sid, ans).halted
    requires s.net.socks[sid].accept.AcceptWait? ==> s.pid == s.net.socks[sid].accept.pid
    ensures var (who, op) := AcceptOf(s.ops, s.net.socks[sid].accept);
            FrameOf(s, OnConnection(s, sid, ans), who, op)
  {
    var a := s.net.socks[sid].accept;
    if a.SelectAccept? && StillWaits(s.ops, a.op) {
      SelectAcceptFrame(s, sid, ans);
    } else if a.AcceptWait? {
      AcceptWaitFrame(s, sid, ans);
    } else {
      IdleAcceptFrame(s, sid, ans);
    }
  }

  lemma IdleAcceptFrame(s: State, sid: SockId, ans: Answer)
    requires sid < |s.net.socks|
    requires var a := s.net.socks[sid].accept; !a.AcceptWait? && (a.SelectAccept? ==> !StillWaits(s.ops, a.op))
    ensures FrameOf(s, OnConnection(s, sid, ans), {}, None)
  {
  }

  lemma ConnectFrame(s: State, sid: SockId, ok: bool, ans: Answer)
    requires sid < |s.net.socks|
    ensures var c := s.net.socks[sid].connect;
            FrameOf(s, OnConnect(s, sid, ok, ans), if c.ConnectWait? then {c.pid} else {}, None)
  {
    var k := s.net.socks[sid];
    if k.connect.ConnectWait? {
      var s1 := SetSock(s, sid, k.(connecting := false));
      var s2 := if ok then WithFds(s1, s.net.fds.(connected := s.net.fds.connected + {k.connect.fd})) else s1;
      WakeFrame(s, s2, k.connect.pid, Value(if ok then 0 else -1), ans.stray);
    }
  }
}
